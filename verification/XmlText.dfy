/**
 Text of an XML document as TinyXML reads and writes it, with a document encoding other than UTF-8.
 A `const char*` into the document is a position in the string of its bytes: `*p` is zero exactly at
 the position `|s|`, and None is the null pointer.
 */
module XmlText {
  import opened Wrappers
  import Utf8

  // ----- Characters -----

  predicate IsWhiteSpace(c: char) {
    c == ' ' || '\t' <= c <= '\r'
  }

  predicate IsAlpha(c: char) {
    if (c as int) < 127 then 'a' <= c <= 'z' || 'A' <= c <= 'Z' else true
  }

  predicate IsAlphaNum(c: char) {
    IsAlpha(c) || '0' <= c <= '9'
  }

  predicate IsNameStart(c: char) {
    IsAlpha(c) || c == '_'
  }

  predicate IsNameChar(c: char) {
    IsAlphaNum(c) || c == '_' || c == '-' || c == '.' || c == ':'
  }

  function ToLower(c: char): char {
    if 'A' <= c <= 'Z' then ((c as int) + 32) as char else c
  }

  /** The document has `tag` at p: StringEqual with case. */
  predicate At(s: string, p: nat, tag: string) {
    p + |tag| <= |s| && s[p..p + |tag|] == tag
  }

  /** StringEqual ignoring case. */
  predicate AtNoCase(s: string, p: nat, tag: string) {
    p + |tag| <= |s| && forall i :: 0 <= i < |tag| ==> ToLower(s[p + i]) == ToLower(tag[i])
  }

  lemma AtConcat(s: string, p: nat, a: string, b: string)
    ensures At(s, p, a + b) <==> At(s, p, a) && At(s, p + |a|, b)
  {
    if p + |a| + |b| <= |s| {
      var t := s[p..p + |a + b|];
      assert t[..|a|] == s[p..p + |a|] && t[|a|..] == s[p + |a|..p + |a| + |b|];
      assert (a + b)[..|a|] == a && (a + b)[|a|..] == b;
      assert t == t[..|a|] + t[|a|..];
    }
  }

  // ----- SkipWhiteSpace, ReadName -----

  function SkipFrom(s: string, p: nat): (q: nat)
    requires p <= |s|
    ensures p <= q <= |s|
    ensures forall i :: p <= i < q ==> IsWhiteSpace(s[i])
    ensures q < |s| ==> !IsWhiteSpace(s[q])
    decreases |s| - p
  {
    if p < |s| && IsWhiteSpace(s[p]) then SkipFrom(s, p + 1) else p
  }

  /** SkipWhiteSpace: null for null, and at the end of the document. */
  function Skip(s: string, p: Option<nat>): (q: Option<nat>)
    requires p.Some? ==> p.value <= |s|
    ensures q.Some? ==> p.Some? && p.value <= q.value <= |s|
  {
    if p.None? || p.value == |s| then None else Some(SkipFrom(s, p.value))
  }

  function NameEnd(s: string, p: nat): (q: nat)
    requires p <= |s|
    ensures p <= q <= |s|
    ensures forall i :: p <= i < q ==> IsNameChar(s[i])
    ensures q < |s| ==> !IsNameChar(s[q])
    decreases |s| - p
  {
    if p < |s| && IsNameChar(s[p]) then NameEnd(s, p + 1) else p
  }

  /** ReadName: the position after the name at p, or null when no name starts there. */
  function NameAt(s: string, p: Option<nat>): (q: Option<nat>)
    requires p.Some? ==> p.value <= |s|
    ensures q.Some? ==> p.Some? && p.value < q.value <= |s|
  {
    if p.Some? && p.value < |s| && IsNameStart(s[p.value]) then Some(NameEnd(s, p.value)) else None
  }

  /** A name that ReadName reads whole. */
  predicate ValidName(name: string) {
    name != "" && IsNameStart(name[0]) && forall i :: 0 <= i < |name| ==> IsNameChar(name[i])
  }

  method SkipWhiteSpace(s: string, p: Option<nat>) returns (q: Option<nat>)
    requires p.Some? ==> p.value <= |s|
    ensures q == Skip(s, p)
  {
    if p.None? || p.value == |s| {
      return None;
    }
    var i := p.value;
    while i < |s| && IsWhiteSpace(s[i])
      invariant p.value <= i <= |s| && SkipFrom(s, p.value) == SkipFrom(s, i)
    {
      i := i + 1;
    }
    q := Some(i);
  }

  method ReadName(s: string, p: Option<nat>) returns (q: Option<nat>, name: string)
    requires p.Some? ==> p.value <= |s|
    ensures q == NameAt(s, p)
    ensures name == if q.Some? then s[p.value..q.value] else ""
  {
    if p.None? || p.value == |s| || !IsNameStart(s[p.value]) {
      return None, "";
    }
    var i := p.value;
    while i < |s| && IsNameChar(s[i])
      invariant p.value <= i <= |s| && NameEnd(s, p.value) == NameEnd(s, i)
    {
      i := i + 1;
    }
    q, name := Some(i), s[p.value..i];
  }

  method StringEqual(s: string, p: nat, tag: string, ignoreCase: bool) returns (equal: bool)
    requires p <= |s|
    ensures equal == if ignoreCase then AtNoCase(s, p, tag) else At(s, p, tag)
  {
    var i := 0;
    if ignoreCase {
      while p + i < |s| && i < |tag| && ToLower(s[p + i]) == ToLower(tag[i])
        invariant 0 <= i <= |tag| && p + i <= |s|
        invariant forall j :: 0 <= j < i ==> ToLower(s[p + j]) == ToLower(tag[j])
      {
        i := i + 1;
      }
      equal := i == |tag|;
    } else {
      while p + i < |s| && i < |tag| && s[p + i] == tag[i]
        invariant 0 <= i <= |tag| && p + i <= |s|
        invariant s[p..p + i] == tag[..i]
      {
        assert s[p..p + i + 1] == s[p..p + i] + [s[p + i]] && tag[..i + 1] == tag[..i] + [tag[i]];
        i := i + 1;
      }
      equal := i == |tag|;
      if !equal && p + |tag| <= |s| {
        assert s[p..p + |tag|][i] != tag[i];
      }
    }
  }

  // ----- GetEntity -----

  /** The value of a string of digits, most significant first. */
  function Number(digits: string, base: nat): nat {
    if digits == "" then 0
    else Number(digits[..|digits| - 1], base) * base + Digit(digits[|digits| - 1])
  }

  function Digit(c: char): nat {
    if '0' <= c <= '9' then (c as int) - ('0' as int)
    else if 'a' <= c <= 'f' then (c as int) - ('a' as int) + 10
    else if 'A' <= c <= 'F' then (c as int) - ('A' as int) + 10
    else 0
  }

  predicate IsDigit(c: char, base: nat) {
    '0' <= c <= '9' || (base == 16 && ('a' <= c <= 'f' || 'A' <= c <= 'F'))
  }

  predicate AllDigits(digits: string, base: nat) {
    forall i :: 0 <= i < |digits| ==> IsDigit(digits[i], base)
  }

  /** strchr: the first c at or after p. */
  function Find(s: string, p: nat, c: char): (q: Option<nat>)
    requires p <= |s|
    ensures q.Some? ==> p <= q.value < |s| && s[q.value] == c && c !in s[p..q.value]
    ensures q.None? ==> c !in s[p..]
    decreases |s| - p
  {
    if p == |s| then None else if s[p] == c then Some(p) else Find(s, p + 1, c)
  }

  /** The position after the last c before q. */
  function AfterLast(s: string, q: nat, c: char, lo: nat): (d: nat)
    requires lo < q <= |s| && s[lo] == c
    ensures lo < d <= q && s[d - 1] == c && c !in s[d..q]
    decreases q
  {
    if s[q - 1] == c then q else AfterLast(s, q - 1, c, lo)
  }

  const WORD := 0x1_0000_0000

  /**
   The number that a character reference at p spells: its digits are those between the last `mark`
   (the x of a hexadecimal reference, the # of a decimal one) and the first semicolon. The count
   is kept in 32 bits.
   */
  function Reference(s: string, p: nat, mark: nat, base: nat): (r: Option<(nat, nat)>)
    requires p < mark < |s|
    ensures r.Some? ==> mark + 1 < r.value.1 <= |s|
  {
    match Find(s, mark + 1, ';')
    case None => None
    case Some(q) =>
      var digits := s[AfterLast(s, q, s[mark], mark)..q];
      if AllDigits(digits, base) then Some((Number(digits, base) % WORD, q + 1)) else None
  }

  const ENTITIES := [("&amp;", '&'), ("&lt;", '<'), ("&gt;", '>'), ("&quot;", '\"'), ("&apos;", '\'')]

  function Named(s: string, p: nat, i: nat): (r: (string, nat))
    requires p < |s| && i <= |ENTITIES|
    ensures p < r.1 <= |s|
    decreases |ENTITIES| - i
  {
    if i == |ENTITIES| then ("", p + 1)
    else if At(s, p, ENTITIES[i].0) then ([ENTITIES[i].1], p + |ENTITIES[i].0|)
    else Named(s, p, i + 1)
  }

  /** The encodings that matter here: UTF-8, and all others. */
  datatype Encoding = Utf8Bytes | Legacy

  /** The bytes a character reference stands for. */
  function ReferenceBytes(ucs: nat, enc: Encoding): string
    requires ucs < WORD
  {
    match enc
    case Utf8Bytes =>
      var b := Utf8.Converted(ucs as bv32);
      seq(|b|, i requires 0 <= i < |b| => (b[i] as int) as char)
    case Legacy => [(ucs % 256) as char]
  }

  /** GetEntity: the text that the ampersand at p stands for, and the position after it. */
  function EntityAt(s: string, p: nat, enc: Encoding): (r: (string, Option<nat>))
    requires p < |s|
    ensures r.1.Some? ==> p < r.1.value <= |s|
  {
    if p + 2 < |s| && s[p + 1] == '#' then
      var ref := if s[p + 2] == 'x' then Reference(s, p, p + 2, 16) else Reference(s, p, p + 1, 10);
      match ref
      case None => ("", None)
      case Some((ucs, q)) => (ReferenceBytes(ucs, enc), Some(q))
    else
      var (value, q) := Named(s, p, 0);
      (value, Some(q))
  }

  // ----- ReadText -----

  /** GetChar, outside UTF-8. */
  function CharAt(s: string, p: nat): (r: (string, Option<nat>))
    requires p < |s|
    ensures r.1.Some? ==> p < r.1.value <= |s|
  {
    if s[p] == '&' then EntityAt(s, p, Legacy) else ([s[p]], Some(p + 1))
  }

  /** The text from p to the end tag with all its white space, and where it stops. */
  function RawText(s: string, p: nat, end: string): (r: (string, Option<nat>))
    requires p <= |s|
    ensures r.1.Some? ==> p <= r.1.value <= |s|
    ensures r.1.Some? && r.1.value < |s| ==> At(s, r.1.value, end)
    decreases |s| - p
  {
    if p == |s| || At(s, p, end) then ("", Some(p))
    else
      var (c, q) := CharAt(s, p);
      if q.None? then (c, None)
      else
        var (rest, r) := RawText(s, q.value, end);
        (c + rest, r)
  }

  /** The text from p to the end tag with each run of white space become one space; `gap` after white space. */
  function CondensedText(s: string, p: nat, end: string, gap: bool): (r: (string, Option<nat>))
    requires p <= |s|
    ensures r.1.Some? ==> p <= r.1.value <= |s|
    ensures r.1.Some? && r.1.value < |s| ==> At(s, r.1.value, end)
    ensures r.1.Some? && p < |s| && !At(s, p, end) ==> p < r.1.value
    decreases |s| - p
  {
    if p == |s| || At(s, p, end) then ("", Some(p))
    else if IsWhiteSpace(s[p]) then CondensedText(s, p + 1, end, true)
    else
      var (c, q) := CharAt(s, p);
      var pre := (if gap then " " else "") + c;
      if q.None? then (pre, None)
      else
        var (rest, r) := CondensedText(s, q.value, end, false);
        (pre + rest, r)
  }

  /** The position after the end tag, if there is anything left there. */
  function AfterTag(s: string, p: Option<nat>, end: string): (q: Option<nat>)
    ensures q.Some? ==> p.Some? && q.value == p.value + |end| < |s|
  {
    if p.Some? && p.value < |s| && p.value + |end| < |s| then Some(p.value + |end|) else None
  }

  /** ReadText, with white space condensed or kept. */
  function TextAt(s: string, p: Option<nat>, trim: bool, end: string): (r: (string, Option<nat>))
    requires p.Some? ==> p.value <= |s|
    requires end != ""
    ensures r.1.Some? ==> p.Some? && p.value + |end| <= r.1.value < |s| && At(s, r.1.value - |end|, end)
  {
    var start := if trim then Skip(s, p) else p;
    if start.None? then ("", None)
    else
      var (text, q) := if trim then CondensedText(s, start.value, end, false) else RawText(s, start.value, end);
      (text, AfterTag(s, q, end))
  }

  // ----- EncodeString -----

  /** The start of a hexadecimal character reference, which EncodeString passes through. */
  predicate IsReference(v: string, i: nat) {
    i + 2 < |v| && v[i] == '&' && v[i + 1] == '#' && v[i + 2] == 'x'
  }

  /** A value with no such reference in it. */
  predicate Clean(v: string) {
    forall i :: 0 <= i < |v| ==> !IsReference(v, i)
  }

  const HEX := "0123456789ABCDEF"

  /** How one character is written. */
  function Escape(c: char): (e: string)
    ensures e != ""
  {
    if c == '&' then ENTITIES[0].0
    else if c == '<' then ENTITIES[1].0
    else if c == '>' then ENTITIES[2].0
    else if c == '\"' then ENTITIES[3].0
    else if c == '\'' then ENTITIES[4].0
    else if (c as int) < 32 then "&#x" + [HEX[(c as int) / 16], HEX[(c as int) % 16]] + ";"
    else [c]
  }

  /** Where the text copied unchanged from a reference at i stops: at its semicolon, or at the last character. */
  function CopyEnd(v: string, i: nat): (j: nat)
    requires i < |v|
    ensures i <= j < |v|
    decreases |v| - i
  {
    if v[i] == ';' || i == |v| - 1 then i else CopyEnd(v, i + 1)
  }

  /** EncodeString from index i on. */
  function Encoded(v: string, i: nat): string
    requires i <= |v|
    decreases |v| - i
  {
    if i == |v| then ""
    else if IsReference(v, i) then
      var j := CopyEnd(v, i + 1);
      v[i..j] + Encoded(v, j)
    else Escape(v[i]) + Encoded(v, i + 1)
  }

  /** The inner loop of EncodeString: copy from the reference at i up to its semicolon. */
  method CopyReference(str: string, i: nat) returns (copied: string, j: nat)
    requires IsReference(str, i)
    ensures j == CopyEnd(str, i + 1) && copied == str[i..j]
  {
    copied, j := [str[i]], i + 1;
    while j < |str| - 1 && str[j] != ';'
      invariant i + 1 <= j < |str|
      invariant copied == str[i..j]
      invariant CopyEnd(str, i + 1) == CopyEnd(str, j)
    {
      copied := copied + [str[j]];
      j := j + 1;
    }
  }

  lemma EncodedStep(v: string, i: nat)
    requires i < |v| && !IsReference(v, i)
    ensures Encoded(v, i) == Escape(v[i]) + Encoded(v, i + 1)
  {
  }

  lemma EncodedReferenceText(v: string, i: nat)
    requires IsReference(v, i)
    ensures var j := CopyEnd(v, i + 1); Encoded(v, i) == v[i..j] + Encoded(v, j)
  {
  }

  lemma Assoc(a: string, b: string, c: string)
    ensures (a + b) + c == a + (b + c)
  {
  }

  method EncodeString(str: string) returns (outString: string)
    ensures outString == Encoded(str, 0)
  {
    hide Escape, Encoded, CopyEnd;
    outString := "";
    var i := 0;
    while i < |str|
      invariant 0 <= i <= |str|
      invariant outString + Encoded(str, i) == Encoded(str, 0)
    {
      if str[i] == '&' && i < |str| - 2 && str[i + 1] == '#' && str[i + 2] == 'x' {
        var copied, j := CopyReference(str, i);
        EncodedReferenceText(str, i);
        Assoc(outString, copied, Encoded(str, j));
        outString, i := outString + copied, j;
      } else {
        var e := Escape(str[i]);
        EncodedStep(str, i);
        Assoc(outString, e, Encoded(str, i + 1));
        outString, i := outString + e, i + 1;
      }
    }
    NothingLeft(str);
  }

  lemma NothingLeft(v: string)
    ensures Encoded(v, |v|) == ""
  {
  }

  // ----- The loops -----

  function Pow(base: nat, k: nat): (r: nat) {
    if k == 0 then 1 else base * Pow(base, k - 1)
  }

  lemma Regroup(d: nat, p: nat, base: nat, rest: nat)
    ensures (d * p + rest) * base == d * (base * p) + rest * base
  {
  }

  /** A digit put in front counts for its place. */
  lemma {:induction false} NumberPrepend(c: char, digits: string, base: nat)
    ensures Number([c] + digits, base) == Digit(c) * Pow(base, |digits|) + Number(digits, base)
  {
    if digits == "" {
      assert Number([c], base) == Number("", base) * base + Digit(c);
    } else {
      var k := |digits| - 1;
      var whole := [c] + digits;
      assert whole[..k + 1] == [c] + digits[..k] && whole[k + 1] == digits[k];
      NumberPrepend(c, digits[..k], base);
      Regroup(Digit(c), Pow(base, k), base, Number(digits[..k], base));
    }
  }

  /** Sums and products may be cut to 32 bits at any time. */
  lemma CutSum(a: nat, b: nat)
    ensures (a % WORD + b % WORD) % WORD == (a + b) % WORD
  {
  }

  lemma CutProduct(a: nat, b: nat)
    ensures ((a % WORD) * b) % WORD == (a * b) % WORD
  {
    var q, r := a / WORD, a % WORD;
    assert a * b == r * b + WORD * (q * b);
    CutMultiple(r * b, q * b);
  }

  lemma CutMultiple(a: nat, k: nat)
    ensures (a + WORD * k) % WORD == a % WORD
  {
  }

  lemma CutStep(n: nat, p: nat, d: nat)
    ensures (n % WORD + ((p % WORD) * d) % WORD) % WORD == (d * p + n) % WORD
  {
    CutProduct(p, d);
    CutSum(n, p * d);
  }

  /** One step of the scan: one more digit in front. */
  lemma ScanStep(c: char, tail: string, base: nat, sum: nat, mult: nat)
    requires sum == Number(tail, base) % WORD && mult == Pow(base, |tail|) % WORD
    ensures (sum + (mult * Digit(c)) % WORD) % WORD == Number([c] + tail, base) % WORD
    ensures (mult * base) % WORD == Pow(base, |tail| + 1) % WORD
  {
    NumberPrepend(c, tail, base);
    CutStep(Number(tail, base), Pow(base, |tail|), Digit(c));
    CutProduct(Pow(base, |tail|), base);
  }

  /** The scan has read all digits, or meets a character that is none. */
  lemma ScanSpan(s: string, q: nat, first: nat, semi: nat, base: nat)
    requires first <= q < semi <= |s|
    ensures s[q..semi] == [s[q]] + s[q + 1..semi]
    ensures AllDigits(s[q..semi], base) <==> IsDigit(s[q], base) && AllDigits(s[q + 1..semi], base)
    ensures AllDigits(s[first..semi], base) ==> IsDigit(s[q], base)
  {
    var t, u := s[q..semi], s[q + 1..semi];
    assert t == [s[q]] + u;
    assert forall i :: 0 < i < |t| ==> t[i] == u[i - 1];
    assert forall i :: 0 <= i < |u| ==> u[i] == t[i + 1];
    assert s[first..semi][q - first] == s[q];
  }

  /** The scan before its first digit: the text from the semicolon on is empty. */
  lemma ScanStart(s: string, semi: nat, base: nat)
    requires semi <= |s|
    ensures s[semi..semi] == "" && AllDigits("", base) && Number("", base) == 0 && Pow(base, 0) == 1
  {
  }

  lemma AfterLastStep(s: string, q: nat, mark: nat)
    requires mark <= q < |s|
    ensures AfterLast(s, q + 1, s[mark], mark) == if s[q] == s[mark] then q + 1 else AfterLast(s, q, s[mark], mark)
  {
  }

  /** The digits from the end back to the mark, each times a multiplier that wraps around at 32 bits. */
  method ScanDigits(s: string, mark: nat, semi: nat, base: nat) returns (ucs: Option<nat>)
    requires mark < semi < |s|
    ensures var digits := s[AfterLast(s, semi, s[mark], mark)..semi];
            ucs == if AllDigits(digits, base) then Some(Number(digits, base) % WORD) else None
  {
    hide AllDigits, IsDigit, AfterLast, Number, Pow, Digit;
    ghost var first := AfterLast(s, semi, s[mark], mark);
    var sum, mult := 0, 1;
    var q := semi - 1;
    ScanStart(s, semi, base);
    while s[q] != s[mark]
      invariant mark <= q < semi && first <= q + 1
      invariant first == AfterLast(s, q + 1, s[mark], mark)
      invariant AllDigits(s[q + 1..semi], base)
      invariant sum == Number(s[q + 1..semi], base) % WORD
      invariant mult == Pow(base, semi - 1 - q) % WORD
      decreases q
    {
      AfterLastStep(s, q, mark);
      ScanSpan(s, q, first, semi, base);
      if !IsDigit(s[q], base) {
        return None;
      }
      ScanStep(s[q], s[q + 1..semi], base, sum, mult);
      sum := (sum + (mult * Digit(s[q])) % WORD) % WORD;
      mult := (mult * base) % WORD;
      q := q - 1;
    }
    AfterLastStep(s, q, mark);
    ucs := Some(sum);
  }

  /** strchr, and a reference's value: null when it has no semicolon or a wrong digit. */
  method ScanReference(s: string, p: nat, mark: nat, base: nat) returns (r: Option<(nat, nat)>)
    requires p < mark < |s|
    ensures r == Reference(s, p, mark, base)
  {
    var q := mark + 1;
    while q < |s| && s[q] != ';'
      invariant mark < q <= |s| && Find(s, mark + 1, ';') == Find(s, q, ';')
    {
      q := q + 1;
    }
    if q == |s| {
      return None;
    }
    var ucs := ScanDigits(s, mark, q, base);
    r := if ucs.None? then None else Some((ucs.value, q + 1));
  }

  method GetEntity(s: string, p: nat, enc: Encoding) returns (value: string, next: Option<nat>)
    requires p < |s|
    ensures (value, next) == EntityAt(s, p, enc)
  {
    if p + 2 < |s| && s[p + 1] == '#' {
      var ref;
      if s[p + 2] == 'x' {
        ref := ScanReference(s, p, p + 2, 16);
      } else {
        ref := ScanReference(s, p, p + 1, 10);
      }
      if ref.None? {
        return "", None;
      }
      return ReferenceBytes(ref.value.0, enc), Some(ref.value.1);
    }
    var i := 0;
    while i < |ENTITIES|
      invariant 0 <= i <= |ENTITIES| && Named(s, p, 0) == Named(s, p, i)
    {
      var found := StringEqual(s, p, ENTITIES[i].0, false);
      if found {
        return [ENTITIES[i].1], Some(p + |ENTITIES[i].0|);
      }
      i := i + 1;
    }
    value, next := "", Some(p + 1);
  }

  method GetChar(s: string, p: nat) returns (value: string, next: Option<nat>)
    requires p < |s|
    ensures (value, next) == CharAt(s, p)
  {
    if s[p] == '&' {
      value, next := GetEntity(s, p, Legacy);
    } else {
      value, next := [s[p]], Some(p + 1);
    }
  }

  method ReadRawText(s: string, start: nat, endTag: string) returns (text: string, stop: Option<nat>)
    requires start <= |s|
    ensures (text, stop) == RawText(s, start, endTag)
  {
    text := "";
    var p := start;
    ghost var whole := RawText(s, start, endTag);
    assert "" + whole.0 == whole.0;
    while p < |s|
      invariant start <= p <= |s|
      invariant whole == (text + RawText(s, p, endTag).0, RawText(s, p, endTag).1)
    {
      var atEnd := StringEqual(s, p, endTag, false);
      if atEnd {
        break;
      }
      var c, q := GetChar(s, p);
      if q.None? {
        return text + c, None;
      }
      ghost var rest := RawText(s, q.value, endTag);
      assert RawText(s, p, endTag) == (c + rest.0, rest.1);
      assert text + (c + rest.0) == (text + c) + rest.0;
      text, p := text + c, q.value;
    }
    assert text + "" == text;
    stop := Some(p);
  }

  method ReadCondensedText(s: string, start: nat, endTag: string) returns (text: string, stop: Option<nat>)
    requires start <= |s|
    ensures (text, stop) == CondensedText(s, start, endTag, false)
  {
    text := "";
    var p, whitespace := start, false;
    while p < |s|
      invariant start <= p <= |s|
      invariant text + CondensedText(s, p, endTag, whitespace).0 == CondensedText(s, start, endTag, false).0
      invariant CondensedText(s, p, endTag, whitespace).1 == CondensedText(s, start, endTag, false).1
    {
      var atEnd := StringEqual(s, p, endTag, false);
      if atEnd {
        break;
      }
      if IsWhiteSpace(s[p]) {
        whitespace, p := true, p + 1;
      } else {
        var pre := if whitespace then " " else "";
        var c, q := GetChar(s, p);
        if q.None? {
          return text + (pre + c), None;
        }
        ghost var rest := CondensedText(s, q.value, endTag, false).0;
        assert text + ((pre + c) + rest) == (text + (pre + c)) + rest;
        text, whitespace, p := text + (pre + c), false, q.value;
      }
    }
    assert text + "" == text;
    stop := Some(p);
  }

  method ReadText(s: string, p: Option<nat>, trimWhiteSpace: bool, endTag: string)
    returns (text: string, next: Option<nat>)
    requires p.Some? ==> p.value <= |s|
    requires endTag != ""
    ensures (text, next) == TextAt(s, p, trimWhiteSpace, endTag)
  {
    var start := p;
    if trimWhiteSpace {
      start := SkipWhiteSpace(s, p);
    }
    if start.None? {
      return "", None;
    }
    var stop;
    if trimWhiteSpace {
      text, stop := ReadCondensedText(s, start.value, endTag);
    } else {
      text, stop := ReadRawText(s, start.value, endTag);
    }
    next := AfterTag(s, stop, endTag);
  }
}
