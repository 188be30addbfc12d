/** Reading what EncodeString wrote gives the value back. */
module XmlReadBack {
  import opened Wrappers
  import opened XmlText

  // ----- One character -----

  lemma AtElements(s: string, p: nat, tag: string)
    requires At(s, p, tag)
    ensures p + |tag| <= |s|
    ensures forall i :: 0 <= i < |tag| ==> s[p + i] == tag[i]
  {
    forall i | 0 <= i < |tag| ensures s[p + i] == tag[i] {
      assert s[p..p + |tag|][i] == tag[i];
    }
  }

  /** One character that differs is enough for the tag not to be there. */
  lemma NotAt(s: string, p: nat, tag: string, k: nat)
    requires k < |tag| && (p + k < |s| ==> s[p + k] != tag[k])
    ensures !At(s, p, tag)
  {
    if p + |tag| <= |s| {
      assert s[p..p + |tag|][k] == s[p + k];
    }
  }

  lemma TwoHexDigits(c: char)
    requires (c as int) < 32
    ensures Number([HEX[(c as int) / 16], HEX[(c as int) % 16]], 16) == c as int
  {
    var hi, lo := HEX[(c as int) / 16], HEX[(c as int) % 16];
    assert [hi, lo][..1] == [hi] && [hi][..0] == "";
    assert Number([hi], 16) == Number("", 16) * 16 + Digit(hi);
    assert Number([hi, lo], 16) == Number([hi], 16) * 16 + Digit(lo);
  }

  lemma ReadTwoDigits(s: string, p: nat)
    requires p + 5 < |s| && s[p + 2] == 'x' && s[p + 5] == ';'
    requires IsDigit(s[p + 3], 16) && IsDigit(s[p + 4], 16)
    ensures Reference(s, p, p + 2, 16) == Some((Number([s[p + 3], s[p + 4]], 16) % WORD, p + 6))
  {
    assert Find(s, p + 5, ';') == Some(p + 5);
    assert Find(s, p + 4, ';') == Some(p + 5);
    assert Find(s, p + 3, ';') == Some(p + 5);
    assert AfterLast(s, p + 3, 'x', p + 2) == p + 3;
    assert AfterLast(s, p + 4, 'x', p + 2) == p + 3;
    assert AfterLast(s, p + 5, 'x', p + 2) == p + 3;
    assert s[p + 3..p + 5] == [s[p + 3], s[p + 4]];
  }

  lemma EscapeControl(c: char)
    requires (c as int) < 32
    ensures var e := Escape(c);
            && |e| == 6 && e[0] == '&' && e[1] == '#' && e[2] == 'x' && e[5] == ';'
            && IsDigit(e[3], 16) && IsDigit(e[4], 16) && Number([e[3], e[4]], 16) == c as int
  {
    hide Number;
    TwoHexDigits(c);
  }

  lemma ReadControl(s: string, p: nat, c: char)
    requires (c as int) < 32 && At(s, p, Escape(c))
    ensures CharAt(s, p) == ([c], Some(p + |Escape(c)|))
  {
    hide Escape, Number, At, Reference;
    EscapeControl(c);
    var e := Escape(c);
    AtElements(s, p, e);
    assert s[p + 0] == e[0] && s[p + 1] == e[1] && s[p + 2] == e[2];
    assert s[p + 3] == e[3] && s[p + 4] == e[4] && s[p + 5] == e[5];
    ReadTwoDigits(s, p);
  }

  /** The five names are told apart by their second and third characters. */
  lemma EntityShape(k: nat)
    requires k < |ENTITIES|
    ensures |ENTITIES[k].0| >= 4 && ENTITIES[k].0[0] == '&' && ENTITIES[k].0[1] != '#'
    ensures forall i :: 0 <= i < k ==>
              ENTITIES[i].0[1] != ENTITIES[k].0[1] || ENTITIES[i].0[2] != ENTITIES[k].0[2]
  {
    assert k == 0 || k == 1 || k == 2 || k == 3 || k == 4;
  }

  lemma ReadNamed(s: string, p: nat, k: nat)
    requires k < |ENTITIES| && At(s, p, ENTITIES[k].0)
    ensures CharAt(s, p) == ([ENTITIES[k].1], Some(p + |ENTITIES[k].0|))
  {
    EntityShape(k);
    AtElements(s, p, ENTITIES[k].0);
    assert s[p + 0] == ENTITIES[k].0[0] && s[p + 1] == ENTITIES[k].0[1] && s[p + 2] == ENTITIES[k].0[2];
    forall i | 0 <= i < k ensures !At(s, p, ENTITIES[i].0) {
      EntityShape(i);
      NotAt(s, p, ENTITIES[i].0, if ENTITIES[i].0[1] != ENTITIES[k].0[1] then 1 else 2);
    }
    NamedFinds(s, p, k, 0);
  }

  lemma NamedFinds(s: string, p: nat, k: nat, i: nat)
    requires i <= k < |ENTITIES| && p < |s| && At(s, p, ENTITIES[k].0)
    requires forall j :: i <= j < k ==> !At(s, p, ENTITIES[j].0)
    ensures Named(s, p, i) == ([ENTITIES[k].1], p + |ENTITIES[k].0|)
    decreases k - i
  {
  }

  /** GetChar reads back each character as EncodeString writes it. */
  lemma ReadEscape(s: string, p: nat, c: char)
    requires At(s, p, Escape(c))
    ensures CharAt(s, p) == ([c], Some(p + |Escape(c)|))
  {
    if c == '&' {
      ReadNamed(s, p, 0);
    } else if c == '<' {
      ReadNamed(s, p, 1);
    } else if c == '>' {
      ReadNamed(s, p, 2);
    } else if c == '\"' {
      ReadNamed(s, p, 3);
    } else if c == '\'' {
      ReadNamed(s, p, 4);
    } else if (c as int) < 32 {
      ReadControl(s, p, c);
    } else {
      assert s[p] == [c][0];
    }
  }

  /** No escape starts like an end tag or a white space other than the space itself. */
  lemma EscapeStart(c: char)
    ensures Escape(c)[0] !in {'<', '>', '\"', '\''}
    ensures IsWhiteSpace(Escape(c)[0]) <==> c == ' '
    ensures c == ' ' ==> |Escape(c)| == 1
  {
  }

  // ----- Kept white space: attribute values -----

  predicate IsQuote(end: string) {
    end == "\"" || end == "'"
  }

  /** One step of RawText. */
  lemma RawTextStep(s: string, p: nat, end: string)
    requires p < |s| && IsQuote(end) && s[p] != end[0]
    ensures var (c, q) := CharAt(s, p);
            RawText(s, p, end) == if q.None? then (c, None)
                                  else (c + RawText(s, q.value, end).0, RawText(s, q.value, end).1)
  {
    hide CharAt;
    NotAt(s, p, end, 0);
  }

  /** One step of RawText over a written character. */
  lemma ReadRawEscape(s: string, p: nat, c: char, end: string)
    requires IsQuote(end) && At(s, p, Escape(c))
    ensures var rest := RawText(s, p + |Escape(c)|, end);
            RawText(s, p, end) == ([c] + rest.0, rest.1)
  {
    hide Escape, CharAt, RawText, At;
    ReadEscape(s, p, c);
    EscapeStart(c);
    AtElements(s, p, Escape(c));
    assert s[p + 0] == Escape(c)[0] != end[0];
    RawTextStep(s, p, end);
  }

  /** A written string starts with its first character's escape. */
  lemma AtEncoded(s: string, p: nat, v: string, i: nat, end: string)
    requires i < |v| && !IsReference(v, i) && At(s, p, Encoded(v, i) + end)
    ensures At(s, p, Escape(v[i])) && At(s, p + |Escape(v[i])|, Encoded(v, i + 1) + end)
    ensures |Encoded(v, i)| == |Escape(v[i])| + |Encoded(v, i + 1)|
  {
    hide At, Escape;
    hide Encoded;
    EncodedStep(v, i);
    var e, rest := Escape(v[i]), Encoded(v, i + 1);
    assert (e + rest) + end == e + (rest + end);
    AtConcat(s, p, e, rest + end);
  }

  /** Nothing is read at the end tag. */
  lemma ReadStops(s: string, p: nat, v: string, end: string)
    requires At(s, p, Encoded(v, |v|) + end)
    ensures p <= |s| && RawText(s, p, end) == ("", Some(p)) && Encoded(v, |v|) == ""
  {
    assert Encoded(v, |v|) + end == end;
  }

  lemma {:induction false} ReadRawBack(s: string, p: nat, v: string, i: nat, end: string)
    requires i <= |v| && Clean(v) && IsQuote(end)
    requires At(s, p, Encoded(v, i) + end)
    ensures RawText(s, p, end) == (v[i..], Some(p + |Encoded(v, i)|))
    decreases |v| - i
  {
    hide Escape, At, RawText, Encoded;
    if i == |v| {
      ReadStops(s, p, v, end);
    } else {
      AtEncoded(s, p, v, i, end);
      ReadRawEscape(s, p, v[i], end);
      ReadRawBack(s, p + |Escape(v[i])|, v, i + 1, end);
      assert v[i..] == [v[i]] + v[i + 1..];
    }
  }

  // ----- A reference that is passed through -----

  lemma CopyEndIsFirst(v: string, i: nat)
    requires i < |v|
    ensures ';' !in v[i..CopyEnd(v, i)]
    ensures v[CopyEnd(v, i)] == ';' || CopyEnd(v, i) == |v| - 1
    decreases |v| - i
  {
    if v[i] != ';' && i < |v| - 1 {
      CopyEndIsFirst(v, i + 1);
      assert v[i..CopyEnd(v, i)] == [v[i]] + v[i + 1..CopyEnd(v, i)];
    }
  }

  /** The reference at i as it is written, up to the character after the copied text. */
  function PassedThrough(v: string, i: nat): string
    requires IsReference(v, i)
  {
    var j := CopyEnd(v, i + 1);
    v[i..j] + Escape(v[j])
  }

  lemma EscapeSemicolon(c: char)
    ensures forall k :: 0 <= k < |Escape(c)| - 1 ==> Escape(c)[k] != ';'
    ensures c == ';' ==> Escape(c) == ";"
  {
  }

  lemma PassedThroughText(v: string, i: nat)
    requires IsReference(v, i)
    ensures var j := CopyEnd(v, i + 1);
            && i + 2 <= j < |v| && (v[j] == ';' || j == |v| - 1)
            && forall k :: i <= k < j ==> v[k] != ';'
  {
    CopyEndIsFirst(v, i + 1);
    assert CopyEnd(v, i + 1) == CopyEnd(v, i + 2);
    var w, j := v[i + 1..CopyEnd(v, i + 1)], CopyEnd(v, i + 1);
    forall k | i <= k < j ensures v[k] != ';' {
      if i < k {
        assert w[k - i - 1] == v[k];
      }
    }
  }

  lemma PassedThroughShape(v: string, i: nat)
    requires IsReference(v, i)
    ensures var t, j := PassedThrough(v, i), CopyEnd(v, i + 1);
            && i + 2 <= j < |v| && |t| >= 3 && t[0] == '&' && t[1] == '#' && t[2] == 'x'
            && (forall k :: 0 <= k < |t| - 1 ==> t[k] != ';')
            && (t[|t| - 1] == ';' || j == |v| - 1)
  {
    hide CopyEnd;
    PassedThroughText(v, i);
    var j := CopyEnd(v, i + 1);
    var e := Escape(v[j]);
    EscapeSemicolon(v[j]);
    assert j == i + 2 ==> e == "x";
    hide Escape;
  }

  lemma EncodedReference(v: string, i: nat, end: string)
    requires IsReference(v, i)
    ensures var t, j := PassedThrough(v, i), CopyEnd(v, i + 1);
            && |Encoded(v, i)| == |t| + |Encoded(v, j + 1)|
            && Encoded(v, i) + end == t + (Encoded(v, j + 1) + end)
  {
    hide Escape;
    var j := CopyEnd(v, i + 1);
    PassedThroughText(v, i);
    assert !IsReference(v, j);
    assert Encoded(v, i) == v[i..j] + Encoded(v, j);
    EncodedStep(v, j);
    hide Encoded, CopyEnd;
    var e, rest := Escape(v[j]), Encoded(v, j + 1);
    assert (v[i..j] + (e + rest)) + end == (v[i..j] + e) + (rest + end);
  }

  /** A hexadecimal reference, if it can be read, is one character and ends at its first semicolon. */
  lemma ReferenceIsOneChar(s: string, p: nat)
    requires p + 2 < |s| && s[p] == '&' && s[p + 1] == '#' && s[p + 2] == 'x'
    ensures var (c, q) := CharAt(s, p);
            q.Some? ==> |c| == 1 && Find(s, p + 3, ';').Some? && q.value == Find(s, p + 3, ';').value + 1
  {
    hide Find, AfterLast, AllDigits, Number;
  }

  lemma {:induction false} FindFirst(s: string, p: nat, k: nat)
    requires p <= k < |s| && s[k] == ';'
    ensures Find(s, p, ';').Some? && Find(s, p, ';').value <= k
    decreases k - p
  {
    if s[p] != ';' {
      FindFirst(s, p + 1, k);
    }
  }

  lemma FindPastText(s: string, p: nat, t: string)
    requires |t| >= 3 && At(s, p, t) && t[2] == 'x' && forall k :: 0 <= k < |t| - 1 ==> t[k] != ';'
    ensures var f := Find(s, p + 3, ';');
            f.Some? ==> f.value >= p + |t| - 1 && (t[|t| - 1] == ';' ==> f.value == p + |t| - 1)
  {
    hide At;
    AtElements(s, p, t);
    var last := p + (|t| - 1);
    assert s[last] == t[|t| - 1];
    forall k | p <= k < last ensures s[k] != ';' {
      assert s[p + (k - p)] == t[k - p];
    }
    if t[|t| - 1] == ';' {
      FindFirst(s, p + 3, last);
    }
  }

  /** Read as a reference, the passed-through text is taken whole or the reader goes beyond the value. */
  lemma StartsReference(s: string, p: nat, t: string)
    requires At(s, p, t) && |t| >= 3 && t[0] == '&' && t[1] == '#' && t[2] == 'x'
    ensures p + 2 < |s| && s[p] == '&' && s[p + 1] == '#' && s[p + 2] == 'x'
  {
    hide At;
    AtElements(s, p, t);
    assert s[p + 0] == t[0] && s[p + 1] == t[1] && s[p + 2] == t[2];
  }

  lemma ReadPassedThrough(s: string, p: nat, v: string, i: nat)
    requires IsReference(v, i) && At(s, p, PassedThrough(v, i))
    ensures var (c, q) := CharAt(s, p);
            && p < |s| && s[p] == '&'
            && (q.Some? ==>
                  && |c| == 1
                  && (q.value == p + |PassedThrough(v, i)|
                      || q.value > p + |PassedThrough(v, i)| + |Encoded(v, CopyEnd(v, i + 1) + 1)|))
  {
    hide PassedThrough, CopyEnd, Escape, At, CharAt, Find, Encoded;
    var t, j := PassedThrough(v, i), CopyEnd(v, i + 1);
    PassedThroughShape(v, i);
    StartsReference(s, p, t);
    FindPastText(s, p, t);
    ReferenceIsOneChar(s, p);
    if j == |v| - 1 {
      EncodedEnd(v);
    }
  }

  lemma EncodedEnd(v: string)
    ensures Encoded(v, |v|) == ""
  {
  }

  /** However a value is read back, it does not grow; over a reference it shrinks. */
  ghost predicate Bounded(s: string, p: nat, v: string, i: nat, end: string)
    requires i <= |v| && p <= |s|
  {
    var (t, stop) := RawText(s, p, end);
    stop == Some(p + |Encoded(v, i)|) ==>
      |t| <= |v| - i && ((exists k :: i <= k < |v| && IsReference(v, k)) ==> |t| < |v| - i)
  }

  lemma BoundReference(s: string, p: nat, v: string, i: nat, end: string)
    requires IsReference(v, i) && IsQuote(end) && At(s, p, Encoded(v, i) + end)
    requires var t, j := PassedThrough(v, i), CopyEnd(v, i + 1);
             At(s, p + |t|, Encoded(v, j + 1) + end) ==> Bounded(s, p + |t|, v, j + 1, end)
    ensures Bounded(s, p, v, i, end)
  {
    hide Escape, Encoded, PassedThrough, CopyEnd, At, CharAt, RawText;
    var t, j := PassedThrough(v, i), CopyEnd(v, i + 1);
    EncodedReference(v, i, end);
    PassedThroughText(v, i);
    AtConcat(s, p, t, Encoded(v, j + 1) + end);
    ReadPassedThrough(s, p, v, i);
    RawTextStep(s, p, end);
    var (c, q) := CharAt(s, p);
    var (text, stop) := RawText(s, p, end);
    if stop == Some(p + |Encoded(v, i)|) {
      assert stop.value >= q.value;
      assert q.value == p + |t|;
      assert |text| == 1 + |RawText(s, q.value, end).0|;
    }
  }

  lemma BoundEscape(s: string, p: nat, v: string, i: nat, end: string)
    requires i < |v| && !IsReference(v, i) && IsQuote(end) && At(s, p, Encoded(v, i) + end)
    requires var e := Escape(v[i]);
             At(s, p + |e|, Encoded(v, i + 1) + end) ==> Bounded(s, p + |e|, v, i + 1, end)
    ensures Bounded(s, p, v, i, end)
  {
    hide Escape, Encoded, At, RawText;
    AtEncoded(s, p, v, i, end);
    ReadRawEscape(s, p, v[i], end);
  }

  lemma {:induction false} ReadRawBound(s: string, p: nat, v: string, i: nat, end: string)
    requires i <= |v| && IsQuote(end)
    requires At(s, p, Encoded(v, i) + end)
    ensures Bounded(s, p, v, i, end)
    decreases |v| - i
  {
    hide Escape, Encoded, RawText;
    if i == |v| {
      ReadStops(s, p, v, end);
    } else {
      hide Bounded;
      if IsReference(v, i) {
        var t, j := PassedThrough(v, i), CopyEnd(v, i + 1);
        if At(s, p + |t|, Encoded(v, j + 1) + end) {
          ReadRawBound(s, p + |t|, v, j + 1, end);
        }
        BoundReference(s, p, v, i, end);
      } else {
        var e := Escape(v[i]);
        if At(s, p + |e|, Encoded(v, i + 1) + end) {
          ReadRawBound(s, p + |e|, v, i + 1, end);
        }
        BoundEscape(s, p, v, i, end);
      }
    }
  }

  /**
   An attribute value is read back exactly when no "&#x" is in it: EncodeString passes such text
   through, and the reader takes it for the character it refers to.
   */
  lemma ReadBackExactly(s: string, p: nat, v: string, end: string)
    requires IsQuote(end) && At(s, p, Encoded(v, 0) + end)
    ensures RawText(s, p, end) == (v, Some(p + |Encoded(v, 0)|)) <==> Clean(v)
  {
    hide Escape, RawText, Encoded, At;
    if Clean(v) {
      ReadRawBack(s, p, v, 0, end);
    } else {
      ReadRawBound(s, p, v, 0, end);
      var k :| 0 <= k < |v| && IsReference(v, k);
    }
  }

  // ----- Condensed white space: text -----

  /** v without the spaces at its ends and with each inner run of spaces become one; `gap` after spaces. */
  function Condense(v: string, gap: bool): string {
    if v == "" then ""
    else if v[0] == ' ' then Condense(v[1..], true)
    else (if gap then " " else "") + [v[0]] + Condense(v[1..], false)
  }

  function DropSpaces(v: string): string {
    if v != "" && v[0] == ' ' then DropSpaces(v[1..]) else v
  }

  /** What is left of a text after printing and parsing. */
  function Condensed(v: string): string {
    Condense(DropSpaces(v), false)
  }

  /** No space at an end, and none doubled. */
  predicate Tidy(v: string) {
    && (v != "" ==> v[0] != ' ' && v[|v| - 1] != ' ')
    && forall i :: 0 <= i < |v| - 1 ==> v[i] != ' ' || v[i + 1] != ' '
  }

  function Letters(v: string): string {
    if v == "" then "" else (if v[0] == ' ' then "" else [v[0]]) + Letters(v[1..])
  }

  /** After spaces or not, what comes of a text: a space if there is a gap before a character, then tidy text. */
  predicate Tidied(v: string, r: string, gap: bool) {
    r == "" || (if gap || (v != "" && v[0] == ' ') then |r| > 1 && r[0] == ' ' && r[1] != ' ' && Tidy(r[1..]) else Tidy(r))
  }

  lemma {:induction false} CondenseTidies(v: string, gap: bool)
    ensures Tidied(v, Condense(v, gap), gap)
    decreases v
  {
    hide *;
    if v == "" {
      NoneTidied(gap);
    } else {
      CondenseFirst(v, gap);
      CondenseTidies(v[1..], v[0] == ' ');
      TidiedStep(v, Condense(v[1..], v[0] == ' '), gap);
    }
  }

  lemma NoneTidied(gap: bool)
    ensures Tidied("", Condense("", gap), gap)
  {
  }

  lemma CondenseFirst(v: string, gap: bool)
    requires v != ""
    ensures var rest := Condense(v[1..], v[0] == ' ');
            Condense(v, gap) == if v[0] == ' ' then rest else (if gap then " " else "") + [v[0]] + rest
  {
  }

  lemma TidiedStep(v: string, rest: string, gap: bool)
    requires v != "" && Tidied(v[1..], rest, v[0] == ' ')
    ensures Tidied(v, if v[0] == ' ' then rest else (if gap then " " else "") + [v[0]] + rest, gap)
  {
    if v[0] != ' ' {
      TidyCons(v[0], rest);
      hide Tidy;
      var r := [v[0]] + rest;
      assert (" " + [v[0]] + rest)[1..] == r;
      assert "" + [v[0]] + rest == r;
    }
  }

  lemma TidyCons(c: char, r: string)
    requires c != ' ' && (r == "" || Tidy(r) || (|r| > 1 && r[0] == ' ' && r[1] != ' ' && Tidy(r[1..])))
    ensures Tidy([c] + r)
  {
    var t := [c] + r;
    if r != "" && !Tidy(r) {
      assert t[|t| - 1] == r[1..][|r| - 2];
      forall i | 0 <= i < |t| - 1 ensures t[i] != ' ' || t[i + 1] != ' ' {
        if i >= 2 {
          assert t[i] == r[1..][i - 2] && t[i + 1] == r[1..][i - 1];
        }
      }
    }
  }

  lemma {:induction false} CondenseLetters(v: string, gap: bool)
    ensures Letters(Condense(v, gap)) == Letters(v)
    decreases v
  {
    hide *;
    if v == "" {
      NoLetters(gap);
    } else {
      CondenseFirst(v, gap);
      CondenseLetters(v[1..], v[0] == ' ');
      LettersFirst(v);
      var rest := Condense(v[1..], v[0] == ' ');
      LettersCons(v[0], rest);
      LettersCons(' ', [v[0]] + rest);
      LettersJoin(v[0], rest);
    }
  }

  lemma NoLetters(gap: bool)
    ensures Letters(Condense("", gap)) == Letters("")
  {
  }

  lemma LettersFirst(v: string)
    requires v != ""
    ensures Letters(v) == (if v[0] == ' ' then "" else [v[0]]) + Letters(v[1..])
  {
  }

  lemma LettersCons(c: char, r: string)
    ensures Letters([c] + r) == (if c == ' ' then "" else [c]) + Letters(r)
  {
    assert ([c] + r)[1..] == r;
  }

  lemma LettersJoin(c: char, r: string)
    ensures " " + [c] + r == [' '] + ([c] + r) && "" + [c] + r == [c] + r
    ensures "" + Letters(r) == Letters(r) && "" + Letters([c] + r) == Letters([c] + r)
  {
  }

  lemma {:induction false} CondenseKeeps(v: string, gap: bool)
    requires v != "" ==> v[|v| - 1] != ' '
    requires forall i :: 0 <= i < |v| - 1 ==> v[i] != ' ' || v[i + 1] != ' '
    requires gap ==> v != "" && v[0] != ' '
    ensures Condense(v, gap) == (if gap then " " else "") + v
  {
    if v != "" {
      assert v == [v[0]] + v[1..];
      CondenseKeeps(v[1..], v[0] == ' ');
    }
  }

  lemma {:induction false} DropsSpaces(v: string)
    ensures var r := DropSpaces(v); (r != "" ==> r[0] != ' ') && Letters(r) == Letters(v)
    ensures v != "" && v[0] != ' ' ==> DropSpaces(v) == v
  {
    if v != "" && v[0] == ' ' {
      DropsSpaces(v[1..]);
    }
  }

  /** What is left has no space at an end and none doubled, every other character in its order, and is the text itself exactly if it was so. */
  lemma CondensedExactly(v: string)
    ensures Tidy(Condensed(v)) && Letters(Condensed(v)) == Letters(v)
    ensures Condensed(v) == v <==> Tidy(v)
  {
    hide Condense, Letters, DropSpaces;
    DropsSpaces(v);
    CondenseTidies(DropSpaces(v), false);
    CondenseLetters(DropSpaces(v), false);
    NothingCondensed();
    if Tidy(v) {
      NothingDropped(v);
      CondenseKeeps(v, false);
    }
  }

  lemma NothingCondensed()
    ensures Condense("", false) == ""
  {
  }

  lemma NothingDropped(v: string)
    requires Tidy(v)
    ensures DropSpaces(v) == v
  {
  }

  predicate AllSpace(s: string, p: nat, q: nat) {
    p <= q <= |s| && forall k :: p <= k < q ==> IsWhiteSpace(s[k])
  }

  lemma {:induction false} CondensedStops(s: string, p: nat, q: nat, gap: bool)
    requires AllSpace(s, p, q) && q < |s| && s[q] == '<'
    ensures CondensedText(s, p, "<", gap) == ("", Some(q))
    decreases q - p
  {
    if p < q {
      assert s[p..p + 1][0] != '<';
      CondensedStops(s, p + 1, q, true);
    } else {
      assert s[p..p + 1] == "<";
    }
  }

  lemma CondensedTextStep(s: string, p: nat, gap: bool)
    requires p < |s| && s[p] != '<'
    ensures var (c, q) := CharAt(s, p);
            CondensedText(s, p, "<", gap)
            == if IsWhiteSpace(s[p]) then CondensedText(s, p + 1, "<", true)
               else if q.None? then ((if gap then " " else "") + c, None)
               else ((if gap then " " else "") + c + CondensedText(s, q.value, "<", false).0,
                     CondensedText(s, q.value, "<", false).1)
  {
    hide CharAt;
    assert s[p..p + 1][0] == s[p];
  }

  /** One step of CondensedText over a written character. */
  lemma ReadCondensedEscape(s: string, p: nat, c: char, gap: bool)
    requires At(s, p, Escape(c))
    ensures var rest := CondensedText(s, p + |Escape(c)|, "<", c == ' ');
            CondensedText(s, p, "<", gap)
            == if c == ' ' then rest else ((if gap then " " else "") + [c] + rest.0, rest.1)
  {
    hide Escape, CharAt, CondensedText, At;
    ReadEscape(s, p, c);
    EscapeStart(c);
    AtElements(s, p, Escape(c));
    assert s[p + 0] == Escape(c)[0];
    CondensedTextStep(s, p, gap);
  }

  /** Text that was written, then any white space, then the next tag, without leaving out the spaces it starts with. */
  lemma {:induction false} ReadCondensedBack(s: string, p: nat, v: string, i: nat, q: nat, gap: bool)
    requires i <= |v| && Clean(v) && At(s, p, Encoded(v, i))
    requires AllSpace(s, p + |Encoded(v, i)|, q) && q < |s| && s[q] == '<'
    ensures CondensedText(s, p, "<", gap) == (Condense(v[i..], gap), Some(q))
    decreases |v| - i
  {
    hide *;
    if i == |v| {
      CondensedEnd(s, p, v, q, gap);
    } else {
      CleanStep(v, i);
      AtConcat(s, p, Escape(v[i]), Encoded(v, i + 1));
      ReadCondensedBack(s, p + |Escape(v[i])|, v, i + 1, q, v[i] == ' ');
      ReadCondensedEscape(s, p, v[i], gap);
      CondenseStep(v, i, gap);
    }
  }

  lemma CondensedEnd(s: string, p: nat, v: string, q: nat, gap: bool)
    requires AllSpace(s, p + |Encoded(v, |v|)|, q) && q < |s| && s[q] == '<'
    ensures CondensedText(s, p, "<", gap) == (Condense(v[|v|..], gap), Some(q))
  {
    hide Encoded, CondensedText;
    EncodedEnd(v);
    CondensedStops(s, p, q, gap);
  }

  lemma CleanStep(v: string, i: nat)
    requires Clean(v) && i < |v|
    ensures Encoded(v, i) == Escape(v[i]) + Encoded(v, i + 1)
  {
    hide Encoded, Escape;
    EncodedStep(v, i);
  }

  lemma CondenseStep(v: string, i: nat, gap: bool)
    requires i < |v|
    ensures Condense(v[i..], gap)
         == if v[i] == ' ' then Condense(v[i + 1..], true)
            else (if gap then " " else "") + [v[i]] + Condense(v[i + 1..], false)
  {
    assert v[i..][0] == v[i] && v[i..][1..] == v[i + 1..];
  }

  lemma {:induction false} SkipAll(s: string, p: nat, q: nat)
    requires AllSpace(s, p, q) && q < |s| && !IsWhiteSpace(s[q])
    ensures SkipFrom(s, p) == q
    decreases q - p
  {
    if p < q {
      SkipAll(s, p + 1, q);
    }
  }

  /** A written text starts with white space exactly if it starts with a space, which is written as it is. */
  lemma WrittenStart(s: string, p: nat, v: string, i: nat)
    requires i < |v| && Clean(v) && At(s, p, Encoded(v, i))
    ensures p < |s| && s[p] != '<'
    ensures v[i] == ' ' ==> |Encoded(v, i)| == 1 + |Encoded(v, i + 1)| && At(s, p + 1, Encoded(v, i + 1))
    ensures SkipFrom(s, p) == if v[i] == ' ' then SkipFrom(s, p + 1) else p
  {
    hide Escape;
    hide Encoded;
    EncodedStep(v, i);
    EscapeStart(v[i]);
    AtConcat(s, p, Escape(v[i]), Encoded(v, i + 1));
    AtElements(s, p, Escape(v[i]));
    assert s[p + 0] == Escape(v[i])[0];
  }

  lemma OnlySpace(s: string, p: nat, v: string, q: nat)
    requires AllSpace(s, p + |Encoded(v, |v|)|, q) && q < |s| && s[q] == '<'
    ensures SkipFrom(s, p) == q && CondensedText(s, q, "<", false) == ("", Some(q)) && Condensed(v[|v|..]) == ""
  {
    SkipAll(s, p, q);
    CondensedStops(s, q, q, false);
  }

  /** After leading white space is skipped, the rest of a written text from i on. */
  lemma {:induction false} SkippedTextBack(s: string, p: nat, v: string, i: nat, q: nat)
    requires i <= |v| && Clean(v) && At(s, p, Encoded(v, i))
    requires AllSpace(s, p + |Encoded(v, i)|, q) && q < |s| && s[q] == '<'
    ensures SkipFrom(s, p) < |s| && CondensedText(s, SkipFrom(s, p), "<", false) == (Condensed(v[i..]), Some(q))
    decreases |v| - i
  {
    hide Encoded, At, AllSpace, CondensedText, Condense, Clean, SkipFrom;
    if i == |v| {
      OnlySpace(s, p, v, q);
    } else {
      WrittenStart(s, p, v, i);
      assert v[i..][1..] == v[i + 1..];
      if v[i] == ' ' {
        SkippedTextBack(s, p + 1, v, i + 1, q);
      } else {
        ReadCondensedBack(s, p, v, i, q, false);
      }
    }
  }

  /**
   Any text that was written, then white space and the next tag: ReadText gives it back without the spaces at
   its ends and with each inner run of spaces become one, and stops after the '<' of the tag.
   */
  lemma ReadTextBack(s: string, p: nat, v: string, q: nat)
    requires Clean(v) && At(s, p, Encoded(v, 0))
    requires AllSpace(s, p + |Encoded(v, 0)|, q) && q < |s| && s[q] == '<'
    ensures TextAt(s, Some(p), true, "<") == (Condensed(v), if q + 1 < |s| then Some(q + 1) else None)
  {
    hide Encoded, At, AllSpace, CondensedText, Condensed, Clean, SkipFrom;
    assert v[0..] == v;
    SkippedTextBack(s, p, v, 0, q);
    BeforeTag(s, p, v, q);
  }

  lemma BeforeTag(s: string, p: nat, v: string, q: nat)
    requires AllSpace(s, p + |Encoded(v, 0)|, q) && q < |s|
    ensures p < |s|
  {
  }
}
