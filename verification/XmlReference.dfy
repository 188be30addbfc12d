/** Character references, section 4.1 of XML 1.0, are decoded to the bytes of section 3 of RFC 3629. */
module XmlReference {
  import opened Wrappers
  import opened XmlText
  import opened XmlReadBack
  import Utf8

  /** A character reference: "&#x" or "&#", digits of its base and a semicolon. */
  function Spelled(digits: string, base: nat): string {
    (if base == 16 then "&#x" else "&#") + (digits + ";")
  }

  lemma {:induction false} FindAfterDigits(s: string, p: nat, q: nat)
    requires p <= q < |s| && s[q] == ';' && forall i :: p <= i < q ==> s[i] != ';'
    ensures Find(s, p, ';') == Some(q)
    decreases q - p
  {
    if p < q {
      FindAfterDigits(s, p + 1, q);
    }
  }

  lemma {:induction false} DigitsAfterMark(s: string, q: nat, mark: nat)
    requires mark < q <= |s| && forall i :: mark < i < q ==> s[i] != s[mark]
    ensures AfterLast(s, q, s[mark], mark) == mark + 1
    decreases q
  {
    if mark + 1 < q {
      DigitsAfterMark(s, q - 1, mark);
    }
  }

  lemma AtSlice(s: string, p: nat, tag: string)
    requires At(s, p, tag)
    ensures s[p..p + |tag|] == tag
  {
  }

  /** The digits are read as their number, cut to 32 bits. */
  lemma DigitsSpan(s: string, mark: nat, digits: string, base: nat)
    requires mark < |s| && (s[mark] == 'x' || s[mark] == '#')
    requires At(s, mark + 1, digits + ";") && AllDigits(digits, base)
    ensures var q := mark + 1 + |digits|;
            && q < |s| && s[q] == ';' && s[mark + 1..q] == digits
            && forall i :: mark < i < q ==> s[i] != ';' && s[i] != s[mark]
  {
    hide At;
    var q := mark + 1 + |digits|;
    AtConcat(s, mark + 1, digits, ";");
    AtElements(s, mark + 1, digits);
    AtElements(s, q, ";");
    assert s[q + 0] == ";"[0];
    AtSlice(s, mark + 1, digits);
    forall i | mark < i < q ensures s[i] != ';' && s[i] != s[mark] {
      assert s[mark + 1 + (i - mark - 1)] == digits[i - mark - 1];
    }
  }

  lemma ReferenceIsNumber(s: string, p: nat, mark: nat, digits: string, base: nat)
    requires p < mark < |s| && (s[mark] == 'x' || s[mark] == '#')
    requires At(s, mark + 1, digits + ";") && AllDigits(digits, base)
    ensures Reference(s, p, mark, base) == Some((Number(digits, base) % WORD, mark + |digits| + 2))
  {
    hide Number, At, AllDigits, Find, AfterLast;
    var q := mark + 1 + |digits|;
    DigitsSpan(s, mark, digits, base);
    FindAfterDigits(s, mark + 1, q);
    DigitsAfterMark(s, q, mark);
  }

  /** GetEntity on a reference, with the number it spells. */
  lemma EntityIsNumber(s: string, p: nat, digits: string, base: nat, enc: Encoding)
    requires base == 10 || base == 16
    requires digits != "" && AllDigits(digits, base) && At(s, p, Spelled(digits, base))
    ensures EntityAt(s, p, enc)
         == (ReferenceBytes(Number(digits, base) % 0x1_0000_0000, enc), Some(p + |Spelled(digits, base)|))
  {
    hide Number, ReferenceBytes, Reference, At;
    var mark := if base == 16 then p + 2 else p + 1;
    var start := if base == 16 then "&#x" else "&#";
    AtConcat(s, p, start, digits + ";");
    AtElements(s, p, start);
    assert s[p + 1] == start[1] && s[mark] == start[mark - p];
    AtElements(s, mark + 1, digits + ";");
    assert s[mark + 1 + 0] == (digits + ";")[0] == digits[0];
    assert IsDigit(digits[0], base);
    ReferenceIsNumber(s, p, mark, digits, base);
  }

  /** A byte of UTF-8 as a char of the document. */
  function Chars(b: seq<Utf8.Byte>): string {
    seq(|b|, i requires 0 <= i < |b| => (b[i] as int) as char)
  }

  /**
   However many leading zeros it has, a reference to a Unicode scalar value is decoded, in UTF-8 mode, to
   the bytes of that character, and nothing after its semicolon is read. The multiplier of the scan does
   wrap around, but not before every significant digit has been added.
   */
  lemma DecodesReference(s: string, p: nat, digits: string, base: nat, c: bv32)
    requires base == 10 || base == 16
    requires digits != "" && AllDigits(digits, base) && At(s, p, Spelled(digits, base))
    requires Number(digits, base) == c as int && Utf8.IsScalar(c)
    ensures EntityAt(s, p, Utf8Bytes) == (Chars(Utf8.Rfc3629(c)), Some(p + |Spelled(digits, base)|))
    ensures Utf8.WellFormed(Utf8.Rfc3629(c))
  {
    hide Number, EntityAt, Spelled, At, AllDigits;
    hide Utf8.Rfc3629, Utf8.WellFormed, Utf8.Converted;
    EntityIsNumber(s, p, digits, base, Utf8Bytes);
    WordOf(c);
    Utf8.ConvertsByRfc3629(c);
    Utf8.WellFormedExactly(c);
  }

  lemma WordOf(c: bv32)
    ensures (c as int) < WORD && (c as int) as bv32 == c
  {
  }

  /** Leading zeros do not change the number. */
  lemma {:induction false} LeadingZeros(zeros: string, digits: string, base: nat)
    requires forall i :: 0 <= i < |zeros| ==> zeros[i] == '0'
    ensures Number(zeros + digits, base) == Number(digits, base)
  {
    if zeros == "" {
      assert zeros + digits == digits;
    } else {
      assert zeros + digits == [zeros[0]] + (zeros[1..] + digits);
      NumberPrepend(zeros[0], zeros[1..] + digits, base);
      LeadingZeros(zeros[1..], digits, base);
    }
  }

  // ----- What is no reference -----

  /** Without a semicolon there is no value, and reading stops. */
  lemma NoSemicolon(s: string, p: nat, enc: Encoding)
    requires At(s, p, "&#") && p + 2 < |s|
    requires forall i :: p + 2 < i < |s| ==> s[i] != ';'
    requires s[p + 2] != ';'
    ensures EntityAt(s, p, enc) == ("", None)
  {
    assert s[p..p + 2][1] == s[p + 1];
    hide At;
    FindsNone(s, p + 2);
    FindsNone(s, p + 3);
  }

  lemma FindsNone(s: string, p: nat)
    requires p <= |s| && forall i :: p <= i < |s| ==> s[i] != ';'
    ensures Find(s, p, ';') == None
  {
  }

  /** A character between the mark and the first semicolon that is no digit of the base: no value either. */
  lemma WrongDigit(s: string, p: nat, q: nat, i: nat, enc: Encoding)
    requires At(s, p, "&#") && p + 2 < |s|
    requires var mark := if s[p + 2] == 'x' then p + 2 else p + 1;
             && mark < i < q < |s| && s[q] == ';' && (forall k :: mark < k < q ==> s[k] != ';')
             && !IsDigit(s[i], if s[p + 2] == 'x' then 16 else 10) && (forall k :: i <= k < q ==> s[k] != s[mark])
    ensures EntityAt(s, p, enc) == ("", None)
  {
    assert s[p..p + 2][1] == s[p + 1];
    hide At, IsDigit, ReferenceBytes, Reference;
    var mark, base := if s[p + 2] == 'x' then p + 2 else p + 1, if s[p + 2] == 'x' then 16 else 10;
    NotANumber(s, p, mark, q, i, base);
  }

  lemma NotANumber(s: string, p: nat, mark: nat, q: nat, i: nat, base: nat)
    requires p < mark < i < q < |s| && s[q] == ';' && forall k :: mark < k < q ==> s[k] != ';'
    requires !IsDigit(s[i], base) && forall k :: i <= k < q ==> s[k] != s[mark]
    ensures Reference(s, p, mark, base) == None
  {
    hide IsDigit, AfterLast, Find, Number;
    FindAfterDigits(s, mark + 1, q);
    var d := AfterLast(s, q, s[mark], mark);
    assert s[d - 1] == s[mark];
    assert d <= i;
    assert s[d..q][i - d] == s[i];
  }

  /** Nor need there be any digit: the value is then zero. */
  lemma NoDigits(s: string, p: nat, hex: bool, enc: Encoding)
    requires At(s, p, if hex then "&#x;" else "&#;")
    ensures EntityAt(s, p, enc) == (ReferenceBytes(0, enc), Some(if hex then p + 4 else p + 3))
  {
    hide ReferenceBytes;
    var tag := if hex then "&#x;" else "&#;";
    AtElements(s, p, tag);
    assert s[p + 1] == tag[1] && s[p + 2] == tag[2] && (hex ==> s[p + 3] == tag[3]);
    var mark := if hex then p + 2 else p + 1;
    assert s[mark + 1..mark + 1] == "";
    assert Find(s, mark + 1, ';') == Some(mark + 1) && AfterLast(s, mark + 1, s[mark], mark) == mark + 1;
  }

  // ----- The predefined entities -----

  /** GetEntity on the five names of section 4.6 of XML 1.0, and on an ampersand that starts no entity. */
  lemma NamesRead(s: string, p: nat, enc: Encoding)
    requires p < |s| && s[p] == '&'
    ensures At(s, p, "&lt;") ==> EntityAt(s, p, enc) == ("<", Some(p + 4))
    ensures At(s, p, "&gt;") ==> EntityAt(s, p, enc) == (">", Some(p + 4))
    ensures At(s, p, "&amp;") ==> EntityAt(s, p, enc) == ("&", Some(p + 5))
    ensures At(s, p, "&quot;") ==> EntityAt(s, p, enc) == ("\"", Some(p + 6))
    ensures At(s, p, "&apos;") ==> EntityAt(s, p, enc) == ("'", Some(p + 6))
    ensures !At(s, p, "&lt;") && !At(s, p, "&gt;") && !At(s, p, "&amp;") && !At(s, p, "&quot;") && !At(s, p, "&apos;")
            && !(p + 2 < |s| && s[p + 1] == '#')
            ==> EntityAt(s, p, enc) == ("", Some(p + 1))
  {
    hide At;
    NameIs(s, p, "&amp;", 0, enc);
    NameIs(s, p, "&lt;", 1, enc);
    NameIs(s, p, "&gt;", 2, enc);
    NameIs(s, p, "&quot;", 3, enc);
    NameIs(s, p, "&apos;", 4, enc);
    NoName(s, p, enc);
  }

  /** A name in the table is found. */
  lemma NameIs(s: string, p: nat, name: string, k: nat, enc: Encoding)
    requires k < |ENTITIES| && ENTITIES[k].0 == name && p < |s|
    ensures At(s, p, name) ==> EntityAt(s, p, enc) == ([ENTITIES[k].1], Some(p + |name|))
  {
    if At(s, p, name) {
      hide At;
      EntityShape(k);
      AtElements(s, p, name);
      assert s[p + 0] == name[0] && s[p + 1] == name[1];
      ReadNamed(s, p, k);
      EntityAnyEncoding(s, p, enc);
    }
  }

  lemma EntityAnyEncoding(s: string, p: nat, enc: Encoding)
    requires p + 1 < |s| && s[p] == '&' && s[p + 1] != '#'
    ensures EntityAt(s, p, enc) == CharAt(s, p)
  {
    hide Named;
  }

  lemma NoName(s: string, p: nat, enc: Encoding)
    requires p < |s|
    ensures !At(s, p, "&lt;") && !At(s, p, "&gt;") && !At(s, p, "&amp;") && !At(s, p, "&quot;") && !At(s, p, "&apos;")
            && !(p + 2 < |s| && s[p + 1] == '#')
            ==> EntityAt(s, p, enc) == ("", Some(p + 1))
  {
    hide At;
    assert Named(s, p, 5) == ("", p + 1);
    assert !At(s, p, "&apos;") ==> Named(s, p, 4) == Named(s, p, 5);
    assert !At(s, p, "&quot;") ==> Named(s, p, 3) == Named(s, p, 4);
    assert !At(s, p, "&gt;") ==> Named(s, p, 2) == Named(s, p, 3);
    assert !At(s, p, "&lt;") ==> Named(s, p, 1) == Named(s, p, 2);
    assert !At(s, p, "&amp;") ==> Named(s, p, 0) == Named(s, p, 1);
  }

  // ----- How characters are written -----

  /** The upper-case digit of section 4.1's hexadecimal references. */
  function HexDigit(n: nat): char
    requires n < 16
  {
    if n < 10 then '0' + (n as char) else 'A' + ((n - 10) as char)
  }

  /**
   EncodeString writes the five characters by their names, a character below 32 by two hexadecimal digits, and any
   other as it is.
   */
  lemma Writes(v: string, i: nat)
    requires i < |v| && !At(v, i, "&#x")
    ensures Encoded(v, i)
         == (match v[i]
             case '<' => "&lt;" case '>' => "&gt;" case '&' => "&amp;" case '\"' => "&quot;" case '\'' => "&apos;"
             case c => if (c as int) < 32 then "&#x" + [HexDigit((c as int) / 16), HexDigit((c as int) % 16), ';'] else [c])
            + Encoded(v, i + 1)
  {
    NoReference(v, i);
    EncodedStep(v, i);
    hide Encoded, At;
    HexDigits();
  }

  lemma NoReference(v: string, i: nat)
    requires i < |v|
    ensures IsReference(v, i) <==> At(v, i, "&#x")
  {
    if i + 2 < |v| {
      var t := v[i..i + 3];
      assert t[0] == v[i] && t[1] == v[i + 1] && t[2] == v[i + 2];
    }
  }

  lemma HexDigits()
    ensures forall n: nat :: n < 16 ==> HEX[n] == HexDigit(n)
  {
  }

  /** What follows "&#x" is copied as it is up to the next semicolon, or up to the last character. */
  lemma Copies(v: string, i: nat, j: nat)
    requires i + 2 < j < |v| && At(v, i, "&#x") && ';' !in v[i..j] && (v[j] == ';' || j == |v| - 1)
    ensures Encoded(v, i) == v[i..j] + Encoded(v, j)
  {
    NoReference(v, i);
    EncodedReferenceText(v, i);
    hide Encoded, At;
    forall k | i <= k < j ensures v[k] != ';' {
      assert v[k] == v[i..j][k - i];
    }
    CopiesUpTo(v, i + 1, j);
  }

  lemma {:induction false} CopiesUpTo(v: string, i: nat, j: nat)
    requires i <= j < |v| && (forall k :: i <= k < j ==> v[k] != ';') && (v[j] == ';' || j == |v| - 1)
    ensures CopyEnd(v, i) == j
    decreases j - i
  {
    if i < j {
      CopiesUpTo(v, i + 1, j);
    }
  }

  // ----- Numbers -----

  /** n in a base, in upper-case or lower-case digits. */
  function Spell(n: nat, base: nat, upper: bool): string
    requires 2 <= base <= 16
  {
    var d := (if upper then "0123456789ABCDEF" else "0123456789abcdef")[n % base];
    if n < base then [d] else Spell(n / base, base, upper) + [d]
  }

  /** A number is read as it is spelled. */
  lemma {:induction false} NumberSpelled(n: nat, base: nat, upper: bool)
    requires base == 10 || base == 16
    ensures Number(Spell(n, base, upper), base) == n && AllDigits(Spell(n, base, upper), base) && Spell(n, base, upper) != ""
  {
    hide Number, Digit, IsDigit, Spell;
    DigitSpelled(n % base, base, upper);
    var d := (if upper then "0123456789ABCDEF" else "0123456789abcdef")[n % base];
    SpellParts(n, base, upper);
    if n < base {
      OneDigit(d, base);
    } else {
      var front := Spell(n / base, base, upper);
      NumberSpelled(n / base, base, upper);
      LastDigit(front, d, base);
      DivMod(n, base);
    }
  }

  lemma SpellParts(n: nat, base: nat, upper: bool)
    requires 2 <= base <= 16
    ensures var d := (if upper then "0123456789ABCDEF" else "0123456789abcdef")[n % base];
            Spell(n, base, upper) == if n < base then [d] else Spell(n / base, base, upper) + [d]
  {
  }

  lemma OneDigit(d: char, base: nat)
    ensures Number([d], base) == Digit(d)
  {
    assert Number([d], base) == Number("", base) * base + Digit(d);
  }

  lemma LastDigit(front: string, d: char, base: nat)
    ensures Number(front + [d], base) == Number(front, base) * base + Digit(d)
  {
    assert (front + [d])[..|front|] == front;
  }

  lemma DivMod(n: nat, base: nat)
    requires base > 0
    ensures (n / base) * base + n % base == n
  {
  }

  lemma DigitSpelled(k: nat, base: nat, upper: bool)
    requires (base == 10 || base == 16) && k < base
    ensures var d := (if upper then "0123456789ABCDEF" else "0123456789abcdef")[k]; Digit(d) == k && IsDigit(d, base)
  {
  }

  /** The digits are those of the base and no other characters. */
  lemma DigitsAre(c: char)
    ensures IsDigit(c, 10) <==> c in "0123456789"
    ensures IsDigit(c, 16) <==> c in "0123456789abcdefABCDEF"
  {
    if IsDigit(c, 10) {
      assert c == "0123456789"[(c as int) - 48];
    } else if 'a' <= c <= 'f' {
      assert c == "0123456789abcdefABCDEF"[(c as int) - 97 + 10];
    } else if 'A' <= c <= 'F' {
      assert c == "0123456789abcdefABCDEF"[(c as int) - 65 + 16];
    }
    assert IsDigit(c, 10) ==> c == "0123456789abcdefABCDEF"[(c as int) - 48];
  }
}
