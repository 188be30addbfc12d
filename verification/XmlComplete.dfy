/** The parser reads every document of the grammar as what it means, without an error. */
module XmlComplete {
  import opened Wrappers
  import opened XmlText
  import opened XmlReadBack
  import opened XmlReference
  import opened XmlParser
  import opened XmlGrammar

  // ----- White space -----

  lemma WhiteAt(s: string, p: nat, w: string)
    requires White(w) && At(s, p, w)
    ensures AllSpace(s, p, p + |w|)
  {
    AtElements(s, p, w);
    forall k | p <= k < p + |w| ensures IsWhiteSpace(s[k]) {
      assert s[p + (k - p)] == w[k - p];
    }
  }

  lemma {:induction false} SkipOver(s: string, p: nat, q: nat)
    requires AllSpace(s, p, q)
    ensures SkipFrom(s, p) == SkipFrom(s, q)
    decreases q - p
  {
    if p < q {
      SkipOver(s, p + 1, q);
    }
  }

  /** Over white space to something else. */
  lemma SkipTo(s: string, p: nat, w: string)
    requires White(w) && At(s, p, w)
    ensures p + |w| <= |s| && SkipFrom(s, p) == SkipFrom(s, p + |w|)
    ensures p + |w| < |s| && !IsWhiteSpace(s[p + |w|]) ==> SkipFrom(s, p) == p + |w|
  {
    WhiteAt(s, p, w);
    SkipOver(s, p, p + |w|);
  }

  /** The parts of a concatenation. */
  lemma Split(s: string, p: nat, a: string, b: string)
    requires At(s, p, a + b)
    ensures At(s, p, a) && At(s, p + |a|, b) && p + |a| + |b| <= |s|
    ensures b != "" ==> p + |a| < |s| && s[p + |a|] == b[0]
  {
    AtConcat(s, p, a, b);
    if b != "" {
      AtElements(s, p + |a|, b);
      assert s[p + |a| + 0] == b[0];
    }
  }

  // ----- Characters of text -----

  lemma PieceNotEmpty(x: Piece)
    ensures PieceText(x) != "" && (!x.Letter? ==> PieceText(x)[0] == '&')
  {
  }

  /** A character is read however it is written. */
  lemma PieceBack(s: string, p: nat, x: Piece)
    requires PieceOk(x) && At(s, p, PieceText(x))
    ensures p < |s| && s[p] == PieceText(x)[0] && p + |PieceText(x)| <= |s|
    ensures CharAt(s, p) == ([PieceValue(x)], Some(p + |PieceText(x)|))
  {
    hide At, EntityAt, Number;
    PieceNotEmpty(x);
    AtElements(s, p, PieceText(x));
    assert s[p + 0] == PieceText(x)[0];
    match x
    case Letter(_) =>
    case Entity(_) => NamesRead(s, p, Legacy);
    case Coded(hex, digits) =>
      EntityIsNumber(s, p, digits, if hex then 16 else 10, Legacy);
      ByteOf(Number(digits, if hex then 16 else 10));
  }

  lemma ByteOf(n: nat)
    ensures (n % WORD) % 256 == n % 256
  {
    assert WORD == 256 * 0x100_0000;
    var q, r := n / WORD, n % WORD;
    assert n == WORD * q + r == 256 * (0x100_0000 * q) + r;
    Multiples(0x100_0000 * q, r);
  }

  lemma Multiples(k: nat, r: nat)
    ensures (256 * k + r) % 256 == r % 256
  {
  }

  lemma PiecesStep(s: string, p: nat, ps: seq<Piece>, end: string)
    requires ps != [] && At(s, p, PiecesText(ps) + end)
    ensures At(s, p, PieceText(ps[0])) && At(s, p + |PieceText(ps[0])|, PiecesText(ps[1..]) + end)
    ensures PiecesText(ps) == PieceText(ps[0]) + PiecesText(ps[1..])
  {
    hide At, PieceText;
    Assoc(PieceText(ps[0]), PiecesText(ps[1..]), end);
    AtConcat(s, p, PieceText(ps[0]), PiecesText(ps[1..]) + end);
  }

  /** In quotes. */
  lemma {:induction false} KeptBack(s: string, p: nat, ps: seq<Piece>, quote: char)
    requires quote in {'\"', '\''} && forall i :: 0 <= i < |ps| ==> PieceOk(ps[i]) && ps[i] != Letter(quote)
    requires At(s, p, PiecesText(ps) + [quote])
    ensures RawText(s, p, [quote]) == (Kept(ps), Some(p + |PiecesText(ps)|))
    decreases |ps|
  {
    hide At, RawText, PieceText, PieceValue, CharAt, PieceOk;
    if ps == [] {
      QuoteEnds(s, p, quote);
    } else {
      PiecesStep(s, p, ps, [quote]);
      PieceBack(s, p, ps[0]);
      NotQuote(ps[0], quote);
      RawTextStep(s, p, [quote]);
      KeptBack(s, p + |PieceText(ps[0])|, ps[1..], quote);
    }
  }

  lemma QuoteEnds(s: string, p: nat, quote: char)
    requires At(s, p, PiecesText([]) + [quote])
    ensures RawText(s, p, [quote]) == ("", Some(p)) && PiecesText([]) == ""
  {
    assert "" + [quote] == [quote];
  }

  lemma NotQuote(x: Piece, quote: char)
    requires quote in {'\"', '\''} && x != Letter(quote)
    ensures PieceText(x) != "" && PieceText(x)[0] != quote
  {
  }

  /** As text, up to the next tag at q. */
  lemma {:induction false} CollapsedBack(s: string, p: nat, ps: seq<Piece>, gap: bool, q: nat)
    requires forall i :: 0 <= i < |ps| ==> PieceOk(ps[i]) && ps[i] != Letter('<')
    requires At(s, p, PiecesText(ps)) && AllSpace(s, p + |PiecesText(ps)|, q) && q < |s| && s[q] == '<'
    ensures CondensedText(s, p, "<", gap) == (Collapsed(ps, gap), Some(q))
    decreases |ps|
  {
    hide At, CondensedText, PieceText, PieceValue, CharAt, PieceOk, AllSpace;
    if ps == [] {
      NoPieces();
      SpaceThenTag(s, p, gap, q);
    } else {
      Append(PiecesText(ps));
      PiecesStep(s, p, ps, "");
      Append(PiecesText(ps[1..]));
      PieceBack(s, p, ps[0]);
      CollapsedBack(s, p + |PieceText(ps[0])|, ps[1..], IsSpace(ps[0]), q);
      CondensedStep(s, p, ps[0], gap);
    }
  }

  lemma NoPieces()
    ensures PiecesText([]) == ""
  {
  }

  lemma Append(a: string)
    ensures a + "" == a
  {
  }

  lemma CondensedStep(s: string, p: nat, x: Piece, gap: bool)
    requires p < |s| && s[p] == PieceText(x)[0] && x != Letter('<')
    requires CharAt(s, p) == ([PieceValue(x)], Some(p + |PieceText(x)|)) && p + |PieceText(x)| <= |s|
    ensures var rest := CondensedText(s, p + |PieceText(x)|, "<", IsSpace(x));
            CondensedText(s, p, "<", gap)
            == if IsSpace(x) then rest else ((if gap then " " else "") + [PieceValue(x)] + rest.0, rest.1)
  {
    hide CharAt;
    PieceNotEmpty(x);
    NotAt(s, p, "<", 0);
  }

  lemma {:induction false} SpaceThenTag(s: string, p: nat, gap: bool, q: nat)
    requires AllSpace(s, p, q) && q < |s| && s[q] == '<'
    ensures CondensedText(s, p, "<", gap) == ("", Some(q))
    decreases q - p
  {
    if p == q {
      TagAt(s, q);
    } else {
      NotAt(s, p, "<", 0);
      SpaceThenTag(s, p + 1, true, q);
    }
  }

  lemma TagAt(s: string, q: nat)
    requires q < |s| && s[q] == '<'
    ensures At(s, q, "<")
  {
  }

  // ----- Names -----

  lemma {:induction false} NameEndBack(s: string, p: nat, e: nat)
    requires p <= e <= |s| && (forall i :: p <= i < e ==> IsNameChar(s[i]))
    requires e < |s| ==> !IsNameChar(s[e])
    ensures NameEnd(s, p) == e
    decreases e - p
  {
    if p < e {
      NameEndBack(s, p + 1, e);
    }
  }

  lemma NameBack(s: string, p: nat, name: string)
    requires ValidName(name) && At(s, p, name) && p + |name| < |s| && !IsNameChar(s[p + |name|])
    ensures NameAt(s, Some(p)) == Some(p + |name|) && s[p..p + |name|] == name
    ensures IsNameStart(s[p]) && SkipFrom(s, p) == p
  {
    AtElements(s, p, name);
    assert s[p + 0] == name[0];
    forall i | p <= i < p + |name| ensures IsNameChar(s[i]) {
      assert s[p + (i - p)] == name[i - p];
    }
    NameEndBack(s, p, p + |name|);
  }

  // ----- Attributes -----

  lemma QuotedBack(s: string, p: nat, quote: char, ps: seq<Piece>, err: Option<Error>)
    requires ValueOk(Quoted(quote, ps)) && At(s, p, ValueText(Quoted(quote, ps)))
    requires p + |ValueText(Quoted(quote, ps))| < |s|
    ensures p < |s| && ValueAt(s, p, err) == Parsed(Kept(ps), Some(p + |ValueText(Quoted(quote, ps))|), err)
  {
    hide At, RawText, PiecesText, Kept;
    var v := PiecesText(ps);
    AtConcat(s, p, [quote], v + [quote]);
    AtElements(s, p, [quote]);
    assert s[p + 0] == [quote][0];
    KeptBack(s, p + 1, ps, quote);
  }

  lemma {:induction false} BareEndBack(s: string, p: nat, e: nat)
    requires p <= e < |s|
    requires forall i :: p <= i < e ==> !IsWhiteSpace(s[i]) && s[i] !in {'/', '>', '\'', '\"'}
    requires IsWhiteSpace(s[e]) || s[e] in {'/', '>'}
    ensures BareEnd(s, p) == e
    decreases e - p
  {
    if p < e {
      BareEndBack(s, p + 1, e);
    }
  }

  lemma BareBack(s: string, p: nat, text: string, err: Option<Error>)
    requires ValueOk(Bare(text)) && At(s, p, text) && p + |text| < |s|
    requires IsWhiteSpace(s[p + |text|]) || s[p + |text|] in {'/', '>'}
    ensures p < |s| && !IsWhiteSpace(s[p]) && ValueAt(s, p, err) == Parsed(text, Some(p + |text|), err)
  {
    AtElements(s, p, text);
    assert s[p + 0] == text[0];
    forall i | p <= i < p + |text| ensures s[i] == text[i - p] {
      assert s[p + (i - p)] == text[i - p];
    }
    BareEndBack(s, p, p + |text|);
    assert s[p..p + |text|] == text;
  }

  /** What may follow a value: anything after a quote, the end of a word otherwise. */
  predicate Follows(v: Value, c: char) {
    v.Quoted? || IsWhiteSpace(c) || c in {'/', '>'}
  }

  lemma ValueBack(s: string, p: nat, v: Value, err: Option<Error>)
    requires ValueOk(v) && At(s, p, ValueText(v)) && p + |ValueText(v)| < |s| && Follows(v, s[p + |ValueText(v)|])
    ensures p < |s| && !IsWhiteSpace(s[p])
    ensures ValueAt(s, p, err) == Parsed(ValueMeaning(v), Some(p + |ValueText(v)|), err)
  {
    hide At, ValueAt, PiecesText, Kept;
    match v
    case Quoted(quote, ps) =>
      QuotedBack(s, p, quote, ps, err);
      AtElements(s, p, ValueText(v));
      assert s[p + 0] == ValueText(v)[0] == quote;
    case Bare(text) => BareBack(s, p, text, err);
  }

  /** Where the parts of an attribute lie. */
  lemma AttributeParts(s: string, p: nat, a: Attribute)
    requires AttributeOk(a) && At(s, p, AttributeText(a))
    ensures var n := p + |a.gap|;
            var b := n + |a.name|;
            var eq := b + |a.before|;
            var v := eq + 1 + |a.after|;
            && At(s, p, a.gap) && At(s, n, a.name) && At(s, b, a.before) && At(s, eq + 1, a.after)
            && At(s, v, ValueText(a.value)) && eq < |s| && s[eq] == '='
            && b < |s| && !IsNameChar(s[b]) && v + |ValueText(a.value)| == p + |AttributeText(a)| <= |s|
  {
    hide *;
    AttributeWhite(a);
    AttributeShape(a);
    var n := p + |a.gap|;
    var b := n + |a.name|;
    var r3 := a.before + ("=" + (a.after + ValueText(a.value)));
    Split(s, p, a.gap, a.name + r3);
    Split(s, n, a.name, r3);
    EqualsParts(s, b, a.before, a.after, ValueText(a.value));
  }

  lemma EqualsParts(s: string, b: nat, before: string, after: string, v: string)
    requires White(before) && At(s, b, before + ("=" + (after + v)))
    ensures var eq := b + |before|;
            && At(s, b, before) && At(s, eq + 1, after) && At(s, eq + 1 + |after|, v)
            && b < |s| && !IsNameChar(s[b]) && eq < |s| && s[eq] == '=' && eq + 1 + |after| + |v| <= |s|
  {
    hide *;
    var eq := b + |before|;
    Split(s, b, before, "=" + (after + v));
    Split(s, eq, "=", after + v);
    Split(s, eq + 1, after, v);
    AfterName(before, "=" + (after + v));
  }

  lemma AttributeShape(a: Attribute)
    ensures AttributeText(a) == a.gap + (a.name + (a.before + ("=" + (a.after + ValueText(a.value)))))
  {
    hide ValueText;
  }

  lemma AttributeWhite(a: Attribute)
    requires AttributeOk(a)
    ensures White(a.gap) && White(a.before) && White(a.after)
  {
  }

  lemma AfterName(before: string, rest: string)
    requires White(before) && rest != "" && rest[0] == '='
    ensures !IsNameChar((before + rest)[0])
  {
    assert (before + rest)[0] == if before != "" then before[0] else '=';
  }

  /** Reading a name, an equals sign and a value, with white space between them. */
  lemma AttributeIs(s: string, n: nat, b: nat, eq: nat, v: nat, err: Option<Error>)
    requires n < b <= eq < v < |s| && SkipFrom(s, n) == n && NameAt(s, Some(n)) == Some(b)
    requires SkipFrom(s, b) == eq && s[eq] == '=' && SkipFrom(s, eq + 1) == v
    ensures var r := ValueAt(s, v, err); AttributeAt(s, Some(n), err) == Parsed(Attr(s[n..b], r.value), r.next, r.err)
  {
    hide ValueAt, NameAt;
  }

  /** An attribute is read whatever white space is in it and however its value is written. */
  lemma AttributeBack(s: string, p: nat, a: Attribute, err: Option<Error>)
    requires AttributeOk(a) && At(s, p, AttributeText(a))
    requires var q := p + |AttributeText(a)|; q < |s| && Follows(a.value, s[q])
    ensures var n := p + |a.gap|;
            n < |s| && IsNameStart(s[n]) && SkipFrom(s, p) == n
            && AttributeAt(s, Some(n), err) == Parsed(AttributeMeaning(a), Some(p + |AttributeText(a)|), err)
            && At(s, n, a.name)
  {
    hide At, ValueText, ValueMeaning, ValueAt, NameAt, AttributeText, AttributeAt, ValueOk, SkipFrom, ValidName, Follows, White;
    AttributeParts(s, p, a);
    var n := p + |a.gap|;
    var b := n + |a.name|;
    var eq := b + |a.before|;
    var v := eq + 1 + |a.after|;
    NameNotEmpty(a.name);
    NameBack(s, n, a.name);
    ValueBack(s, v, a.value, err);
    NotWhite(s[n]);
    NotWhite(s[eq]);
    SkipTo(s, p, a.gap);
    SkipTo(s, b, a.before);
    SkipTo(s, eq + 1, a.after);
    AttributeIs(s, n, b, eq, v, err);
  }

  lemma NameNotEmpty(name: string)
    requires ValidName(name)
    ensures name != ""
  {
  }

  lemma NotWhite(c: char)
    ensures IsNameStart(c) || c in {'=', '/', '>', '<', '?'} ==> !IsWhiteSpace(c)
  {
  }

  // ----- The tag of an element -----

  lemma NoAttributes(attrs: seq<Attribute>)
    requires attrs != []
    ensures AttributesText(attrs) == AttributeText(attrs[0]) + AttributesText(attrs[1..])
    ensures AttributeMeanings(attrs) == [AttributeMeaning(attrs[0])] + AttributeMeanings(attrs[1..])
  {
  }

  /** After the attributes comes white space or the end of the tag. */
  predicate TagEnds(s: string, q: nat) {
    q < |s| && (IsWhiteSpace(s[q]) || s[q] in {'/', '>'})
  }

  /** The text of the attributes that follow starts with white space or, after a quote, with anything. */
  lemma NextFollows(s: string, p: nat, v: Value, rest: seq<Attribute>)
    requires AttributesOk(rest, v.Quoted?) && At(s, p, AttributesText(rest)) && TagEnds(s, p + |AttributesText(rest)|)
    ensures p < |s| && Follows(v, s[p])
  {
    hide At, AttributesText;
    if rest != [] {
      FirstFollows(s, p, v, rest);
    } else {
      NoText();
    }
  }

  lemma GapWhite(a: Attribute)
    requires AttributeOk(a) && a.gap != ""
    ensures IsWhiteSpace(a.gap[0]) && AttributeText(a) != "" && AttributeText(a)[0] == a.gap[0]
  {
  }

  lemma TextNotEmpty(a: Attribute)
    ensures AttributeText(a) != ""
  {
  }

  lemma TagStep(s: string, p: nat, n: nat, name: string, done: seq<Attr>, a: Attr, q: nat, err: Option<Error>)
    requires p <= n < q < |s| && SkipFrom(s, p) == n && IsNameStart(s[n]) && !HasAttr(done, a.name)
    requires AttributeAt(s, Some(n), err) == Parsed(a, Some(q), err)
    ensures TagFrom(s, p, name, done, err) == TagFrom(s, q, name, done + [a], err)
  {
    hide AttributeAt;
  }

  lemma NewName(done: seq<Attr>, a: Attr, rest: seq<Attr>)
    requires DistinctNames(done + ([a] + rest))
    ensures !HasAttr(done, a.name) && DistinctNames((done + [a]) + rest)
  {
    var all := done + ([a] + rest);
    assert (done + [a]) + rest == all;
    assert all[|done|] == a;
    forall i | 0 <= i < |done| ensures done[i].name != a.name {
      assert all[i] == done[i];
    }
  }

  /** The attributes of a tag, with the white space before each, after those that were read. */
  lemma {:induction false} AttrsBack(s: string, p: nat, name: string, done: seq<Attr>, attrs: seq<Attribute>,
                                     afterQuote: bool, err: Option<Error>)
    requires AttributesOk(attrs, afterQuote) && DistinctNames(done + AttributeMeanings(attrs))
    requires At(s, p, AttributesText(attrs)) && TagEnds(s, p + |AttributesText(attrs)|)
    ensures p < |s|
    ensures TagFrom(s, p, name, done, err)
         == TagFrom(s, p + |AttributesText(attrs)|, name, done + AttributeMeanings(attrs), err)
    decreases |attrs|
  {
    hide At, AttributeText, AttributeAt, AttributeOk, TagFrom, DistinctNames, HasAttr, TagEnds, AttributeMeaning, Follows;
    if attrs == [] {
      assert done + [] == done;
      EndsInside(s, p);
    } else {
      var a, rest := attrs[0], attrs[1..];
      NoAttributes(attrs);
      Split(s, p, AttributeText(a), AttributesText(rest));
      var q := p + |AttributeText(a)|;
      NextFollows(s, q, a.value, rest);
      AttributeBack(s, p, a, err);
      NewName(done, AttributeMeaning(a), AttributeMeanings(rest));
      AttributeSpan(a);
      SameName(a);
      TagStep(s, p, p + |a.gap|, name, done, AttributeMeaning(a), q, err);
      AttrsBack(s, q, name, done + [AttributeMeaning(a)], rest, a.value.Quoted?, err);
      assert (done + [AttributeMeaning(a)]) + AttributeMeanings(rest) == done + AttributeMeanings(attrs);
    }
  }

  lemma EndsInside(s: string, p: nat)
    requires TagEnds(s, p)
    ensures p < |s|
  {
  }

  lemma AttributeSpan(a: Attribute)
    ensures |AttributeText(a)| > |a.gap|
  {
  }

  lemma SameName(a: Attribute)
    ensures AttributeMeaning(a).name == a.name
  {
  }

  // ----- Leaves -----

  lemma {:induction false} UntilBack(s: string, p: nat, e: nat, end: string)
    requires p <= e <= |s| && At(s, e, end) && forall i :: p <= i < e ==> !At(s, i, end)
    ensures Until(s, p, end) == e
    decreases e - p
  {
    if p < e {
      UntilBack(s, p + 1, e, end);
    }
  }

  lemma AtShifted(s: string, p: nat, v: string, k: nat, tag: string)
    requires At(s, p, v) && k + |tag| <= |v|
    ensures At(s, p + k, tag) <==> At(v, k, tag)
  {
    AtElements(s, p, v);
    assert s[p..p + |v|][k..k + |tag|] == s[p + k..p + k + |tag|];
  }

  /** An end tag of the form xx> is not found across the end of a text that does not hold it. */
  lemma TextUntil(s: string, p: nat, v: string, end: string)
    requires end == "-->" || end == "]]>"
    requires At(s, p, v + end) && Without(v, end)
    ensures Until(s, p, end) == p + |v| && s[p..p + |v|] == v
  {
    AtConcat(s, p, v, end);
    AtElements(s, p, v + end);
    forall i | p <= i < p + |v| ensures !At(s, i, end) {
      var k := i - p;
      if k + 3 <= |v| {
        AtShifted(s, p, v, k, end);
      } else {
        // Its last character would lie in the end tag, before the '>'.
        assert s[p + (k + 2)] == (v + end)[k + 2];
        NotAt(s, i, end, 2);
      }
    }
    UntilBack(s, p, p + |v|, end);
  }

  lemma RemarkBack(s: string, p: nat, v: string, err: Option<Error>)
    requires Without(v, "-->") && At(s, p, "<!--" + (v + "-->"))
    ensures CommentAt(s, p, err) == Parsed(Comment(v), Some(p + |v| + 7), err)
  {
    hide At;
    Split(s, p, "<!--", v + "-->");
    AtElements(s, p, "<!--");
    assert s[p + 0] == "<!--"[0];
    TextUntil(s, p + 4, v, "-->");
    Split(s, p + 4, v, "-->");
  }

  lemma SectionBack(s: string, p: nat, v: string, err: Option<Error>)
    requires Without(v, "]]>") && At(s, p, "<![CDATA[" + (v + "]]>"))
    ensures CDataAt(s, p, err)
         == Parsed(CData(v), if p + |v| + 12 < |s| then Some(p + |v| + 12) else None, err)
  {
    hide At;
    Split(s, p, "<![CDATA[", v + "]]>");
    TextUntil(s, p + 9, v, "]]>");
    Split(s, p + 9, v, "]]>");
    assert RawText(s, p + 9 + |v|, "]]>") == ("", Some(p + 9 + |v|));
  }

  lemma OtherBack(s: string, p: nat, v: string, err: Option<Error>)
    requires '>' !in v && At(s, p, "<" + (v + ">"))
    ensures UnknownAt(s, p, err) == Parsed(Unknown(v), Some(p + |v| + 2), err)
  {
    hide At;
    Split(s, p, "<", v + ">");
    Split(s, p + 1, v, ">");
    AtElements(s, p, "<");
    assert s[p + 0] == "<"[0];
    NotWithin(s, p + 1, v);
    UntilBack(s, p + 1, p + 1 + |v|, ">");
    AtSlice(s, p + 1, v);
  }

  lemma NotWithin(s: string, p: nat, v: string)
    requires '>' !in v && At(s, p, v)
    ensures forall i :: p <= i < p + |v| ==> !At(s, i, ">")
  {
    AtElements(s, p, v);
    forall i | p <= i < p + |v| ensures !At(s, i, ">") {
      assert s[p + (i - p)] == v[i - p];
      NotAt(s, i, ">", 0);
    }
  }

  // ----- What kind of node -----

  lemma NotAtNoCase(s: string, p: nat, tag: string, k: nat)
    requires k < |tag| && (p + k < |s| ==> ToLower(s[p + k]) != ToLower(tag[k]))
    ensures !AtNoCase(s, p, tag)
  {
  }

  lemma AtLetters(s: string, p: nat, t: string, tag: string)
    requires At(s, p, t) && SameLetters(t, tag)
    ensures AtNoCase(s, p, tag)
  {
    AtElements(s, p, t);
  }

  lemma NotEndTag(s: string, p: nat)
    requires p + 1 < |s| ==> s[p + 1] != '/'
    ensures !At(s, p, END_TAG)
  {
    NotAt(s, p, END_TAG, 1);
  }

  lemma SecondChar(s: string, p: nat, c: char)
    requires p + 1 < |s| && s[p + 1] == c
    ensures c != '?' ==> !AtNoCase(s, p, DECLARATION)
    ensures c != '!' ==> !At(s, p, COMMENT) && !At(s, p, CDATA) && !At(s, p, DTD)
    ensures c != '/' ==> !At(s, p, END_TAG)
  {
    if c != '?' {
      assert ToLower('?') == '?' && ToLower(c) != '?';
      NotAtNoCase(s, p, DECLARATION, 1);
    }
    if c != '!' {
      NotAt(s, p, COMMENT, 1);
      NotAt(s, p, CDATA, 1);
      NotAt(s, p, DTD, 1);
    }
    if c != '/' {
      NotEndTag(s, p);
    }
  }

  lemma TagKind(s: string, p: nat)
    requires p + 1 < |s| && s[p] == '<' && IsNameStart(s[p + 1])
    ensures Identify(s, p) == AnElement && !At(s, p, END_TAG)
  {
    hide At, AtNoCase;
    SecondChar(s, p, s[p + 1]);
  }

  lemma RemarkKind(s: string, p: nat)
    requires At(s, p, "<!--")
    ensures p < |s| && s[p] == '<' && Identify(s, p) == AComment && !At(s, p, END_TAG)
  {
    hide At, AtNoCase;
    AtElements(s, p, "<!--");
    assert s[p + 0] == "<!--"[0] && s[p + 1] == "<!--"[1];
    SecondChar(s, p, '!');
  }

  lemma SectionKind(s: string, p: nat)
    requires At(s, p, "<![CDATA[")
    ensures p < |s| && s[p] == '<' && Identify(s, p) == ACData && !At(s, p, END_TAG)
  {
    hide At, AtNoCase;
    AtElements(s, p, "<![CDATA[");
    assert s[p + 0] == "<![CDATA["[0] && s[p + 1] == "<![CDATA["[1] && s[p + 2] == "<![CDATA["[2];
    SecondChar(s, p, '!');
    NotAt(s, p, COMMENT, 2);
  }

  lemma PrologKind(s: string, p: nat, lead: string)
    requires SameLetters(lead, "<?xml") && At(s, p, lead)
    ensures p + 5 <= |s| && s[p] == '<' && Identify(s, p) == ADeclaration && !At(s, p, END_TAG)
    ensures AtNoCase(s, p, DECLARATION)
  {
    AtElements(s, p, lead);
    AtLetters(s, p, lead, "<?xml");
    assert s[p + 0] == lead[0] && s[p + 1] == lead[1];
    assert ToLower(lead[0]) == ToLower('<') && ToLower(lead[1]) == ToLower('?');
    hide At, AtNoCase;
    SecondChar(s, p, s[p + 1]);
  }

  /** A tag of another kind does not start before the '>'. */
  lemma StartsAt(s: string, p: nat, v: string, start: string)
    requires At(s, p, "<" + (v + ">")) && '>' !in start && At(s, p, "<" + start)
    ensures StartsWith(v, start)
  {
    hide At;
    Split(s, p, "<", v + ">");
    Split(s, p, "<", start);
    Split(s, p + 1, v, ">");
    AtElements(s, p + 1, start);
    AtElements(s, p + 1, v);
    if |v| < |start| {
      Elsewhere(s, p + 1, start, |v|);
    } else {
      forall i | 0 <= i < |start| ensures v[i] == start[i] {
        Elsewhere(s, p + 1, start, i);
        Elsewhere(s, p + 1, v, i);
      }
      assert v[..|start|] == start;
    }
  }

  lemma Elsewhere(s: string, p: nat, tag: string, i: nat)
    requires At(s, p, tag) && i < |tag|
    ensures p + i < |s| && s[p + i] == tag[i]
  {
    AtElements(s, p, tag);
  }

  lemma NotProlog(s: string, p: nat, v: string)
    requires At(s, p, "<" + (v + ">")) && !(|v| >= 4 && SameLetters(v[..4], "?xml"))
    ensures !AtNoCase(s, p, DECLARATION)
  {
    hide At, AtNoCase;
    Split(s, p, "<", v + ">");
    Split(s, p + 1, v, ">");
    if AtNoCase(s, p, DECLARATION) {
      if |v| < 4 {
        SameLetter(s, p, |v|);
        Elsewhere(s, p + 1 + |v|, ">", 0);
        NotAngle("?xml"[|v|], s[p + 1 + |v|]);
      } else {
        SameFour(s, p, v);
      }
    }
  }

  lemma SameLetter(s: string, p: nat, i: nat)
    requires AtNoCase(s, p, DECLARATION) && i < 4
    ensures p + 1 + i < |s| && ToLower(s[p + 1 + i]) == ToLower("?xml"[i])
  {
    assert ToLower(s[p + (i + 1)]) == ToLower(DECLARATION[i + 1]);
  }

  lemma SameFour(s: string, p: nat, v: string)
    requires |v| >= 4 && At(s, p + 1, v) && AtNoCase(s, p, DECLARATION)
    ensures SameLetters(v[..4], "?xml")
  {
    hide At, AtNoCase, ToLower;
    forall i | 0 <= i < 4 ensures ToLower(v[..4][i]) == ToLower("?xml"[i]) {
      SameLetter(s, p, i);
      Elsewhere(s, p + 1, v, i);
    }
  }

  lemma NotAngle(a: char, c: char)
    requires ToLower(c) == ToLower(a) && c == '>'
    ensures a == '>'
  {
  }

  lemma OtherKind(s: string, p: nat, v: string)
    requires OtherOk(v) && At(s, p, "<" + (v + ">"))
    ensures p < |s| && s[p] == '<' && Identify(s, p) == AnUnknown && !At(s, p, END_TAG)
  {
    hide At, AtNoCase, SameLetters, StartsWith;
    Split(s, p, "<", v + ">");
    AtElements(s, p, "<" + (v + ">"));
    assert s[p + 0] == '<' && s[p + 1] == (v + ">")[0];
    NotProlog(s, p, v);
    if At(s, p, COMMENT) {
      assert COMMENT == "<" + "!--";
      StartsAt(s, p, v, "!--");
    }
    if At(s, p, CDATA) {
      assert CDATA == "<" + "![CDATA[";
      StartsAt(s, p, v, "![CDATA[");
    }
    if At(s, p, END_TAG) {
      assert END_TAG == "<" + "/";
      StartsAt(s, p, v, "/");
    }
  }

  // ----- The declaration -----

  lemma KeyAt(s: string, p: nat, name: string)
    requires FieldName(name) && At(s, p, name)
    ensures AtNoCase(s, p, "version") <==> SameLetters(name, "version")
    ensures AtNoCase(s, p, "encoding") <==> SameLetters(name, "encoding")
    ensures AtNoCase(s, p, "standalone") <==> SameLetters(name, "standalone")
  {
    AtElements(s, p, name);
    assert s[p + 0] == name[0];
    KeyIs(s, p, name, "version");
    KeyIs(s, p, name, "encoding");
    KeyIs(s, p, name, "standalone");
  }

  lemma KeyIs(s: string, p: nat, name: string, key: string)
    requires name != "" && At(s, p, name) && key != ""
    ensures SameLetters(name, key) ==> AtNoCase(s, p, key)
    ensures ToLower(name[0]) != ToLower(key[0]) ==> !AtNoCase(s, p, key)
  {
    AtElements(s, p, name);
    assert s[p + 0] == name[0];
    if SameLetters(name, key) {
      AtLetters(s, p, name, key);
    } else if ToLower(name[0]) != ToLower(key[0]) {
      NotAtNoCase(s, p, key, 0);
    }
  }

  /** The declaration with one field more. */
  function WithField(d: Node, a: Attribute): (r: Node)
    requires d.Declaration?
    ensures r.Declaration?
  {
    var v := ValueMeaning(a.value);
    if SameLetters(a.name, "version") then d.(version := v)
    else if SameLetters(a.name, "encoding") then d.(encoding := v)
    else d.(standalone := v)
  }

  lemma FieldStep(s: string, p: nat, n: nat, a: Attribute, q: nat, d: Node, err: Option<Error>)
    requires p <= n < q < |s| && s[p] != '>' && SkipFrom(s, p) == n && d.Declaration?
    requires FieldName(a.name) && At(s, n, a.name)
    requires AttributeAt(s, Some(n), err) == Parsed(AttributeMeaning(a), Some(q), err)
    ensures DeclarationFrom(s, Some(p), d, err) == DeclarationFrom(s, Some(q), WithField(d, a), err)
  {
    hide AttributeAt, At, AtNoCase, SameLetters, FieldName;
    KeyAt(s, n, a.name);
    FieldNames(a.name);
  }

  lemma FieldNames(name: string)
    requires FieldName(name)
    ensures !SameLetters(name, "version") && !SameLetters(name, "encoding") ==> SameLetters(name, "standalone")
  {
  }

  lemma FieldsFirst(fields: seq<Attribute>, d: Node)
    requires fields != [] && d.Declaration?
    ensures FieldsMeaning(fields, d) == FieldsMeaning(fields[1..], WithField(d, fields[0]))
  {
  }

  predicate FieldNamesOk(fields: seq<Attribute>) {
    forall i :: 0 <= i < |fields| ==> FieldName(fields[i].name)
  }

  /** After the fields comes white space or, if the last was in quotes or there is none, the end. */
  predicate PrologEnds(s: string, q: nat, fields: seq<Attribute>) {
    q < |s| && (IsWhiteSpace(s[q]) || fields == [] || fields[|fields| - 1].value.Quoted?)
  }

  lemma NextField(s: string, p: nat, a: Attribute, rest: seq<Attribute>)
    requires AttributesOk(rest, a.value.Quoted?) && At(s, p, AttributesText(rest))
    requires PrologEnds(s, p + |AttributesText(rest)|, [a] + rest)
    ensures p < |s| && Follows(a.value, s[p]) && PrologEnds(s, p + |AttributesText(rest)|, rest)
  {
    hide At, AttributesText;
    if rest != [] {
      assert ([a] + rest)[|rest|] == rest[|rest| - 1];
      FirstFollows(s, p, a.value, rest);
    } else {
      assert [a] + rest == [a];
      NoText();
    }
  }

  lemma NoText()
    ensures AttributesText([]) == ""
  {
  }

  /** An attribute that comes next starts with white space, unless it comes after a quote. */
  lemma FirstFollows(s: string, p: nat, v: Value, rest: seq<Attribute>)
    requires rest != [] && AttributesOk(rest, v.Quoted?) && At(s, p, AttributesText(rest))
    ensures p < |s| && Follows(v, s[p])
  {
    hide At, AttributeOk, AttributeText;
    NoAttributes(rest);
    Split(s, p, AttributeText(rest[0]), AttributesText(rest[1..]));
    TextNotEmpty(rest[0]);
    Elsewhere(s, p, AttributeText(rest[0]), 0);
    if v.Bare? {
      GapWhite(rest[0]);
    }
  }

  /** The first character of a field is no '>'. */
  lemma FieldStarts(s: string, p: nat, a: Attribute)
    requires AttributeOk(a) && At(s, p, AttributeText(a))
    ensures p < |s| && s[p] != '>'
  {
    hide At;
    TextNotEmpty(a);
    AtElements(s, p, AttributeText(a));
    assert s[p + 0] == AttributeText(a)[0];
    if a.gap != "" {
      GapWhite(a);
    } else {
      assert AttributeText(a)[0] == a.name[0];
    }
  }

  lemma FieldsNone(d: Node)
    requires d.Declaration?
    ensures AttributesText([]) == "" && FieldsMeaning([], d) == d
  {
  }

  lemma FieldsParts(fields: seq<Attribute>, afterQuote: bool)
    requires fields != [] && AttributesOk(fields, afterQuote) && FieldNamesOk(fields)
    ensures AttributeOk(fields[0]) && FieldName(fields[0].name)
    ensures AttributesOk(fields[1..], fields[0].value.Quoted?) && FieldNamesOk(fields[1..])
  {
    hide AttributeOk, FieldName;
  }

  lemma {:induction false} FieldsBack(s: string, p: nat, fields: seq<Attribute>, afterQuote: bool, d: Node, err: Option<Error>)
    requires AttributesOk(fields, afterQuote) && FieldNamesOk(fields) && d.Declaration?
    requires At(s, p, AttributesText(fields)) && PrologEnds(s, p + |AttributesText(fields)|, fields)
    ensures DeclarationFrom(s, Some(p), d, err)
         == DeclarationFrom(s, Some(p + |AttributesText(fields)|), FieldsMeaning(fields, d), err)
    decreases |fields|
  {
    hide *;
    if fields == [] {
      FieldsNone(d);
    } else {
      FieldsParts(fields, afterQuote);
      var a, rest := fields[0], fields[1..];
      NoAttributes(fields);
      Split(s, p, AttributeText(a), AttributesText(rest));
      var q := p + |AttributeText(a)|;
      assert fields == [a] + rest;
      NextField(s, q, a, rest);
      AttributeBack(s, p, a, err);
      FieldStarts(s, p, a);
      AttributeSpan(a);
      FieldStep(s, p, p + |a.gap|, a, q, d, err);
      FieldsFirst(fields, d);
      FieldsBack(s, q, rest, a.value.Quoted?, WithField(d, a), err);
    }
  }

  lemma PrologEnd(s: string, p: nat, space: string, d: Node, err: Option<Error>)
    requires d.Declaration? && White(space) && At(s, p, space + "?>")
    ensures DeclarationFrom(s, Some(p), d, err) == Parsed(d, Some(p + |space| + 2), err)
  {
    hide At, AttributeAt;
    Split(s, p, space, "?>");
    var q := p + |space|;
    AtElements(s, q, "?>");
    assert s[q + 0] == "?>"[0] && s[q + 1] == "?>"[1];
    SkipTo(s, p, space);
    assert ToLower('?') == '?';
    NotAtNoCase(s, q, "version", 0);
    NotAtNoCase(s, q, "encoding", 0);
    NotAtNoCase(s, q, "standalone", 0);
    assert OverWord(s, q) == OverWord(s, q + 1) == q + 1;
    assert DeclarationFrom(s, Some(q + 1), d, err) == Parsed(d, Some(q + 2), err);
    if space != "" {
      AtElements(s, p, space);
      assert s[p + 0] == space[0];
    }
  }

  lemma PrologParts(m: Markup)
    requires m.Prolog? && MarkupOk(m)
    ensures |m.lead| == 5 && SameLetters(m.lead, "<?xml") && AttributesOk(m.fields, false) && White(m.space)
    ensures FieldNamesOk(m.fields) && MarkupText(m) == m.lead + (AttributesText(m.fields) + (m.space + "?>"))
    ensures m.fields != [] && m.fields[|m.fields| - 1].value.Bare? ==> m.space != ""
  {
    hide AttributesOk, AttributesText, FieldName;
  }

  lemma PrologBack(s: string, p: nat, m: Markup, err: Option<Error>)
    requires m.Prolog? && MarkupOk(m) && At(s, p, MarkupText(m))
    ensures DeclarationAt(s, p, err) == Parsed(Meaning(m), Some(p + |MarkupText(m)|), err)
  {
    hide *;
    PrologParts(m);
    var fields, end := AttributesText(m.fields), m.space + "?>";
    Split(s, p, m.lead, fields + end);
    Split(s, p + 5, fields, end);
    PrologKind(s, p, m.lead);
    PrologStart(s, p, err);
    var q := p + 5 + |fields|;
    EndFollows(s, q, m.fields, m.space);
    FieldsBack(s, p + 5, m.fields, false, Declaration("", "", ""), err);
    PrologEnd(s, q, m.space, FieldsMeaning(m.fields, Declaration("", "", "")), err);
    PrologMeans(m);
  }

  lemma PrologMeans(m: Markup)
    requires m.Prolog?
    ensures Meaning(m) == FieldsMeaning(m.fields, Declaration("", "", "")) && Meaning(m).Declaration?
  {
    hide FieldsMeaning;
  }

  lemma EndFollows(s: string, q: nat, fields: seq<Attribute>, space: string)
    requires At(s, q, space + "?>") && White(space)
    requires fields != [] && fields[|fields| - 1].value.Bare? ==> space != ""
    ensures PrologEnds(s, q, fields)
  {
    hide At;
    AtElements(s, q, space + "?>");
    assert s[q + 0] == (space + "?>")[0];
  }

  lemma PrologStart(s: string, p: nat, err: Option<Error>)
    requires p + 5 <= |s| && s[p] == '<' && AtNoCase(s, p, DECLARATION)
    ensures DeclarationAt(s, p, err) == DeclarationFrom(s, Some(p + 5), Declaration("", "", ""), err)
  {
    hide DeclarationFrom, AtNoCase;
  }

  // ----- Text between tags -----

  lemma CharsStart(s: string, p: nat, ps: seq<Piece>)
    requires CharsOk(ps) && At(s, p, PiecesText(ps))
    ensures p < |s| && s[p] != '<' && !IsWhiteSpace(s[p]) && SkipFrom(s, p) == p
  {
    hide At, PieceText, PieceOk;
    Append(PiecesText(ps));
    PiecesStep(s, p, ps, "");
    FirstPiece(ps[0]);
    Elsewhere(s, p, PieceText(ps[0]), 0);
  }

  lemma FirstPiece(x: Piece)
    requires PieceOk(x) && x != Letter('<') && !IsSpace(x)
    ensures PieceText(x) != "" && PieceText(x)[0] != '<' && !IsWhiteSpace(PieceText(x)[0])
  {
  }

  lemma CharsBack(s: string, p: nat, ps: seq<Piece>, q: nat, err: Option<Error>)
    requires CharsOk(ps) && At(s, p, PiecesText(ps)) && AllSpace(s, p + |PiecesText(ps)|, q) && q + 1 < |s| && s[q] == '<'
    ensures p < |s| && s[p] != '<' && !IsWhiteSpace(s[p]) && SkipFrom(s, p) == p
    ensures PlainTextAt(s, p, err) == Parsed(Collapsed(ps, false), Some(q), err)
  {
    hide At, CondensedText, PiecesText, Collapsed, AllSpace;
    CharsStart(s, p, ps);
    CollapsedBack(s, p, ps, false, q);
  }

  /** What a text between tags adds to the children. */
  function CharsNode(v: string): seq<Node> {
    if White(v) then [] else [Text(v)]
  }

  lemma CharsKid(s: string, p0: nat, p: nat, ps: seq<Piece>, q: nat, kids: seq<Node>, err: Option<Error>)
    requires CharsOk(ps) && At(s, p, PiecesText(ps)) && p0 < |s| && SkipFrom(s, p0) == SkipFrom(s, p)
    requires AllSpace(s, p + |PiecesText(ps)|, q) && q + 1 < |s| && s[q] == '<'
    ensures KidsFrom(s, p0, kids, err) == KidsFrom(s, q, kids + CharsNode(Collapsed(ps, false)), err)
  {
    hide PiecesText, At, PlainTextAt, NodeAt, Collapsed, CharsOk, AllSpace;
    CharsBack(s, p, ps, q, err);
    BlankIsWhite(Collapsed(ps, false));
    assert kids + [] == kids;
  }

  lemma BlankIsWhite(v: string)
    ensures Blank(v) <==> White(v)
  {
  }

  // ----- Nodes -----

  /** Where the parse of a node stops; CDATA at the very end of the document stops at null. */
  function Stop(s: string, n: Node, p: nat): Option<nat> {
    if n.CData? && p >= |s| then None else Some(p)
  }

  /** NodeAt gives back the node written at p, whose text takes len characters. */
  ghost predicate Back(s: string, p: nat, n: Node, len: nat, err: Option<Error>) {
    && p < |s| && s[p] == '<' && !At(s, p, END_TAG)
    && NodeAt(s, p, err) == Parsed(n, Stop(s, n, p + len), err)
  }

  lemma RemarkNode(s: string, p: nat, v: string, err: Option<Error>)
    requires MarkupOk(Remark(v)) && At(s, p, MarkupText(Remark(v)))
    ensures Back(s, p, Comment(v), |MarkupText(Remark(v))|, err)
  {
    hide At, Identify, CommentAt, ElementAt, Without;
    Split(s, p, "<!--", v + "-->");
    RemarkKind(s, p);
    RemarkBack(s, p, v, err);
  }

  lemma SectionNode(s: string, p: nat, v: string, err: Option<Error>)
    requires MarkupOk(Section(v)) && At(s, p, MarkupText(Section(v)))
    ensures Back(s, p, CData(v), |MarkupText(Section(v))|, err)
  {
    hide At, Identify, CDataAt, ElementAt, Without;
    Split(s, p, "<![CDATA[", v + "]]>");
    SectionKind(s, p);
    SectionBack(s, p, v, err);
  }

  lemma OtherNode(s: string, p: nat, v: string, err: Option<Error>)
    requires MarkupOk(Other(v)) && At(s, p, MarkupText(Other(v)))
    ensures Back(s, p, Unknown(v), |MarkupText(Other(v))|, err)
  {
    hide At, Identify, UnknownAt, ElementAt;
    OtherKind(s, p, v);
    OtherBack(s, p, v, err);
  }

  lemma PrologNode(s: string, p: nat, m: Markup, err: Option<Error>)
    requires m.Prolog? && MarkupOk(m) && At(s, p, MarkupText(m))
    ensures Back(s, p, Meaning(m), |MarkupText(m)|, err)
  {
    hide At, Identify, DeclarationAt, ElementAt, AttributesText, FieldsMeaning;
    PrologParts(m);
    Split(s, p, m.lead, AttributesText(m.fields) + (m.space + "?>"));
    PrologKind(s, p, m.lead);
    PrologBack(s, p, m, err);
    PrologMeans(m);
  }

  /** The start of an element: its name, then the rest of its tag. */
  lemma TagName(s: string, p: nat, name: string, rest: string, err: Option<Error>)
    requires ValidName(name) && At(s, p, "<" + (name + rest)) && rest != "" && !IsNameChar(rest[0])
    ensures var q := p + 1 + |name|;
            && q < |s| && At(s, q, rest) && s[p] == '<' && Identify(s, p) == AnElement && !At(s, p, END_TAG)
            && ElementAt(s, p, err) == TagFrom(s, q, name, [], err)
  {
    hide At, Identify, NameAt, TagFrom, IsNameChar, ValidName, IsNameStart;
    Split(s, p, "<", name + rest);
    Elsewhere(s, p, "<", 0);
    Split(s, p + 1, name, rest);
    NameBack(s, p + 1, name);
    TagKind(s, p);
  }

  lemma TagParts(m: Markup)
    requires m.Tag? && MarkupOk(m)
    ensures ValidName(m.name) && AttributesOk(m.attrs, false) && DistinctNames([] + AttributeMeanings(m.attrs))
    ensures White(m.space) && BodyOk(m.body)
    ensures MarkupText(m) == "<" + (m.name + (AttributesText(m.attrs) + (m.space + BodyText(m.name, m.body))))
    ensures Meaning(m) == Element(m.name, [] + AttributeMeanings(m.attrs), BodyMeaning(m.body))
  {
    hide AttributesOk, DistinctNames, AttributesText, AttributeMeanings, BodyText, BodyOk, BodyMeaning, ValidName;
    assert [] + AttributeMeanings(m.attrs) == AttributeMeanings(m.attrs);
  }

  lemma BodyStarts(name: string, body: Body)
    ensures BodyText(name, body) != "" && BodyText(name, body)[0] in {'/', '>'}
  {
    hide ItemsText;
  }

  /** After the name comes white space or the end of the tag. */
  lemma RestStarts(attrs: seq<Attribute>, space: string, b: string)
    requires AttributesOk(attrs, false) && White(space) && b != "" && b[0] in {'/', '>'}
    ensures var rest := AttributesText(attrs) + (space + b); rest != "" && !IsNameChar(rest[0])
  {
    hide AttributeText, AttributeOk;
    if attrs != [] {
      NoAttributes(attrs);
      GapWhite(attrs[0]);
      assert (AttributesText(attrs) + (space + b))[0] == AttributeText(attrs[0])[0];
    } else if space != "" {
      assert ("" + (space + b))[0] == space[0];
    } else {
      assert ("" + ("" + b))[0] == b[0];
    }
  }

  lemma SpaceEnds(s: string, q: nat, space: string, b: string)
    requires At(s, q, space + b) && White(space) && b != "" && b[0] in {'/', '>'}
    ensures TagEnds(s, q) && At(s, q + |space|, b) && SkipFrom(s, q) == q + |space| < |s| && s[q + |space|] == b[0]
  {
    hide At, SkipFrom;
    Split(s, q, space, b);
    Elsewhere(s, q, space + b, 0);
    Elsewhere(s, q + |space|, b, 0);
    NotWhite(b[0]);
    SkipTo(s, q, space);
  }

  /** The tag of an element is read up to its end. */
  lemma TagBack(s: string, p: nat, m: Markup, err: Option<Error>)
    requires m.Tag? && MarkupOk(m) && At(s, p, MarkupText(m))
    ensures var b := BodyText(m.name, m.body);
            var q, e := p + |MarkupText(m)| - |b| - |m.space|, p + |MarkupText(m)| - |b|;
            && 0 <= q <= e < |s| && s[p] == '<' && Identify(s, p) == AnElement && !At(s, p, END_TAG)
            && At(s, e, b) && SkipFrom(s, q) == e && s[e] == b[0]
            && ElementAt(s, p, err) == TagFrom(s, q, m.name, [] + AttributeMeanings(m.attrs), err)
  {
    hide *;
    TagParts(m);
    var a, b := AttributesText(m.attrs), BodyText(m.name, m.body);
    BodyStarts(m.name, m.body);
    RestStarts(m.attrs, m.space, b);
    TagName(s, p, m.name, a + (m.space + b), err);
    var t := p + 1 + |m.name|;
    Split(s, t, a, m.space + b);
    SpaceEnds(s, t + |a|, m.space, b);
    AttrsBack(s, t, m.name, [], m.attrs, false, err);
  }

  lemma ClosedBack(s: string, q: nat, e: nat, name: string, attrs: seq<Attr>, err: Option<Error>)
    requires q <= e && q < |s| && SkipFrom(s, q) == e && At(s, e, "/>")
    ensures e + 2 <= |s| && TagFrom(s, q, name, attrs, err) == Parsed(Element(name, attrs, []), Some(e + 2), err)
  {
    AtElements(s, e, "/>");
    assert s[e + 0] == "/>"[0] && s[e + 1] == "/>"[1];
  }

  /** The end tag, with white space before its '>'. */
  lemma EndTagBack(s: string, p: nat, name: string, closing: string)
    requires White(closing) && At(s, p, "</" + (name + (closing + ">")))
    ensures var end := p + |name| + |closing| + 3;
            end <= |s| && p + 1 < |s| && EndOfTag(s, p, name) == Some(end) && s[p] == '<' && At(s, p, END_TAG)
  {
    hide At;
    Split(s, p, "</", name + (closing + ">"));
    Elsewhere(s, p, "</", 0);
    Elsewhere(s, p, "</", 1);
    Assoc("</", name, closing + ">");
    Split(s, p, "</" + name, closing + ">");
    var q := p + |"</" + name|;
    Split(s, q, closing, ">");
    Elsewhere(s, q + |closing|, ">", 0);
    SkipTo(s, q, closing);
  }

  lemma HoldingBack(s: string, q: nat, e: nat, name: string, attrs: seq<Attr>, kids: seq<Node>, stop: nat, closing: string,
                    err: Option<Error>)
    requires q <= e < |s| && SkipFrom(s, q) == e && s[e] == '>'
    requires KidsFrom(s, e + 1, [], err) == Parsed(kids, Some(stop), err)
    requires White(closing) && At(s, stop, "</" + (name + (closing + ">")))
    ensures TagFrom(s, q, name, attrs, err)
         == Parsed(Element(name, attrs, kids), Some(stop + |name| + |closing| + 3), err)
  {
    hide At, KidsFrom, EndOfTag;
    EndTagBack(s, stop, name, closing);
  }

  lemma HoldingParts(name: string, body: Body)
    requires body.Holding? && BodyOk(body)
    ensures ItemsOk(body.kids) && White(body.space) && White(body.closing) && BodyMeaning(body) == Meanings(body.kids)
    ensures BodyText(name, body)
         == ">" + (ItemsText(body.kids) + (body.space + ("</" + (name + (body.closing + ">")))))
    ensures |"</" + (name + (body.closing + ">"))| == |name| + |body.closing| + 3
  {
    hide ItemsText, ItemsOk, Meanings;
  }

  lemma ClosedParts(name: string, body: Body)
    requires body.Closed?
    ensures BodyText(name, body) == "/>" && BodyMeaning(body) == []
  {
  }

  /** The rest of an element: its children and its end tag, or nothing. */
  lemma BodyBack(s: string, q: nat, e: nat, name: string, attrs: seq<Attr>, body: Body, err: Option<Error>)
    requires BodyOk(body) && q <= e < |s| && SkipFrom(s, q) == e && At(s, e, BodyText(name, body))
    ensures TagFrom(s, q, name, attrs, err)
         == Parsed(Element(name, attrs, BodyMeaning(body)), Some(e + |BodyText(name, body)|), err)
    decreases body, 0
  {
    hide *;
    if body.Closed? {
      ClosedParts(name, body);
      ClosedBack(s, q, e, name, attrs, err);
    } else {
      HoldingParts(name, body);
      var t := "</" + (name + (body.closing + ">"));
      var items := ItemsText(body.kids);
      Split(s, e, ">", items + (body.space + t));
      Elsewhere(s, e, ">", 0);
      Split(s, e + 1, items, body.space + t);
      var w := e + 1 + |items|;
      Split(s, w, body.space, t);
      var stop := w + |body.space|;
      EndTagBack(s, stop, name, body.closing);
      NotWhite(s[stop]);
      SkipTo(s, w, body.space);
      KidsBack(s, e + 1, e + 1, body.kids, stop, [], err);
      assert [] + Meanings(body.kids) == Meanings(body.kids);
      HoldingBack(s, q, e, name, attrs, Meanings(body.kids), stop, body.closing, err);
    }
  }

  lemma BackElement(s: string, p: nat, n: Node, len: nat, err: Option<Error>)
    requires n.Element? && p < |s| && s[p] == '<' && !At(s, p, END_TAG) && Identify(s, p) == AnElement
    requires ElementAt(s, p, err) == Parsed(n, Some(p + len), err)
    ensures Back(s, p, n, len, err)
  {
    hide At, Identify, ElementAt;
  }

  /** The parse of a node gives its meaning. */
  lemma {:induction false} NodeBack(s: string, p: nat, m: Markup, err: Option<Error>)
    requires !m.Chars? && MarkupOk(m) && At(s, p, MarkupText(m))
    ensures Back(s, p, Meaning(m), |MarkupText(m)|, err)
    decreases m, 1
  {
    hide *;
    match m
    case Tag(name, attrs, space, body) =>
      TagParts(m);
      TagBack(s, p, m, err);
      var b := BodyText(name, body);
      var q, e := p + |MarkupText(m)| - |b| - |space|, p + |MarkupText(m)| - |b|;
      BodyBack(s, q, e, name, [] + AttributeMeanings(attrs), body, err);
      BackElement(s, p, Meaning(m), |MarkupText(m)|, err);
    case Section(v) =>
      SectionNode(s, p, v, err);
      LeafMeans(m);
    case Remark(v) =>
      RemarkNode(s, p, v, err);
      LeafMeans(m);
    case Other(v) =>
      OtherNode(s, p, v, err);
      LeafMeans(m);
    case Prolog(_, _, _) => PrologNode(s, p, m, err);
  }

  lemma LeafMeans(m: Markup)
    ensures m.Section? ==> Meaning(m) == CData(m.text)
    ensures m.Remark? ==> Meaning(m) == Comment(m.text)
    ensures m.Other? ==> Meaning(m) == Unknown(m.text)
    ensures m.Chars? ==> Meaning(m) == Text(Collapsed(m.pieces, false)) && MarkupText(m) == PiecesText(m.pieces)
    ensures m.Chars? && MarkupOk(m) ==> CharsOk(m.pieces)
  {
    hide Collapsed, PiecesText, CharsOk;
  }

  // ----- Children -----

  lemma ItemParts(items: seq<Item>)
    requires items != [] && ItemsOk(items)
    ensures var it, rest := items[0], items[1..];
            && White(it.space) && MarkupOk(it.markup) && ItemsOk(rest)
            && (it.markup.Chars? && rest != [] ==> !rest[0].markup.Chars?)
            && ItemsText(items) == (it.space + MarkupText(it.markup)) + ItemsText(rest)
            && Meanings(items)
               == (if it.markup.Chars? then CharsNode(Collapsed(it.markup.pieces, false)) else [Meaning(it.markup)])
                  + Meanings(rest)
  {
    hide MarkupText, MarkupOk, Collapsed;
  }

  /** Where an item and what follows it lie. */
  lemma ItemLies(s: string, p: nat, items: seq<Item>, tail: string)
    requires items != [] && ItemsOk(items) && At(s, p, ItemsText(items) + tail)
    ensures var it, rest := items[0], items[1..];
            var b := p + |it.space|;
            var next := b + |MarkupText(it.markup)|;
            && At(s, b, MarkupText(it.markup)) && At(s, next, ItemsText(rest) + tail)
            && b <= next <= |s| && next + |ItemsText(rest) + tail| == p + |ItemsText(items) + tail| <= |s|
            && SkipFrom(s, p) == SkipFrom(s, b)
  {
    hide *;
    ItemParts(items);
    var it, rest := items[0], items[1..];
    Assoc(it.space + MarkupText(it.markup), ItemsText(rest), tail);
    Split(s, p, it.space + MarkupText(it.markup), ItemsText(rest) + tail);
    Split(s, p, it.space, MarkupText(it.markup));
    SkipTo(s, p, it.space);
  }

  lemma NoItems()
    ensures ItemsText([]) == "" && Meanings([]) == []
  {
  }

  lemma NoKids(s: string, p0: nat, stop: nat, done: seq<Node>, err: Option<Error>)
    requires p0 < |s| && SkipFrom(s, p0) == stop < |s| && s[stop] == '<' && At(s, stop, END_TAG)
    ensures KidsFrom(s, p0, done, err) == Parsed(done, Some(stop), err)
  {
    hide At, NodeAt, PlainTextAt;
  }

  lemma NodeKid(s: string, p0: nat, p: nat, n: Node, len: nat, done: seq<Node>, err: Option<Error>)
    requires Back(s, p, n, len, err) && p + len < |s| && p0 < |s| && SkipFrom(s, p0) == SkipFrom(s, p)
    ensures KidsFrom(s, p0, done, err) == KidsFrom(s, p + len, done + [n], err)
  {
    hide At, NodeAt;
    assert SkipFrom(s, p) == p;
  }

  /** The markup starts with a '<' unless it is text. */
  lemma MarkupStarts(s: string, p: nat, m: Markup)
    requires !m.Chars? && MarkupOk(m) && At(s, p, MarkupText(m))
    ensures p + 1 < |s| && s[p] == '<'
  {
    hide At, AttributesText, BodyText, AttributesOk, BodyOk;
    match m
    case Tag(name, attrs, space, body) =>
      Split(s, p, "<", name + (AttributesText(attrs) + (space + BodyText(name, body))));
      Elsewhere(s, p, "<", 0);
    case Section(v) => Split(s, p, "<![CDATA[", v + "]]>"); Elsewhere(s, p, "<![CDATA[", 0);
    case Remark(v) => Split(s, p, "<!--", v + "-->"); Elsewhere(s, p, "<!--", 0);
    case Other(v) => Split(s, p, "<", v + ">"); Elsewhere(s, p, "<", 0);
    case Prolog(lead, fields, space) =>
      Split(s, p, lead, AttributesText(fields) + (space + "?>"));
      PrologKind(s, p, lead);
  }

  /** After a text comes white space up to the next tag. */
  lemma NextTag(s: string, p: nat, items: seq<Item>, stop: nat)
    requires ItemsOk(items) && (items != [] ==> !items[0].markup.Chars?) && At(s, p, ItemsText(items))
    requires SkipFrom(s, p + |ItemsText(items)|) == stop && stop + 1 < |s| && s[stop] == '<'
    requires p + |ItemsText(items)| <= |s|
    ensures SkipFrom(s, p) + 1 < |s| && s[SkipFrom(s, p)] == '<'
  {
    hide *;
    if items == [] {
      NoItems();
    } else {
      ItemParts(items);
      var it := items[0];
      Split(s, p, it.space + MarkupText(it.markup), ItemsText(items[1..]));
      Split(s, p, it.space, MarkupText(it.markup));
      MarkupStarts(s, p + |it.space|, it.markup);
      NotWhite(s[p + |it.space|]);
      SkipTo(s, p, it.space);
    }
  }

  lemma SkipIsSpace(s: string, p: nat)
    requires p <= |s|
    ensures p <= SkipFrom(s, p) <= |s| && AllSpace(s, p, SkipFrom(s, p))
    ensures SkipFrom(s, SkipFrom(s, p)) == SkipFrom(s, p)
  {
    hide SkipFrom;
    SkipOver(s, p, SkipFrom(s, p));
  }

  /** The children are what was written from p on; stop is the end tag after them. */
  lemma {:induction false} KidsBack(s: string, p0: nat, p: nat, items: seq<Item>, stop: nat, done: seq<Node>, err: Option<Error>)
    requires ItemsOk(items) && At(s, p, ItemsText(items)) && p + |ItemsText(items)| <= |s|
    requires p0 < |s| && SkipFrom(s, p0) == SkipFrom(s, p)
    requires SkipFrom(s, p + |ItemsText(items)|) == stop && stop + 1 < |s| && s[stop] == '<' && At(s, stop, END_TAG)
    ensures KidsFrom(s, p0, done, err) == Parsed(done + Meanings(items), Some(stop), err)
    decreases items, 3
  {
    hide *;
    if items == [] {
      NoItems();
      assert done + [] == done;
      NoKids(s, p0, stop, done, err);
    } else {
      var it, rest := items[0], items[1..];
      ItemParts(items);
      Append(ItemsText(items));
      Append(ItemsText(rest));
      ItemLies(s, p, items, "");
      var b := p + |it.space|;
      var next := b + |MarkupText(it.markup)|;
      SkipIsSpace(s, next + |ItemsText(rest)|);
      LeafMeans(it.markup);
      if it.markup.Chars? {
        var v := Collapsed(it.markup.pieces, false);
        NextTag(s, next, rest, stop);
        SkipIsSpace(s, next);
        CharsKid(s, p0, b, it.markup.pieces, SkipFrom(s, next), done, err);
        KidsBack(s, SkipFrom(s, next), next, rest, stop, done + CharsNode(v), err);
        assert (done + CharsNode(v)) + Meanings(rest) == done + Meanings(items);
      } else {
        NodeBack(s, b, it.markup, err);
        NodeKid(s, p0, b, Meaning(it.markup), |MarkupText(it.markup)|, done, err);
        KidsBack(s, next, next, rest, stop, done + [Meaning(it.markup)], err);
        assert (done + [Meaning(it.markup)]) + Meanings(rest) == done + Meanings(items);
      }
    }
  }

  // ----- Documents -----

  lemma DocumentEnd(s: string, p0: Option<nat>, done: seq<Node>)
    requires p0.Some? ==> p0.value <= |s| && SkipFrom(s, p0.value) == |s|
    ensures var r := DocumentFrom(s, Skip(s, p0), done, None); r.value == done && r.err == None
  {
    hide NodeAt;
  }

  lemma DocumentStep(s: string, p0: nat, p: nat, n: Node, len: nat, done: seq<Node>)
    requires p0 <= |s| && Back(s, p, n, len, None) && p + len <= |s| && SkipFrom(s, p0) == SkipFrom(s, p)
    ensures DocumentFrom(s, Skip(s, Some(p0)), done, None)
         == DocumentFrom(s, Skip(s, Stop(s, n, p + len)), done + [n], None)
  {
    hide At, NodeAt;
    assert SkipFrom(s, p) == p;
  }

  lemma StopValue(s: string, n: Node, p: nat)
    ensures Stop(s, n, p) == None || Stop(s, n, p) == Some(p)
    ensures p < |s| ==> Stop(s, n, p) == Some(p)
  {
  }

  lemma DocumentParts(items: seq<Item>, after: string)
    requires items != [] && DocumentOk(items, after)
    ensures !items[0].markup.Chars? && DocumentOk(items[1..], after) && ItemsOk(items) && White(after)
  {
    hide ItemsOk;
    ItemParts(items);
    assert forall i :: 0 <= i < |items[1..]| ==> items[1..][i] == items[i + 1];
  }

  lemma DocumentWhite(items: seq<Item>, after: string)
    requires DocumentOk(items, after)
    ensures White(after)
  {
  }

  lemma ItemsNotEmpty(s: string, p: nat, items: seq<Item>, after: string)
    requires items != [] && DocumentOk(items, after) && At(s, p, ItemsText(items))
    ensures p < |s|
  {
    hide *;
    DocumentParts(items, after);
    ItemParts(items);
    var it := items[0];
    Split(s, p, it.space + MarkupText(it.markup), ItemsText(items[1..]));
    Split(s, p, it.space, MarkupText(it.markup));
    MarkupStarts(s, p + |it.space|, it.markup);
  }

  /** The first item of a document is read, and the rest lies behind it. */
  lemma DocumentFirst(s: string, p0: nat, p: nat, items: seq<Item>, after: string, done: seq<Node>) returns (n: Node, q: nat)
    requires items != [] && DocumentOk(items, after)
    requires At(s, p, ItemsText(items) + after) && p + |ItemsText(items) + after| == |s|
    requires p0 <= |s| && SkipFrom(s, p0) == SkipFrom(s, p)
    ensures DocumentOk(items[1..], after) && Meanings(items) == [n] + Meanings(items[1..])
    ensures At(s, q, ItemsText(items[1..]) + after) && q + |ItemsText(items[1..]) + after| == |s|
    ensures DocumentFrom(s, Skip(s, Some(p0)), done, None) == DocumentFrom(s, Skip(s, Stop(s, n, q)), done + [n], None)
  {
    hide *;
    DocumentWhite(items, after);
    DocumentParts(items, after);
    ItemParts(items);
    var it := items[0];
    ItemLies(s, p, items, after);
    var b := p + |it.space|;
    NodeBack(s, b, it.markup, None);
    n, q := Meaning(it.markup), b + |MarkupText(it.markup)|;
    DocumentStep(s, p0, b, n, |MarkupText(it.markup)|, done);
  }

  lemma {:induction false} DocumentBack(s: string, p0: Option<nat>, p: nat, items: seq<Item>, after: string, done: seq<Node>)
    requires DocumentOk(items, after) && At(s, p, ItemsText(items) + after) && p + |ItemsText(items) + after| == |s|
    requires p0.Some? ==> p0.value <= |s| && SkipFrom(s, p0.value) == SkipFrom(s, p)
    requires items != [] ==> p0.Some?
    ensures var r := DocumentFrom(s, Skip(s, p0), done, None);
            r.value == done + Meanings(items) && r.err == None
    decreases |items|
  {
    hide *;
    if items == [] {
      NoItems();
      assert "" + after == after;
      DocumentWhite(items, after);
      SkipTo(s, p, after);
      AtTheEnd(s);
      DocumentEnd(s, p0, done);
      assert done + [] == done;
    } else {
      var n, q := DocumentFirst(s, p0.value, p, items, after, done);
      StopValue(s, n, q);
      if items[1..] != [] {
        Split(s, q, ItemsText(items[1..]), after);
        ItemsNotEmpty(s, q, items[1..], after);
      }
      DocumentBack(s, Stop(s, n, q), q, items[1..], after, done + [n]);
      assert (done + [n]) + Meanings(items[1..]) == done + ([n] + Meanings(items[1..]));
    }
  }

  lemma AtTheEnd(s: string)
    ensures SkipFrom(s, |s|) == |s|
  {
  }

  lemma DocumentIs(s: string)
    requires s != ""
    ensures var r := DocumentFrom(s, Skip(s, Some(0)), [], None);
            r.value != [] && r.err == None ==> DocumentOf(s).value == r.value && DocumentOf(s).err == None
  {
    hide DocumentFrom;
  }

  lemma SomeMeaning(items: seq<Item>)
    requires items != [] && ItemsOk(items) && !items[0].markup.Chars?
    ensures Meanings(items) != []
  {
    hide MarkupOk, MarkupText, Meaning;
  }

  /**
   Every document of the grammar is read as what it means, without an error: whatever white space is in its tags and
   between them, whatever quotes it uses or none, and however each character is written.
   */
  lemma ReadsDocument(items: seq<Item>, after: string)
    requires items != [] && DocumentOk(items, after)
    ensures var r := DocumentOf(ItemsText(items) + after);
            r.value == Meanings(items) && r.err == None
  {
    hide *;
    var s := ItemsText(items) + after;
    WholeString(s);
    Split(s, 0, ItemsText(items), after);
    ItemsNotEmpty(s, 0, items, after);
    DocumentBack(s, Some(0), 0, items, after, []);
    assert [] + Meanings(items) == Meanings(items);
    DocumentParts(items, after);
    SomeMeaning(items);
    DocumentIs(s);
  }

  lemma WholeString(s: string)
    ensures At(s, 0, s)
  {
    assert s[0..0 + |s|] == s;
  }
}
