/** What the parser does with any input: errors are reported, the first one stays, and what is read was there. */
module XmlErrors {
  import opened Wrappers
  import opened XmlText
  import opened XmlReadBack
  import opened XmlParser
  import opened XmlGrammar
  import opened XmlComplete

  // ----- The first error -----

  /** An error that was reported before stays, and none is taken back. */
  predicate KeepsError(err: Option<Error>, err': Option<Error>) {
    err.Some? ==> err' == err
  }

  lemma AttributeKeepsError(s: string, p: Option<nat>, err: Option<Error>)
    requires p.Some? ==> p.value <= |s|
    ensures KeepsError(err, AttributeAt(s, p, err).err)
  {
    hide TextAt, NameAt, SkipFrom, BareEnd;
  }

  lemma {:induction false} DeclarationKeepsError(s: string, p: Option<nat>, d: Node, err: Option<Error>)
    requires (p.Some? ==> p.value <= |s|) && d.Declaration?
    ensures KeepsError(err, DeclarationFrom(s, p, d, err).err)
    decreases if p.Some? then |s| - p.value + 1 else 0
  {
    hide AttributeAt, AtNoCase, SkipFrom, OverWord;
    if p.Some? && p.value < |s| && s[p.value] != '>' {
      var q := SkipFrom(s, p.value);
      var a := AttributeAt(s, Some(q), err);
      if AtNoCase(s, q, "version") {
        DeclarationKeepsError(s, a.next, d.(version := a.value.value), err);
      } else if AtNoCase(s, q, "encoding") {
        DeclarationKeepsError(s, a.next, d.(encoding := a.value.value), err);
      } else if AtNoCase(s, q, "standalone") {
        DeclarationKeepsError(s, a.next, d.(standalone := a.value.value), err);
      } else {
        DeclarationKeepsError(s, Some(OverWord(s, q)), d, err);
      }
    }
  }

  /** What the parse of an element reports, and what its tree is like. */
  ghost predicate ElementFine(err: Option<Error>, r: Parsed<Node>) {
    KeepsError(err, r.err) && (r.next.None? ==> r.err.Some?) && TreeOk(r.value)
  }

  /** No element has two attributes with one name. */
  predicate TreeOk(n: Node)
    decreases n, 0
  {
    n.Element? ==> DistinctNames(n.attrs) && TreesOk(n.kids)
  }

  predicate TreesOk(kids: seq<Node>)
    decreases kids, 0
  {
    kids == [] || (TreeOk(kids[|kids| - 1]) && TreesOk(kids[..|kids| - 1]))
  }

  lemma TreesMore(kids: seq<Node>, n: Node)
    requires TreesOk(kids) && TreeOk(n)
    ensures TreesOk(kids + [n])
  {
    hide TreeOk;
    assert (kids + [n])[..|kids|] == kids;
  }

  lemma LeafFine(s: string, p: nat, err: Option<Error>)
    requires p < |s| && s[p] == '<' && Identify(s, p) != AnElement
    ensures KeepsError(err, NodeAt(s, p, err).err) && TreeOk(NodeAt(s, p, err).value)
  {
    hide Identify, ElementAt, DeclarationFrom, Until, TextAt, At, AtNoCase, SkipFrom;
    if Identify(s, p) == ADeclaration {
      DeclarationLeaf(s, p, err);
    }
  }

  lemma Inside(s: string, p: nat, tag: string)
    requires AtNoCase(s, p, tag)
    ensures p + |tag| <= |s|
  {
  }

  lemma DeclarationLeaf(s: string, p: nat, err: Option<Error>)
    requires p <= |s|
    ensures KeepsError(err, DeclarationAt(s, p, err).err)
  {
    hide DeclarationFrom, AtNoCase, SkipFrom;
    match Skip(s, Some(p))
    case None =>
    case Some(q) =>
      if AtNoCase(s, q, DECLARATION) {
        Inside(s, q, DECLARATION);
        DeclarationKeepsError(s, Some(q + |DECLARATION|), Declaration("", "", ""), err);
      }
  }

  lemma {:induction false} NodeFine(s: string, p: nat, err: Option<Error>)
    requires p < |s| && s[p] == '<'
    ensures KeepsError(err, NodeAt(s, p, err).err) && TreeOk(NodeAt(s, p, err).value)
    decreases |s| - p, 3
  {
    hide Identify, ElementAt, DeclarationAt, CommentAt, CDataAt, UnknownAt, TreeOk;
    if Identify(s, p) == AnElement {
      ElementIsFine(s, p, err);
    } else {
      LeafFine(s, p, err);
    }
  }

  lemma {:induction false} ElementIsFine(s: string, p: nat, err: Option<Error>)
    requires p < |s| && s[p] == '<'
    ensures ElementFine(err, ElementAt(s, p, err))
    decreases |s| - p, 2
  {
    hide TagFrom, SkipFrom, NameEnd, TreeOk;
    var start := Skip(s, Some(p + 1));
    var q := NameAt(s, start);
    if q.Some? && q.value < |s| {
      TagFine(s, q.value, s[start.value..q.value], [], err);
    } else {
      PlainTree(if q.Some? then s[start.value..q.value] else "", []);
    }
  }

  lemma PlainTree(name: string, attrs: seq<Attr>)
    requires DistinctNames(attrs)
    ensures TreeOk(Element(name, attrs, []))
  {
  }

  lemma FullTree(name: string, attrs: seq<Attr>, kids: seq<Node>)
    requires DistinctNames(attrs) && TreesOk(kids)
    ensures TreeOk(Element(name, attrs, kids))
  {
  }

  lemma MoreNames(attrs: seq<Attr>, a: Attr)
    requires DistinctNames(attrs) && !HasAttr(attrs, a.name)
    ensures DistinctNames(attrs + [a])
  {
  }

  lemma {:induction false} TagFine(s: string, p: nat, name: string, attrs: seq<Attr>, err: Option<Error>)
    requires p < |s| && DistinctNames(attrs)
    ensures ElementFine(err, TagFrom(s, p, name, attrs, err))
    decreases |s| - p, 1
  {
    hide AttributeAt, KidsFrom, EndOfTag, SkipFrom, HasAttr, DistinctNames, TreeOk, TreesOk;
    PlainTree(name, attrs);
    var q := Skip(s, Some(p));
    if q.Some? && q.value < |s| && s[q.value] == '>' {
      KidsFine(s, q.value + 1, [], err);
      FullTree(name, attrs, KidsFrom(s, q.value + 1, [], err).value);
    } else if q.Some? && q.value < |s| && s[q.value] != '/' {
      AttributeKeepsError(s, q, err);
      var a := AttributeAt(s, q, err);
      if a.next.Some? && a.next.value < |s| && !HasAttr(attrs, a.value.name) {
        MoreNames(attrs, a.value);
        TagFine(s, a.next.value, name, attrs + [a.value], a.err);
      }
    }
  }

  lemma {:induction false} KidsFine(s: string, p: nat, kids: seq<Node>, err: Option<Error>)
    requires p <= |s| && TreesOk(kids)
    ensures KeepsError(err, KidsFrom(s, p, kids, err).err) && TreesOk(KidsFrom(s, p, kids, err).value)
    ensures KidsFrom(s, p, kids, err).next.None? ==> KidsFrom(s, p, kids, err).err.Some?
    decreases |s| - p, 4
  {
    hide NodeAt, PlainTextAt, SkipFrom, At, TreesOk, TreeOk, Blank;
    var q := Skip(s, Some(p));
    if q.Some? && q.value < |s| {
      if s[q.value] != '<' {
        var t := PlainTextAt(s, q.value, err);
        var kids' := if Blank(t.value) then kids else kids + [Text(t.value)];
        TextTree(t.value);
        TreesMore(kids, Text(t.value));
        if t.next.Some? {
          KidsFine(s, t.next.value, kids', t.err);
        }
      } else if !At(s, q.value, END_TAG) {
        var n := NodeAt(s, q.value, err);
        NodeFine(s, q.value, err);
        TreesMore(kids, n.value);
        if n.next.Some? {
          KidsFine(s, n.next.value, kids + [n.value], n.err);
        }
      }
    }
  }

  lemma TextTree(v: string)
    ensures TreeOk(Text(v))
  {
  }

  lemma {:induction false} DocumentFine(s: string, p: Option<nat>, kids: seq<Node>, err: Option<Error>)
    requires (p.Some? ==> p.value <= |s|) && TreesOk(kids)
    ensures KeepsError(err, DocumentFrom(s, p, kids, err).err) && TreesOk(DocumentFrom(s, p, kids, err).value)
    decreases if p.Some? then |s| - p.value + 1 else 0
  {
    hide NodeAt, SkipFrom, TreesOk, TreeOk;
    if p.Some? && p.value < |s| && s[p.value] == '<' {
      var n := NodeAt(s, p.value, err);
      NodeFine(s, p.value, err);
      TreesMore(kids, n.value);
      DocumentFine(s, Skip(s, n.next), kids + [n.value], n.err);
    }
  }

  /** Whatever the input is, no element of the tree has two attributes with one name, and no document is without a node or an error. */
  lemma AnyDocument(s: string)
    ensures TreesOk(DocumentOf(s).value)
    ensures DocumentOf(s).value == [] ==> DocumentOf(s).err.Some?
  {
    hide DocumentFrom, TreesOk, SkipFrom;
    NoTrees();
    DocumentFine(s, Skip(s, Some(0)), [], None);
  }

  lemma NoTrees()
    ensures TreesOk([])
  {
  }

  // ----- Where an element ends -----

  /** The element that ends at q ends with an empty tag, or with an end tag of its own name. */
  ghost predicate EndsProperly(s: string, p: nat, name: string, q: nat) {
    || (p + 2 <= q && At(s, q - 2, "/>"))
    || exists e: nat, w :: p <= e && White(w) && At(s, e, "</" + (name + (w + ">"))) && e + |name| + |w| + 3 == q
  }

  /** An end tag is one of that name, with nothing but white space after the name. */
  lemma EndTagIs(s: string, p: nat, name: string)
    requires p < |s| && EndOfTag(s, p, name).Some?
    ensures EndsProperly(s, p, name, EndOfTag(s, p, name).value)
  {
    hide At, SkipFrom;
    var t := END_TAG + name;
    var c := p + |t|;
    var close := SkipFrom(s, c);
    assert EndOfTag(s, p, name) == Some(close + 1) && At(s, p, t) && s[close] == '>';
    var w := s[c..close];
    WordAt(s, c, close);
    WordAt(s, close, close + 1);
    assert s[close..close + 1] == ">";
    AtConcat(s, c, w, ">");
    AtConcat(s, p, t, w + ">");
    Assoc("</", name, w + ">");
    assert White(w);
    assert At(s, p, "</" + (name + (w + ">")));
  }

  lemma WordAt(s: string, p: nat, q: nat)
    requires p <= q <= |s|
    ensures At(s, p, s[p..q])
  {
  }

  lemma EmptyTagIs(s: string, p: nat, e: nat, name: string)
    requires p <= e && e + 1 < |s| && s[e] == '/' && s[e + 1] == '>'
    ensures EndsProperly(s, p, name, e + 2)
  {
    assert s[e..e + 2] == "/>";
  }

  lemma EndsLater(s: string, p: nat, p': nat, name: string, q: nat)
    requires p <= p' && EndsProperly(s, p', name, q)
    ensures EndsProperly(s, p, name, q)
  {
    hide At;
  }

  lemma {:induction false} TagEndsProperly(s: string, p: nat, name: string, attrs: seq<Attr>, err: Option<Error>)
    requires p < |s|
    ensures var r := TagFrom(s, p, name, attrs, err);
            r.next.Some? ==> EndsProperly(s, p, name, r.next.value) && r.value.Element? && r.value.name == name
    decreases |s| - p
  {
    hide AttributeAt, KidsFrom, EndOfTag, HasAttr, EndsProperly, SkipFrom;
    var q := SkipFrom(s, p);
    if q < |s| {
      if s[q] == '/' {
        if q + 1 < |s| && s[q + 1] == '>' {
          EmptyTagIs(s, p, q, name);
        }
      } else if s[q] == '>' {
        var v := KidsFrom(s, q + 1, [], err);
        if v.next.Some? && v.next.value < |s| && EndOfTag(s, v.next.value, name).Some? {
          EndTagIs(s, v.next.value, name);
          EndsLater(s, p, v.next.value, name, EndOfTag(s, v.next.value, name).value);
        }
      } else {
        var a := AttributeAt(s, Some(q), err);
        if a.next.Some? && a.next.value < |s| && !HasAttr(attrs, a.value.name) {
          TagEndsProperly(s, a.next.value, name, attrs + [a.value], a.err);
          var r := TagFrom(s, a.next.value, name, attrs + [a.value], a.err);
          if r.next.Some? {
            EndsLater(s, p, a.next.value, name, r.next.value);
          }
        }
      }
    }
  }

  /**
   On any input an element is read, ending with an empty tag or with an end tag of its name, or an error is reported;
   the first error stays.
   */
  lemma AnyElement(s: string, p: nat, err: Option<Error>)
    requires p < |s| && s[p] == '<'
    ensures var r := ElementAt(s, p, err);
            && r.value.Element? && TreeOk(r.value) && (err.Some? ==> r.err == err)
            && (match r.next
                case None => r.err.Some?
                case Some(q) => EndsProperly(s, p, r.value.name, q))
  {
    hide TagFrom, SkipFrom, NameEnd, TreeOk, EndsProperly;
    ElementIsFine(s, p, err);
    var start := Skip(s, Some(p + 1));
    var q := NameAt(s, start);
    if q.Some? && q.value < |s| {
      var name := s[start.value..q.value];
      TagEndsProperly(s, q.value, name, [], err);
      var r := TagFrom(s, q.value, name, [], err);
      if r.next.Some? {
        EndsLater(s, p, q.value, name, r.next.value);
      }
    }
  }

  // ----- Errors by their causes -----

  /** A second attribute of one name ends the parse of its element. */
  lemma SecondAttribute(s: string, p: nat, name: string, attrs: seq<Attribute>, a: Attribute)
    requires AttributesOk(attrs, false) && DistinctNames(AttributeMeanings(attrs)) && attrs != []
    requires AttributeOk(a) && a.gap != "" && exists i :: 0 <= i < |attrs| && attrs[i].name == a.name
    requires At(s, p, AttributesText(attrs) + AttributeText(a))
    requires var q := p + |AttributesText(attrs) + AttributeText(a)|; q < |s| && Follows(a.value, s[q])
    ensures TagFrom(s, p, name, [], None)
         == Parsed(Element(name, AttributeMeanings(attrs), []), None, Some(ParsingElement))
  {
    hide *;
    var q := p + |AttributesText(attrs)|;
    Split(s, p, AttributesText(attrs), AttributeText(a));
    GapWhite(a);
    Elsewhere(s, q, AttributeText(a), 0);
    WhiteEnds(s, q);
    assert [] + AttributeMeanings(attrs) == AttributeMeanings(attrs);
    AttrsBack(s, p, name, [], attrs, false, None);
    AttributeBack(s, q, a, None);
    AttributeSpan(a);
    SameName(a);
    HasName(attrs, a.name);
    TagStops(s, q, q + |a.gap|, name, AttributeMeanings(attrs), AttributeMeaning(a), q + |AttributeText(a)|);
  }

  lemma WhiteEnds(s: string, q: nat)
    requires q < |s| && IsWhiteSpace(s[q])
    ensures TagEnds(s, q)
  {
  }

  lemma {:induction false} HasName(attrs: seq<Attribute>, name: string)
    requires exists i :: 0 <= i < |attrs| && attrs[i].name == name
    ensures HasAttr(AttributeMeanings(attrs), name)
    decreases |attrs|
  {
    hide AttributeText;
    var i :| 0 <= i < |attrs| && attrs[i].name == name;
    NoAttributes(attrs);
    var all := AttributeMeanings(attrs);
    if i == 0 {
      assert all[0].name == name;
    } else {
      assert attrs[1..][i - 1] == attrs[i];
      HasName(attrs[1..], name);
      var k :| 0 <= k < |AttributeMeanings(attrs[1..])| && AttributeMeanings(attrs[1..])[k].name == name;
      assert all[k + 1].name == name;
    }
  }

  lemma TagStops(s: string, p: nat, n: nat, name: string, attrs: seq<Attr>, a: Attr, q: nat)
    requires p <= n < q < |s| && SkipFrom(s, p) == n && IsNameStart(s[n]) && HasAttr(attrs, a.name)
    requires AttributeAt(s, Some(n), None) == Parsed(a, Some(q), None)
    ensures TagFrom(s, p, name, attrs, None) == Parsed(Element(name, attrs, []), None, Some(ParsingElement))
  {
    hide AttributeAt;
  }

  /** A name that no equals sign follows. */
  lemma NoEquals(s: string, p: nat, name: string, w: string)
    requires ValidName(name) && White(w) && At(s, p, name + w) && p + |name + w| < |s|
    requires s[p + |name + w|] != '=' && !IsWhiteSpace(s[p + |name + w|]) && (w != "" || !IsNameChar(s[p + |name|]))
    ensures AttributeAt(s, Some(p), None) == Parsed(Attr(name, ""), None, Some(ReadingAttributes))
  {
    hide At, NameEnd, IsNameChar, SkipFrom, ValueAt, TextAt;
    NameThenWhite(s, p, name, w);
    NameFirst(s, p, name);
  }

  lemma NameFirst(s: string, p: nat, name: string)
    requires ValidName(name) && At(s, p, name)
    ensures p < |s| && SkipFrom(s, p) == p && s[p..p + |name|] == name
  {
    assert s[p] == s[p..p + |name|][0];
  }

  lemma NameThenWhite(s: string, p: nat, name: string, w: string)
    requires ValidName(name) && White(w) && At(s, p, name + w) && p + |name + w| < |s|
    requires !IsWhiteSpace(s[p + |name + w|]) && (w != "" || !IsNameChar(s[p + |name|]))
    ensures At(s, p, name) && NameAt(s, Some(p)) == Some(p + |name|)
    ensures SkipFrom(s, p + |name|) == p + |name| + |w|
  {
    hide At, NameEnd, IsNameChar;
    Split(s, p, name, w);
    var b := p + |name|;
    SkipTo(s, b, w);
    if w != "" {
      Elsewhere(s, b, w, 0);
      WhiteNoName(w[0]);
    }
    NameBack(s, p, name);
  }

  lemma WhiteNoName(c: char)
    ensures IsWhiteSpace(c) ==> !IsNameChar(c)
  {
  }

  /** An element whose children are followed by an end tag of another name. */
  lemma WrongEndTag(s: string, q: nat, e: nat, name: string, attrs: seq<Attr>, kids: seq<Node>, stop: nat)
    requires q <= e < |s| && SkipFrom(s, q) == e && s[e] == '>' && stop < |s|
    requires KidsFrom(s, e + 1, [], None) == Parsed(kids, Some(stop), None) && !At(s, stop, "</" + name)
    ensures TagFrom(s, q, name, attrs, None) == Parsed(Element(name, attrs, kids), None, Some(ReadingEndTag))
  {
    hide At, KidsFrom;
  }

  /** A slash that does not end the tag. */
  lemma StraySlash(s: string, q: nat, e: nat, name: string, attrs: seq<Attr>)
    requires q <= e < |s| && SkipFrom(s, q) == e && s[e] == '/' && (e + 1 < |s| ==> s[e + 1] != '>')
    ensures TagFrom(s, q, name, attrs, None) == Parsed(Element(name, attrs, []), None, Some(ParsingEmpty))
  {
    hide KidsFrom, AttributeAt;
  }

  /** A value without quotes that has one in it, not at its start. */
  lemma {:induction false} StrayQuote(s: string, p: nat, e: nat)
    requires p < e < |s| && s[e] in {'\'', '\"'}
    requires forall i :: p <= i < e ==> !IsWhiteSpace(s[i]) && s[i] !in {'/', '>', '\'', '\"'}
    ensures ValueAt(s, p, None) == Parsed(s[p..e], None, Some(ReadingAttributes))
  {
    BareStops(s, p, e);
  }

  lemma {:induction false} BareStops(s: string, p: nat, e: nat)
    requires p <= e < |s| && s[e] in {'\'', '\"'}
    requires forall i :: p <= i < e ==> !IsWhiteSpace(s[i]) && s[i] !in {'/', '>', '\'', '\"'}
    ensures BareEnd(s, p) == e
    decreases e - p
  {
    hide IsWhiteSpace;
    if p < e {
      BareStops(s, p + 1, e);
    }
  }

  /** A value in quotes without the closing one: no position after it, and so an error of its element. */
  lemma QuoteNotClosed(s: string, p: nat, v: string)
    requires p < |s| && s[p] in {'\'', '\"'} && s[p + 1..] == v && s[p] !in v && '&' !in v
    ensures ValueAt(s, p, None) == Parsed(v, None, None)
  {
    var end := [s[p]];
    assert end == "'" || end == "\"";
    forall i | p + 1 <= i < |s| ensures s[i] != s[p] && s[i] != '&' {
      assert s[i] == v[i - p - 1];
    }
    RawToTheEnd(s, p + 1, end);
  }

  lemma {:induction false} RawToTheEnd(s: string, p: nat, end: string)
    requires p <= |s| && |end| == 1 && forall i :: p <= i < |s| ==> s[i] != end[0] && s[i] != '&'
    ensures RawText(s, p, end) == (s[p..], Some(|s|))
    decreases |s| - p
  {
    if p < |s| {
      assert s[p..p + 1][0] != end[0];
      RawToTheEnd(s, p + 1, end);
      assert s[p..] == [s[p]] + s[p + 1..];
    }
  }

  /** Text that runs to the end of the document without the end tag in it. */
  lemma NoEndTag(s: string, p: nat, v: string, end: string)
    requires At(s, p, v) && p + |v| == |s| && Without(v, end)
    ensures Until(s, p, end) == |s| && s[p..|s|] == v
  {
    hide Until;
    assert s[p..|s|] == v;
    forall i | p <= i < |s| ensures !At(s, i, end) {
      if i + |end| <= |s| {
        AtShifted(s, p, v, i - p, end);
      }
    }
    NotAnywhere(s, p, end);
  }

  lemma NotAnywhere(s: string, p: nat, end: string)
    requires p <= |s| && forall i :: p <= i < |s| ==> !At(s, i, end)
    ensures Until(s, p, end) == |s|
  {
    hide Until, At;
  }

  /** A comment without an end goes on to the end of the document. */
  lemma CommentNoEnd(s: string, p: nat, v: string)
    requires At(s, p, "<!--" + v) && p + 4 + |v| == |s| && Without(v, "-->")
    ensures CommentAt(s, p, None) == Parsed(Comment(v), Some(|s|), None)
  {
    AtConcat(s, p, "<!--", v);
    NoEndTag(s, p + 4, v, "-->");
    assert s[p] == s[p..p + 4][0];
    hide At, Until;
  }

  /** So does an unknown tag. */
  lemma UnknownNoEnd(s: string, p: nat, v: string)
    requires At(s, p, "<" + v) && p + 1 + |v| == |s| && Without(v, ">")
    ensures UnknownAt(s, p, None) == Parsed(Unknown(v), Some(|s|), None)
  {
    AtConcat(s, p, "<", v);
    NoEndTag(s, p + 1, v, ">");
    assert s[p] == s[p..p + 1][0];
    hide At, Until;
  }

  /** A CDATA section without an end has no position after it, and so is an error of its parent if it has one. */
  lemma SectionNoEnd(s: string, p: nat, v: string)
    requires At(s, p, "<![CDATA[" + v) && p + 9 + |v| == |s| && Without(v, "]]>")
    ensures CDataAt(s, p, None) == Parsed(CData(v), None, None)
  {
    AtConcat(s, p, "<![CDATA[", v);
    NoEndTag(s, p + 9, v, "]]>");
    hide At, Until;
  }

  /** A tag, or the children of an element, that the document ends in. */
  lemma Unfinished(s: string, q: nat, name: string, attrs: seq<Attr>, kids: seq<Node>)
    requires q < |s| && SkipFrom(s, q) == |s|
    ensures TagFrom(s, q, name, attrs, None) == Parsed(Element(name, attrs, []), None, Some(ReadingAttributes))
    ensures KidsFrom(s, q, kids, None) == Parsed(kids, Some(|s|), None)
    ensures KidsFrom(s, |s|, kids, None) == Parsed(kids, None, Some(ReadingElementValue))
  {
    hide NodeAt, PlainTextAt, AttributeAt;
  }
}
