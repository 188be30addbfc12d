/** The loops of tinyxmlparser.cpp, each computing what XmlParser says of the document. */
module XmlParse {
  import opened Wrappers
  import opened XmlText
  import opened XmlParser
  import XmlPrinter
  import XmlRoundTrip

  // ----- Leaves -----

  /** The loop that appends to a value up to the end tag. */
  method ReadUntil(s: string, start: nat, endTag: string) returns (value: string, p: nat)
    requires start <= |s|
    ensures p == Until(s, start, endTag) && value == s[start..p]
  {
    value, p := "", start;
    while p < |s|
      invariant start <= p <= |s| && Until(s, start, endTag) == Until(s, p, endTag)
      invariant value == s[start..p]
    {
      var atEnd := StringEqual(s, p, endTag, false);
      if atEnd {
        break;
      }
      value, p := value + [s[p]], p + 1;
    }
  }

  method ParseComment(s: string, p: nat, err: Option<Error>) returns (r: Parsed<Node>)
    requires p <= |s|
    ensures r == CommentAt(s, p, err)
  {
    var q := SkipWhiteSpace(s, Some(p));
    if q.None? {
      return Parsed(Comment(""), None, SetError(err, ParsingComment));
    }
    var starts := StringEqual(s, q.value, COMMENT, false);
    if !starts {
      return Parsed(Comment(""), None, SetError(err, ParsingComment));
    }
    var value, stop := ReadUntil(s, q.value + |COMMENT|, COMMENT_END);
    if stop < |s| {
      stop := stop + |COMMENT_END|;
    }
    r := Parsed(Comment(value), Some(stop), err);
  }

  method ParseCData(s: string, p: nat, err: Option<Error>) returns (r: Parsed<Node>)
    requires p <= |s|
    ensures r == CDataAt(s, p, err)
  {
    var starts := StringEqual(s, p, CDATA, false);
    if !starts {
      return Parsed(CData(""), None, SetError(err, ParsingCData));
    }
    var value, stop := ReadUntil(s, p + |CDATA|, CDATA_END);
    var dummy, next := ReadText(s, Some(stop), false, CDATA_END);
    r := Parsed(CData(value), next, err);
  }

  method ParseUnknown(s: string, p: nat, err: Option<Error>) returns (r: Parsed<Node>)
    requires p <= |s|
    ensures r == UnknownAt(s, p, err)
  {
    var q := SkipWhiteSpace(s, Some(p));
    if q.None? || q.value == |s| || s[q.value] != '<' {
      return Parsed(Unknown(""), None, SetError(err, ParsingUnknown));
    }
    var value, i := ReadUnknown(s, q.value + 1);
    if i < |s| {
      i := i + 1;
    }
    r := Parsed(Unknown(value), Some(i), err);
  }

  method ReadUnknown(s: string, start: nat) returns (value: string, p: nat)
    requires start <= |s|
    ensures p == Until(s, start, ">") && value == s[start..p]
  {
    value, p := "", start;
    while p < |s| && s[p] != '>'
      invariant start <= p <= |s| && Until(s, start, ">") == Until(s, p, ">") && value == s[start..p]
    {
      assert s[p..p + 1][0] != '>';
      value, p := value + [s[p]], p + 1;
    }
    assert p < |s| ==> s[p..p + 1] == ">";
  }

  // ----- Attributes -----

  method ParseAttribute(s: string, p: Option<nat>, err: Option<Error>) returns (r: Parsed<Attr>)
    requires p.Some? ==> p.value <= |s|
    ensures r == AttributeAt(s, p, err)
  {
    hide ValueAt, Skip, NameAt;
    var p1 := SkipWhiteSpace(s, p);
    if p1.None? || p1.value == |s| {
      return Parsed(Attr("", ""), None, err);
    }
    var afterName, name := ReadName(s, p1);
    if afterName.None? || afterName.value == |s| {
      return Parsed(Attr(name, ""), None, SetError(err, ReadingAttributes));
    }
    var eq := SkipWhiteSpace(s, afterName);
    if eq.None? || eq.value == |s| || s[eq.value] != '=' {
      return Parsed(Attr(name, ""), None, SetError(err, ReadingAttributes));
    }
    var start := SkipWhiteSpace(s, Some(eq.value + 1));
    if start.None? || start.value == |s| {
      return Parsed(Attr(name, ""), None, SetError(err, ReadingAttributes));
    }
    var value := ReadAttributeValue(s, start.value, err);
    r := Parsed(Attr(name, value.value), value.next, value.err);
  }

  method ReadAttributeValue(s: string, p: nat, err: Option<Error>) returns (r: Parsed<string>)
    requires p < |s|
    ensures r == ValueAt(s, p, err)
  {
    hide TextAt;
    if s[p] == '\'' {
      var value, next := ReadText(s, Some(p + 1), false, "'");
      return Parsed(value, next, err);
    }
    if s[p] == '\"' {
      var value, next := ReadText(s, Some(p + 1), false, "\"");
      return Parsed(value, next, err);
    }
    var q, value := p, "";
    while q < |s| && !IsWhiteSpace(s[q]) && s[q] != '/' && s[q] != '>'
      invariant p <= q <= |s| && BareEnd(s, p) == BareEnd(s, q) && value == s[p..q]
    {
      if s[q] == '\'' || s[q] == '\"' {
        return Parsed(value, None, SetError(err, ReadingAttributes));
      }
      value, q := value + [s[q]], q + 1;
    }
    r := Parsed(value, Some(q), err);
  }

  // ----- The declaration -----

  method ParseDeclaration(s: string, p: nat, err: Option<Error>) returns (r: Parsed<Node>)
    requires p <= |s|
    ensures r == DeclarationAt(s, p, err)
  {
    hide AttributeAt, AtNoCase;
    var d := Declaration("", "", "");
    var start := SkipWhiteSpace(s, Some(p));
    if start.None? {
      return Parsed(d, None, SetError(err, ParsingDeclaration));
    }
    var starts := StringEqual(s, start.value, DECLARATION, true);
    if !starts {
      return Parsed(d, None, SetError(err, ParsingDeclaration));
    }
    StartsInside(s, start.value, DECLARATION);
    var q := Some(start.value + |DECLARATION|);
    while q.Some? && q.value < |s|
      invariant q.Some? ==> q.value <= |s|
      invariant d.Declaration? && DeclarationAt(s, p, err) == DeclarationFrom(s, q, d, err)
      decreases if q.Some? then |s| - q.value + 1 else 0
    {
      if s[q.value] == '>' {
        return Parsed(d, Some(q.value + 1), err);
      }
      d, q := ParseField(s, q.value, d, err);
    }
    r := Parsed(d, None, err);
  }

  lemma StartsInside(s: string, p: nat, tag: string)
    requires AtNoCase(s, p, tag)
    ensures p + |tag| <= |s|
  {
  }

  /** One round of that loop. */
  method ParseField(s: string, p: nat, d: Node, err: Option<Error>) returns (d': Node, q: Option<nat>)
    requires p < |s| && s[p] != '>' && d.Declaration?
    ensures q.Some? ==> p < q.value <= |s|
    ensures d'.Declaration? && DeclarationFrom(s, Some(p), d, err) == DeclarationFrom(s, q, d', err)
  {
    hide AttributeAt, AtNoCase;
    d' := d;
    var start := SkipWhiteSpace(s, Some(p));
    var version := StringEqual(s, start.value, "version", true);
    var encoding := StringEqual(s, start.value, "encoding", true);
    var standalone := StringEqual(s, start.value, "standalone", true);
    if version || encoding || standalone {
      var a := ParseAttribute(s, start, err);
      q := a.next;
      d' := if version then d.(version := a.value.value)
            else if encoding then d.(encoding := a.value.value)
            else d.(standalone := a.value.value);
    } else {
      var i := start.value;
      while i < |s| && s[i] != '>' && !IsWhiteSpace(s[i])
        invariant start.value <= i <= |s| && OverWord(s, start.value) == OverWord(s, i)
      {
        i := i + 1;
      }
      q := Some(i);
    }
  }

  // ----- Nodes -----

  method IdentifyNode(s: string, p: nat) returns (kind: Kind)
    requires p < |s| && s[p] == '<'
    ensures kind == Identify(s, p)
  {
    hide At, AtNoCase;
    var isDeclaration := StringEqual(s, p, DECLARATION, true);
    if isDeclaration {
      return ADeclaration;
    }
    var isComment := StringEqual(s, p, COMMENT, false);
    if isComment {
      return AComment;
    }
    var isCData := StringEqual(s, p, CDATA, false);
    if isCData {
      return ACData;
    }
    var isDtd := StringEqual(s, p, DTD, false);
    if isDtd {
      return AnUnknown;
    }
    kind := if p + 1 < |s| && IsNameStart(s[p + 1]) then AnElement else AnUnknown;
  }

  method ParseNode(s: string, p: nat, err: Option<Error>) returns (r: Parsed<Node>)
    requires p < |s| && s[p] == '<'
    ensures r == NodeAt(s, p, err)
    decreases |s| - p, 2
  {
    hide Identify, ElementAt, CDataAt, CommentAt, UnknownAt, DeclarationAt;
    var kind := IdentifyNode(s, p);
    match kind {
      case AnElement => r := ParseElement(s, p, err);
      case ACData => r := ParseCData(s, p, err);
      case AComment => r := ParseComment(s, p, err);
      case AnUnknown => r := ParseUnknown(s, p, err);
      case ADeclaration => r := ParseDeclaration(s, p, err);
    }
  }

  method ParseEndTag(s: string, p: nat, name: string) returns (next: Option<nat>)
    requires p < |s|
    ensures next == EndOfTag(s, p, name)
  {
    var endTag := END_TAG + name;
    var found := StringEqual(s, p, endTag, false);
    if !found {
      return None;
    }
    var close := SkipWhiteSpace(s, Some(p + |endTag|));
    next := if close.Some? && close.value < |s| && s[close.value] == '>' then Some(close.value + 1) else None;
  }

  method ParseElement(s: string, p: nat, err: Option<Error>) returns (r: Parsed<Node>)
    requires p < |s| && s[p] == '<'
    ensures r == ElementAt(s, p, err)
    decreases |s| - p, 1
  {
    hide TagFrom, SkipFrom, NameEnd;
    var start := SkipWhiteSpace(s, Some(p + 1));
    var afterName, name := ReadName(s, start);
    if afterName.None? || afterName.value == |s| {
      return Parsed(Element(name, [], []), None, SetError(err, FailedToReadElementName));
    }
    r := ParseTag(s, afterName.value, name, err);
  }

  /** The loop over the attributes of an element, and its end. */
  method ParseTag(s: string, p: nat, name: string, err: Option<Error>) returns (r: Parsed<Node>)
    requires p < |s|
    ensures r == TagFrom(s, p, name, [], err)
    decreases |s| - p, 0
  {
    hide AttributeAt, EndOfTag, KidsFrom, SkipFrom, HasAttr, ElementAt;
    var q, attrs, err' := p, [], err;
    ghost var goal := TagFrom(s, p, name, [], err);
    while true
      invariant p <= q < |s| && goal == TagFrom(s, q, name, attrs, err')
      decreases |s| - q
    {
      var at := SkipWhiteSpace(s, Some(q));
      if at.None? || at.value == |s| {
        return Parsed(Element(name, attrs, []), None, SetError(err', ReadingAttributes));
      }
      if s[at.value] == '/' {
        if at.value + 1 == |s| || s[at.value + 1] != '>' {
          return Parsed(Element(name, attrs, []), None, SetError(err', ParsingEmpty));
        }
        return Parsed(Element(name, attrs, []), Some(at.value + 2), err');
      }
      if s[at.value] == '>' {
        var v := ReadValue(s, at.value + 1, err');
        var e := Element(name, attrs, v.value);
        if v.next.None? || v.next.value == |s| {
          return Parsed(e, None, SetError(v.err, ReadingEndTag));
        }
        var end := ParseEndTag(s, v.next.value, name);
        return Parsed(e, end, if end.Some? then v.err else SetError(v.err, ReadingEndTag));
      }
      var a := ParseAttribute(s, at, err');
      if a.next.None? || a.next.value == |s| {
        return Parsed(Element(name, attrs, []), None, SetError(a.err, ParsingElement));
      }
      var twice := FindAttribute(attrs, a.value.name);
      if twice {
        return Parsed(Element(name, attrs, []), None, SetError(a.err, ParsingElement));
      }
      q, attrs, err' := a.next.value, attrs + [a.value], a.err;
    }
  }

  method FindAttribute(attrs: seq<Attr>, name: string) returns (found: bool)
    ensures found == HasAttr(attrs, name)
  {
    for i := 0 to |attrs|
      invariant forall j :: 0 <= j < i ==> attrs[j].name != name
    {
      if attrs[i].name == name {
        return true;
      }
    }
    found := false;
  }

  method ReadValue(s: string, start: nat, err: Option<Error>) returns (r: Parsed<seq<Node>>)
    requires start <= |s|
    ensures r == KidsFrom(s, start, [], err)
    decreases |s| - start, 3
  {
    hide NodeAt, TextAt, At, SkipFrom;
    var p, kids, err' := start, [], err;
    while true
      invariant start <= p <= |s| && KidsFrom(s, start, [], err) == KidsFrom(s, p, kids, err')
      decreases |s| - p
    {
      var q := SkipWhiteSpace(s, Some(p));
      if q.None? {
        return Parsed(kids, None, SetError(err', ReadingElementValue));
      }
      if q.value == |s| {
        return Parsed(kids, q, err');
      }
      var next: Option<nat>;
      if s[q.value] != '<' {
        var t := ParsePlainText(s, q.value, err');
        var blank := IsBlank(t.value);
        if !blank {
          kids := kids + [Text(t.value)];
        }
        next, err' := t.next, t.err;
      } else {
        var atEnd := StringEqual(s, q.value, END_TAG, false);
        if atEnd {
          return Parsed(kids, q, err');
        }
        var n := ParseNode(s, q.value, err');
        kids, next, err' := kids + [n.value], n.next, n.err;
      }
      if next.None? {
        return Parsed(kids, None, SetError(err', ReadingElementValue));
      }
      p := next.value;
    }
  }

  method ParsePlainText(s: string, p: nat, err: Option<Error>) returns (r: Parsed<string>)
    requires p < |s| && !IsWhiteSpace(s[p]) && s[p] != '<'
    ensures r == PlainTextAt(s, p, err)
  {
    hide TextAt;
    var text, next := ReadText(s, Some(p), true, "<");
    r := Parsed(text, if next.Some? then Some(next.value - 1) else None, err);
  }

  method IsBlank(value: string) returns (blank: bool)
    ensures blank == Blank(value)
  {
    for i := 0 to |value|
      invariant forall j :: 0 <= j < i ==> IsWhiteSpace(value[j])
    {
      if !IsWhiteSpace(value[i]) {
        return false;
      }
    }
    blank := true;
  }

  method ParseDocument(s: string) returns (r: Parsed<seq<Node>>)
    ensures r == DocumentOf(s)
  {
    hide NodeAt, SkipFrom;
    var p := SkipWhiteSpace(s, Some(0));
    if p.None? {
      return Parsed([], None, Some(DocumentEmpty));
    }
    var kids, err := [], None;
    ghost var first := p;
    while p.Some? && p.value < |s| && s[p.value] == '<'
      invariant p.Some? ==> p.value <= |s|
      invariant DocumentFrom(s, first, [], None) == DocumentFrom(s, p, kids, err)
      decreases if p.Some? then |s| - p.value + 1 else 0
    {
      var n := ParseNode(s, p.value, err);
      kids, err := kids + [n.value], n.err;
      p := SkipWhiteSpace(s, n.next);
    }
    if kids == [] {
      return Parsed([], None, SetError(err, DocumentEmpty));
    }
    r := Parsed(kids, p, err);
  }

  // ----- Printer and parser together -----

  /** A document, printed and parsed: nothing is lost. */
  method PrintAndParse(kids: seq<Node>, stream: bool) returns (r: Parsed<seq<Node>>)
    requires kids != [] && XmlRoundTrip.LegalDocument(kids)
    ensures r.value == kids && r.err == None
  {
    hide DocumentOf, XmlPrinter.LaidAll, XmlPrinter.Leaf, XmlRoundTrip.LegalDocument, XmlRoundTrip.LegalLayout;
    var printer := new XmlPrinter.TiXmlPrinter();
    if stream {
      printer.SetStreamPrinting();
    }
    ghost var lay := printer.Lay();
    PrinterLayouts();
    printer.AcceptAll(kids);
    assert printer.buffer == XmlPrinter.LaidAll(kids, lay, 0);
    r := ParseDocument(printer.buffer);
    XmlRoundTrip.RoundTrip(kids, lay);
  }

  lemma PrinterLayouts()
    ensures XmlRoundTrip.LegalLayout(XmlPrinter.DEFAULT_LAYOUT) && XmlRoundTrip.LegalLayout(XmlPrinter.STREAM_LAYOUT)
  {
  }
}
