/**
 The recursive-descent parser of tinyxmlparser.cpp: what each Parse makes of the document from a
 position on. Each result has the node, which is linked into the tree even when its parse fails, the
 position after it (None is the null pointer), and the document's error.
 */
module XmlParser {
  import opened Wrappers
  import opened XmlText

  datatype Attr = Attr(name: string, value: string)

  datatype Node =
    | Element(name: string, attrs: seq<Attr>, kids: seq<Node>)
    | Text(value: string)
    | CData(value: string)
    | Comment(value: string)
    | Unknown(value: string)
    | Declaration(version: string, encoding: string, standalone: string)

  datatype Error =
    | FailedToReadElementName | ReadingAttributes | ReadingElementValue | ReadingEndTag
    | ParsingElement | ParsingEmpty | ParsingUnknown | ParsingComment | ParsingCData | ParsingDeclaration
    | DocumentEmpty

  datatype Parsed<T> = Parsed(value: T, next: Option<nat>, err: Option<Error>)

  /** SetError keeps the first error. */
  function SetError(err: Option<Error>, e: Error): Option<Error> {
    if err.Some? then err else Some(e)
  }

  const DECLARATION := "<?xml"
  const COMMENT := "<!--"
  const COMMENT_END := "-->"
  const CDATA := "<![CDATA["
  const CDATA_END := "]]>"
  const DTD := "<!"
  const END_TAG := "</"

  // ----- Leaves -----

  /** The first position from p on where `end` starts, or the end of the document. */
  function Until(s: string, p: nat, end: string): (q: nat)
    requires p <= |s|
    ensures p <= q <= |s|
    ensures q < |s| ==> At(s, q, end)
    ensures forall i :: p <= i < q ==> !At(s, i, end)
    decreases |s| - p
  {
    if p == |s| || At(s, p, end) then p else Until(s, p + 1, end)
  }

  /** TiXmlComment::Parse */
  function CommentAt(s: string, p: nat, err: Option<Error>): (r: Parsed<Node>)
    requires p <= |s|
    ensures r.value.Comment?
    ensures r.next.Some? ==> p < r.next.value <= |s|
  {
    match Skip(s, Some(p))
    case None => Parsed(Comment(""), None, SetError(err, ParsingComment))
    case Some(q) =>
      if !At(s, q, COMMENT) then Parsed(Comment(""), None, SetError(err, ParsingComment))
      else
        var start := q + |COMMENT|;
        var stop := Until(s, start, COMMENT_END);
        Parsed(Comment(s[start..stop]), Some(if stop < |s| then stop + |COMMENT_END| else stop), err)
  }

  /** TiXmlText::Parse for a node marked as CDATA. */
  function CDataAt(s: string, p: nat, err: Option<Error>): (r: Parsed<Node>)
    requires p <= |s|
    ensures r.value.CData?
    ensures r.next.Some? ==> p < r.next.value < |s|
  {
    if !At(s, p, CDATA) then Parsed(CData(""), None, SetError(err, ParsingCData))
    else
      var start := p + |CDATA|;
      var stop := Until(s, start, CDATA_END);
      var (dummy, next) := TextAt(s, Some(stop), false, CDATA_END);
      Parsed(CData(s[start..stop]), next, err)
  }

  /** TiXmlText::Parse otherwise: up to the next tag, without truncating its '<'. */
  function PlainTextAt(s: string, p: nat, err: Option<Error>): (r: Parsed<string>)
    requires p < |s| && !IsWhiteSpace(s[p]) && s[p] != '<'
    ensures r.next.Some? ==> p < r.next.value < |s| && s[r.next.value] == '<'
    ensures r.err == err
  {
    var (text, next) := TextAt(s, Some(p), true, "<");
    assert next.Some? ==> s[next.value - 1..next.value] == "<";
    assert s[p..p + 1][0] != '<';
    Parsed(text, if next.Some? then Some(next.value - 1) else None, err)
  }

  /** TiXmlText::Blank */
  predicate Blank(v: string) {
    forall i :: 0 <= i < |v| ==> IsWhiteSpace(v[i])
  }

  /** TiXmlUnknown::Parse */
  function UnknownAt(s: string, p: nat, err: Option<Error>): (r: Parsed<Node>)
    requires p <= |s|
    ensures r.value.Unknown?
    ensures r.next.Some? ==> p < r.next.value <= |s|
  {
    match Skip(s, Some(p))
    case None => Parsed(Unknown(""), None, SetError(err, ParsingUnknown))
    case Some(q) =>
      if q == |s| || s[q] != '<' then Parsed(Unknown(""), None, SetError(err, ParsingUnknown))
      else
        var stop := Until(s, q + 1, ">");
        Parsed(Unknown(s[q + 1..stop]), Some(if stop < |s| then stop + 1 else stop), err)
  }

  // ----- Attributes -----

  /** The end of a value without quotes. */
  function BareEnd(s: string, p: nat): (q: nat)
    requires p <= |s|
    ensures p <= q <= |s|
    decreases |s| - p
  {
    if p == |s| || IsWhiteSpace(s[p]) || s[p] == '/' || s[p] == '>' || s[p] == '\'' || s[p] == '\"' then p
    else BareEnd(s, p + 1)
  }

  /** The value of an attribute after its equals sign. */
  function ValueAt(s: string, p: nat, err: Option<Error>): (r: Parsed<string>)
    requires p < |s|
    ensures r.next.Some? ==> p <= r.next.value <= |s|
  {
    if s[p] == '\'' then
      var (v, next) := TextAt(s, Some(p + 1), false, "'");
      Parsed(v, next, err)
    else if s[p] == '\"' then
      var (v, next) := TextAt(s, Some(p + 1), false, "\"");
      Parsed(v, next, err)
    else
      var q := BareEnd(s, p);
      if q < |s| && (s[q] == '\'' || s[q] == '\"') then Parsed(s[p..q], None, SetError(err, ReadingAttributes))
      else Parsed(s[p..q], Some(q), err)
  }

  /** TiXmlAttribute::Parse */
  function AttributeAt(s: string, p: Option<nat>, err: Option<Error>): (r: Parsed<Attr>)
    requires p.Some? ==> p.value <= |s|
    ensures r.next.Some? ==> p.Some? && p.value < r.next.value <= |s|
  {
    match Skip(s, p)
    case None => Parsed(Attr("", ""), None, err)
    case Some(p1) =>
      if p1 == |s| then Parsed(Attr("", ""), None, err)
      else
        var afterName := NameAt(s, Some(p1));
        var name := if afterName.Some? then s[p1..afterName.value] else "";
        if afterName.None? || afterName.value == |s| then
          Parsed(Attr(name, ""), None, SetError(err, ReadingAttributes))
        else
          var eq := Skip(s, afterName);
          if eq.None? || eq.value == |s| || s[eq.value] != '=' then
            Parsed(Attr(name, ""), None, SetError(err, ReadingAttributes))
          else
            var start := Skip(s, Some(eq.value + 1));
            if start.None? || start.value == |s| then
              Parsed(Attr(name, ""), None, SetError(err, ReadingAttributes))
            else
              var v := ValueAt(s, start.value, err);
              Parsed(Attr(name, v.value), v.next, v.err)
  }

  /** TiXmlAttributeSet::Find */
  predicate HasAttr(attrs: seq<Attr>, name: string) {
    exists i :: 0 <= i < |attrs| && attrs[i].name == name
  }

  // ----- The declaration -----

  /** Where something that is no known attribute of a declaration stops. */
  function OverWord(s: string, p: nat): (q: nat)
    requires p <= |s|
    ensures p <= q <= |s|
    ensures p < |s| && s[p] != '>' && !IsWhiteSpace(s[p]) ==> p < q
    decreases |s| - p
  {
    if p < |s| && s[p] != '>' && !IsWhiteSpace(s[p]) then OverWord(s, p + 1) else p
  }

  /** The loop of TiXmlDeclaration::Parse. Its attributes belong to no document and report no error. */
  function DeclarationFrom(s: string, p: Option<nat>, d: Node, err: Option<Error>): (r: Parsed<Node>)
    requires p.Some? ==> p.value <= |s|
    requires d.Declaration?
    ensures r.value.Declaration?
    ensures r.next.Some? ==> p.Some? && p.value < r.next.value <= |s|
    decreases if p.Some? then |s| - p.value + 1 else 0
  {
    if p.None? || p.value == |s| then Parsed(d, None, err)
    else if s[p.value] == '>' then Parsed(d, Some(p.value + 1), err)
    else
      var q := SkipFrom(s, p.value);
      var a := AttributeAt(s, Some(q), err);
      if AtNoCase(s, q, "version") then DeclarationFrom(s, a.next, d.(version := a.value.value), err)
      else if AtNoCase(s, q, "encoding") then DeclarationFrom(s, a.next, d.(encoding := a.value.value), err)
      else if AtNoCase(s, q, "standalone") then DeclarationFrom(s, a.next, d.(standalone := a.value.value), err)
      else DeclarationFrom(s, Some(OverWord(s, q)), d, err)
  }

  /** TiXmlDeclaration::Parse */
  function DeclarationAt(s: string, p: nat, err: Option<Error>): (r: Parsed<Node>)
    requires p <= |s|
    ensures r.value.Declaration?
    ensures r.next.Some? ==> p < r.next.value <= |s|
  {
    var d := Declaration("", "", "");
    match Skip(s, Some(p))
    case None => Parsed(d, None, SetError(err, ParsingDeclaration))
    case Some(q) =>
      if !AtNoCase(s, q, DECLARATION) then Parsed(d, None, SetError(err, ParsingDeclaration))
      else DeclarationFrom(s, Some(q + |DECLARATION|), d, err)
  }

  // ----- Nodes -----

  datatype Kind = AnElement | ACData | AComment | AnUnknown | ADeclaration

  /** TiXmlNode::Identify for a p that points to '<'. */
  function Identify(s: string, p: nat): Kind
    requires p < |s| && s[p] == '<'
  {
    if AtNoCase(s, p, DECLARATION) then ADeclaration
    else if At(s, p, COMMENT) then AComment
    else if At(s, p, CDATA) then ACData
    else if At(s, p, DTD) then AnUnknown
    else if p + 1 < |s| && IsNameStart(s[p + 1]) then AnElement
    else AnUnknown
  }

  /** Identify, and the Parse of the node it makes. */
  function NodeAt(s: string, p: nat, err: Option<Error>): (r: Parsed<Node>)
    requires p < |s| && s[p] == '<'
    ensures r.next.Some? ==> p < r.next.value <= |s|
    decreases |s| - p, 3
  {
    match Identify(s, p)
    case AnElement => ElementAt(s, p, err)
    case ACData => CDataAt(s, p, err)
    case AComment => CommentAt(s, p, err)
    case AnUnknown => UnknownAt(s, p, err)
    case ADeclaration => DeclarationAt(s, p, err)
  }

  /** TiXmlElement::Parse */
  function ElementAt(s: string, p: nat, err: Option<Error>): (r: Parsed<Node>)
    requires p < |s| && s[p] == '<'
    ensures r.value.Element?
    ensures r.next.Some? ==> p < r.next.value <= |s|
    decreases |s| - p, 2
  {
    var start := Skip(s, Some(p + 1));
    var q := NameAt(s, start);
    var name := if q.Some? then s[start.value..q.value] else "";
    if q.None? || q.value == |s| then
      Parsed(Element(name, [], []), None, SetError(err, FailedToReadElementName))
    else TagFrom(s, q.value, name, [], err)
  }

  /** The loop of TiXmlElement::Parse, after some attributes. */
  function TagFrom(s: string, p: nat, name: string, attrs: seq<Attr>, err: Option<Error>): (r: Parsed<Node>)
    requires p < |s|
    ensures r.value.Element?
    ensures r.next.Some? ==> p < r.next.value <= |s|
    decreases |s| - p, 1
  {
    var q := Skip(s, Some(p));
    if q.None? || q.value == |s| then
      Parsed(Element(name, attrs, []), None, SetError(err, ReadingAttributes))
    else if s[q.value] == '/' then
      if q.value + 1 == |s| || s[q.value + 1] != '>' then
        Parsed(Element(name, attrs, []), None, SetError(err, ParsingEmpty))
      else Parsed(Element(name, attrs, []), Some(q.value + 2), err)
    else if s[q.value] == '>' then
      var v := KidsFrom(s, q.value + 1, [], err);
      var e := Element(name, attrs, v.value);
      if v.next.None? || v.next.value == |s| then Parsed(e, None, SetError(v.err, ReadingEndTag))
      else Parsed(e, EndOfTag(s, v.next.value, name),
                  if EndOfTag(s, v.next.value, name).Some? then v.err else SetError(v.err, ReadingEndTag))
    else
      var a := AttributeAt(s, q, err);
      if a.next.None? || a.next.value == |s| || HasAttr(attrs, a.value.name) then
        Parsed(Element(name, attrs, []), None, SetError(a.err, ParsingElement))
      else TagFrom(s, a.next.value, name, attrs + [a.value], a.err)
  }

  /** The end tag of an element, which white space may follow before its '>'. */
  function EndOfTag(s: string, p: nat, name: string): (q: Option<nat>)
    requires p < |s|
    ensures q.Some? ==> p < q.value <= |s|
  {
    if !At(s, p, END_TAG + name) then None
    else
      var close := Skip(s, Some(p + |END_TAG + name|));
      if close.Some? && close.value < |s| && s[close.value] == '>' then Some(close.value + 1) else None
  }

  /** The loop of TiXmlElement::ReadValue, after some children. */
  function KidsFrom(s: string, p: nat, kids: seq<Node>, err: Option<Error>): (r: Parsed<seq<Node>>)
    requires p <= |s|
    ensures r.next.Some? ==> p <= r.next.value <= |s|
    decreases |s| - p, 4
  {
    var q := Skip(s, Some(p));
    if q.None? then Parsed(kids, None, SetError(err, ReadingElementValue))
    else if q.value == |s| then Parsed(kids, q, err)
    else if s[q.value] != '<' then
      var t := PlainTextAt(s, q.value, err);
      var kids' := if Blank(t.value) then kids else kids + [Text(t.value)];
      if t.next.None? then Parsed(kids', None, SetError(t.err, ReadingElementValue))
      else KidsFrom(s, t.next.value, kids', t.err)
    else if At(s, q.value, END_TAG) then Parsed(kids, q, err)
    else
      var n := NodeAt(s, q.value, err);
      if n.next.None? then Parsed(kids + [n.value], None, SetError(n.err, ReadingElementValue))
      else KidsFrom(s, n.next.value, kids + [n.value], n.err)
  }

  /** The loop of TiXmlDocument::Parse, after some nodes. */
  function DocumentFrom(s: string, p: Option<nat>, kids: seq<Node>, err: Option<Error>): (r: Parsed<seq<Node>>)
    requires p.Some? ==> p.value <= |s|
    decreases if p.Some? then |s| - p.value + 1 else 0
  {
    if p.None? || p.value == |s| || s[p.value] != '<' then Parsed(kids, p, err)
    else
      var n := NodeAt(s, p.value, err);
      DocumentFrom(s, Skip(s, n.next), kids + [n.value], n.err)
  }

  /** TiXmlDocument::Parse */
  function DocumentOf(s: string): Parsed<seq<Node>> {
    var p := Skip(s, Some(0));
    if p.None? then Parsed([], None, Some(DocumentEmpty))
    else
      var r := DocumentFrom(s, p, [], None);
      if r.value == [] then Parsed([], None, SetError(r.err, DocumentEmpty)) else r
  }
}
