/**
 The documents that TinyXML reads without an error, as concrete syntax: every choice that a writer has is a
 part of the tree, so that one document can be written in many ways. Tags, names of entities and digits are spelled
 out here; nothing of the parser is used but the classes of its characters.
 */
module XmlGrammar {
  import opened XmlText
  import opened XmlParser

  // ----- Characters -----

  /** A character as it is, by one of the five names, or by its number. */
  datatype Piece = Letter(c: char) | Entity(c: char) | Coded(hex: bool, digits: string)

  /** The five predefined entities of section 4.6 of XML 1.0. */
  function EntityName(c: char): string {
    if c == '&' then "&amp;"
    else if c == '<' then "&lt;"
    else if c == '>' then "&gt;"
    else if c == '\"' then "&quot;"
    else "&apos;"
  }

  function PieceText(p: Piece): string {
    match p
    case Letter(c) => [c]
    case Entity(c) => EntityName(c)
    case Coded(hex, digits) => (if hex then "&#x" else "&#") + (digits + ";")
  }

  predicate PieceOk(p: Piece) {
    match p
    case Letter(c) => c != '&' && c != '\0'
    case Entity(c) => c in {'&', '<', '>', '\"', '\''}
    case Coded(hex, digits) => digits != "" && AllDigits(digits, if hex then 16 else 10)
  }

  function PieceValue(p: Piece): char {
    match p
    case Letter(c) => c
    case Entity(c) => c
    case Coded(hex, digits) => (Number(digits, if hex then 16 else 10) % 256) as char
  }

  function PiecesText(ps: seq<Piece>): string {
    if ps == [] then "" else PieceText(ps[0]) + PiecesText(ps[1..])
  }

  /** All white space is kept. */
  function Kept(ps: seq<Piece>): string {
    if ps == [] then "" else [PieceValue(ps[0])] + Kept(ps[1..])
  }

  predicate IsSpace(p: Piece) {
    p.Letter? && IsWhiteSpace(p.c)
  }

  /** Each run of white space becomes one space, and none is left at the end; `gap` after white space. */
  function Collapsed(ps: seq<Piece>, gap: bool): string {
    if ps == [] then ""
    else if IsSpace(ps[0]) then Collapsed(ps[1..], true)
    else (if gap then " " else "") + [PieceValue(ps[0])] + Collapsed(ps[1..], false)
  }

  predicate White(w: string) {
    forall i :: 0 <= i < |w| ==> IsWhiteSpace(w[i])
  }

  predicate SameLetters(a: string, b: string) {
    |a| == |b| && forall i :: 0 <= i < |a| ==> ToLower(a[i]) == ToLower(b[i])
  }

  /** The classes of characters, in the C locale for the first 127. */
  lemma CharacterClasses(c: char)
    ensures IsWhiteSpace(c) <==> (c as int) in {32, 9, 10, 11, 12, 13}
    ensures IsNameStart(c) <==> 'a' <= c <= 'z' || 'A' <= c <= 'Z' || c == '_' || (c as int) >= 127
    ensures IsNameChar(c) <==> IsNameStart(c) || '0' <= c <= '9' || c == '-' || c == '.' || c == ':'
  {
  }

  /** Case is ignored for the 26 letters only. */
  lemma LowerCase(i: nat, c: char)
    ensures i < 26 ==> ToLower("ABCDEFGHIJKLMNOPQRSTUVWXYZ"[i]) == "abcdefghijklmnopqrstuvwxyz"[i]
    ensures c !in "ABCDEFGHIJKLMNOPQRSTUVWXYZ" ==> ToLower(c) == c
  {
    if 'A' <= c <= 'Z' {
      assert "ABCDEFGHIJKLMNOPQRSTUVWXYZ"[(c as int) - 65] == c;
    }
  }

  // ----- Attributes -----

  /** In quotes, or bare up to white space or the end of the tag. */
  datatype Value = Quoted(quote: char, pieces: seq<Piece>) | Bare(text: string)

  /** An attribute with all the white space before its parts. */
  datatype Attribute = Attribute(gap: string, name: string, before: string, after: string, value: Value)

  predicate ValueOk(v: Value) {
    match v
    case Quoted(quote, pieces) =>
      quote in {'\"', '\''} && forall i :: 0 <= i < |pieces| ==> PieceOk(pieces[i]) && pieces[i] != Letter(quote)
    case Bare(text) =>
      text != "" && forall i :: 0 <= i < |text| ==> !IsWhiteSpace(text[i]) && text[i] !in {'/', '>', '\'', '\"', '\0'}
  }

  predicate AttributeOk(a: Attribute) {
    White(a.gap) && ValidName(a.name) && '\0' !in a.name && White(a.before) && White(a.after) && ValueOk(a.value)
  }

  function ValueText(v: Value): string {
    match v
    case Quoted(quote, pieces) => [quote] + (PiecesText(pieces) + [quote])
    case Bare(text) => text
  }

  function ValueMeaning(v: Value): string {
    match v
    case Quoted(_, pieces) => Kept(pieces)
    case Bare(text) => text
  }

  function AttributeText(a: Attribute): string {
    a.gap + (a.name + (a.before + ("=" + (a.after + ValueText(a.value)))))
  }

  function AttributesText(attrs: seq<Attribute>): string {
    if attrs == [] then "" else AttributeText(attrs[0]) + AttributesText(attrs[1..])
  }

  function AttributeMeaning(a: Attribute): Attr {
    Attr(a.name, ValueMeaning(a.value))
  }

  function AttributeMeanings(attrs: seq<Attribute>): seq<Attr> {
    if attrs == [] then [] else [AttributeMeaning(attrs[0])] + AttributeMeanings(attrs[1..])
  }

  /** White space stands before an attribute unless it comes after a quote. */
  predicate AttributesOk(attrs: seq<Attribute>, afterQuote: bool) {
    attrs == []
    || (AttributeOk(attrs[0]) && (attrs[0].gap != "" || afterQuote) && AttributesOk(attrs[1..], attrs[0].value.Quoted?))
  }

  predicate DistinctNames(attrs: seq<Attr>) {
    forall i, j :: 0 <= i < j < |attrs| ==> attrs[i].name != attrs[j].name
  }

  // ----- Nodes -----

  datatype Markup =
    | Tag(name: string, attrs: seq<Attribute>, space: string, body: Body)
    | Chars(pieces: seq<Piece>)
    | Section(text: string)
    | Remark(text: string)
    | Other(text: string)
    | Prolog(lead: string, fields: seq<Attribute>, space: string)

  /** An empty tag, or children, white space, and an end tag with white space in it. */
  datatype Body = Closed | Holding(kids: seq<Item>, space: string, closing: string)

  /** Markup with the white space before it. */
  datatype Item = Item(space: string, markup: Markup)

  function MarkupText(m: Markup): string
    decreases m, 1
  {
    match m
    case Tag(name, attrs, space, body) => "<" + (name + (AttributesText(attrs) + (space + BodyText(name, body))))
    case Chars(pieces) => PiecesText(pieces)
    case Section(text) => "<![CDATA[" + (text + "]]>")
    case Remark(text) => "<!--" + (text + "-->")
    case Other(text) => "<" + (text + ">")
    case Prolog(lead, fields, space) => lead + (AttributesText(fields) + (space + "?>"))
  }

  function BodyText(name: string, body: Body): string
    decreases body, 0
  {
    match body
    case Closed => "/>"
    case Holding(kids, space, closing) => ">" + (ItemsText(kids) + (space + ("</" + (name + (closing + ">")))))
  }

  function ItemsText(items: seq<Item>): string
    decreases items, 2
  {
    if items == [] then "" else (items[0].space + MarkupText(items[0].markup)) + ItemsText(items[1..])
  }

  function FieldsMeaning(fields: seq<Attribute>, d: Node): (r: Node)
    requires d.Declaration?
    ensures r.Declaration?
    decreases fields
  {
    if fields == [] then d
    else
      var v := ValueMeaning(fields[0].value);
      FieldsMeaning(fields[1..],
                    if SameLetters(fields[0].name, "version") then d.(version := v)
                    else if SameLetters(fields[0].name, "encoding") then d.(encoding := v)
                    else d.(standalone := v))
  }

  function Meaning(m: Markup): Node
    decreases m, 1
  {
    match m
    case Tag(name, attrs, _, body) => Element(name, AttributeMeanings(attrs), BodyMeaning(body))
    case Chars(pieces) => Text(Collapsed(pieces, false))
    case Section(text) => CData(text)
    case Remark(text) => Comment(text)
    case Other(text) => Unknown(text)
    case Prolog(_, fields, _) => FieldsMeaning(fields, Declaration("", "", ""))
  }

  function BodyMeaning(body: Body): seq<Node>
    decreases body, 0
  {
    match body
    case Closed => []
    case Holding(kids, _, _) => Meanings(kids)
  }

  /** Text that is blank, by references to white space, makes no node. */
  function Meanings(items: seq<Item>): seq<Node>
    decreases items, 2
  {
    if items == [] then []
    else
      (if items[0].markup.Chars? && White(Collapsed(items[0].markup.pieces, false)) then [] else [Meaning(items[0].markup)])
      + Meanings(items[1..])
  }

  predicate Without(v: string, tag: string) {
    forall i :: 0 <= i < |v| ==> !At(v, i, tag)
  }

  predicate StartsWith(v: string, start: string) {
    |start| <= |v| && v[..|start|] == start
  }

  /** What the angle brackets of an unknown tag may hold: no end tag, declaration, comment, CDATA section or name. */
  predicate OtherOk(text: string) {
    && '>' !in text && '\0' !in text && !StartsWith(text, "/")
    && !(|text| >= 4 && SameLetters(text[..4], "?xml")) && !StartsWith(text, "!--") && !StartsWith(text, "![CDATA[")
    && (text != "" ==> !IsNameStart(text[0]))
  }

  predicate FieldName(name: string) {
    SameLetters(name, "version") || SameLetters(name, "encoding") || SameLetters(name, "standalone")
  }

  predicate CharsOk(pieces: seq<Piece>) {
    && pieces != [] && !IsSpace(pieces[0])
    && forall i :: 0 <= i < |pieces| ==> PieceOk(pieces[i]) && pieces[i] != Letter('<')
  }

  predicate MarkupOk(m: Markup)
    decreases m, 1
  {
    match m
    case Tag(name, attrs, space, body) =>
      && ValidName(name) && '\0' !in name && AttributesOk(attrs, false) && DistinctNames(AttributeMeanings(attrs))
      && White(space) && BodyOk(body)
    case Chars(pieces) => CharsOk(pieces)
    case Section(text) => '\0' !in text && Without(text, "]]>")
    case Remark(text) => '\0' !in text && Without(text, "-->")
    case Other(text) => OtherOk(text)
    case Prolog(lead, fields, space) =>
      && SameLetters(lead, "<?xml") && AttributesOk(fields, false) && White(space)
      && (forall i :: 0 <= i < |fields| ==> FieldName(fields[i].name))
      && (fields != [] && fields[|fields| - 1].value.Bare? ==> space != "")
  }

  predicate BodyOk(body: Body)
    decreases body, 0
  {
    body.Closed? || (ItemsOk(body.kids) && White(body.space) && White(body.closing))
  }

  /** No two texts side by side. */
  predicate ItemsOk(items: seq<Item>)
    decreases items, 2
  {
    items == []
    || (&& White(items[0].space) && MarkupOk(items[0].markup) && ItemsOk(items[1..])
        && !(items[0].markup.Chars? && |items| > 1 && items[1].markup.Chars?))
  }

  /** Markup on the top level, with white space after it. */
  predicate DocumentOk(items: seq<Item>, after: string) {
    ItemsOk(items) && White(after) && forall i :: 0 <= i < |items| ==> !items[i].markup.Chars?
  }
}
