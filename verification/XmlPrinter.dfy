/** TiXmlPrinter: a visitor that appends to a buffer, and what it writes for each tree. */
module XmlPrinter {
  import opened XmlText
  import opened XmlParser

  // ----- What is written -----

  /** The two strings a printer lays a document out with. */
  datatype Layout = Layout(indent: string, lineBreak: string)

  const DEFAULT_LAYOUT := Layout("    ", "\n")
  const STREAM_LAYOUT := Layout("", "")

  function Indented(lay: Layout, depth: nat): string {
    if depth == 0 then "" else lay.indent + Indented(lay, depth - 1)
  }

  /** TiXmlAttribute::Print */
  function PrintAttr(a: Attr): string {
    var q := if '\"' in a.value then "'" else "\"";
    Encoded(a.name, 0) + "=" + q + Encoded(a.value, 0) + q
  }

  function PrintAttrs(attrs: seq<Attr>): string {
    if attrs == [] then "" else " " + PrintAttr(attrs[0]) + PrintAttrs(attrs[1..])
  }

  /** An element whose only child is plain text is written on one line. */
  predicate IsSimple(kids: seq<Node>) {
    |kids| == 1 && kids[0].Text?
  }

  function PrintField(key: string, value: string): string {
    if value == "" then "" else key + ("=\"" + (value + ("\"" + " ")))
  }

  /** A leaf without the indent before it and the line break after it. */
  function Leaf(n: Node): string
    requires !n.Element?
  {
    match n
    case Text(v) => Encoded(v, 0)
    case CData(v) => CDATA + v + CDATA_END
    case Comment(v) => COMMENT + v + COMMENT_END
    case Unknown(v) => "<" + v + ">"
    case Declaration(v, e, sa) =>
      "<?xml " + (PrintField("version", v) + (PrintField("encoding", e) + (PrintField("standalone", sa) + "?>")))
  }

  /** What comes before the children of an element. */
  function Opening(n: Node, lay: Layout, depth: nat): string
    requires n.Element?
  {
    Indented(lay, depth) + "<" + n.name + PrintAttrs(n.attrs)
    + (if n.kids == [] then " />" else ">") + (if IsSimple(n.kids) then "" else lay.lineBreak)
  }

  /** What comes after the children of an element. */
  function Closing(n: Node, lay: Layout, depth: nat): string
    requires n.Element?
  {
    if n.kids == [] then ""
    else (if IsSimple(n.kids) then "" else Indented(lay, depth)) + END_TAG + n.name + ">" + lay.lineBreak
  }

  /** A node on its own line or lines. */
  function Laid(n: Node, lay: Layout, depth: nat): string
    decreases n, 1
  {
    if n.Element? then
      Opening(n, lay, depth)
      + (if IsSimple(n.kids) then Leaf(n.kids[0]) else LaidAll(n.kids, lay, depth + 1))
      + Closing(n, lay, depth)
    else Indented(lay, depth) + Leaf(n) + lay.lineBreak
  }

  function LaidAll(kids: seq<Node>, lay: Layout, depth: nat): string
    decreases kids
  {
    if kids == [] then "" else Laid(kids[0], lay, depth) + LaidAll(kids[1..], lay, depth)
  }

  /** The indent as many times as the node is deep. */
  lemma {:induction false} IndentedIs(lay: Layout, depth: nat, k: nat)
    ensures |Indented(lay, depth)| == depth * |lay.indent|
    ensures k < depth ==> k * |lay.indent| <= (k + 1) * |lay.indent| <= |Indented(lay, depth)|
                          && Indented(lay, depth)[k * |lay.indent|..(k + 1) * |lay.indent|] == lay.indent
    decreases depth
  {
    if depth > 0 {
      IndentedIs(lay, depth - 1, if k > 0 then k - 1 else 0);
      var n := |lay.indent|;
      assert depth * n == n + (depth - 1) * n;
      if 0 < k < depth {
        assert k * n == n + (k - 1) * n && (k + 1) * n == n + k * n;
        assert Indented(lay, depth)[k * n..(k + 1) * n] == Indented(lay, depth - 1)[(k - 1) * n..k * n];
      }
    }
  }

  /** An attribute stands in double quotes unless its value holds one. */
  lemma Quoting(a: Attr)
    ensures '\"' in a.value ==> PrintAttr(a) == Encoded(a.name, 0) + "='" + Encoded(a.value, 0) + "'"
    ensures '\"' !in a.value ==> PrintAttr(a) == Encoded(a.name, 0) + "=\"" + Encoded(a.value, 0) + "\""
  {
    hide Encoded;
    var n, v := Encoded(a.name, 0), Encoded(a.value, 0);
    assert n + "=" + "'" == n + "='" && n + "=" + "\"" == n + "=\"";
  }

  /** An empty element is one tag. */
  lemma EmptyLine(name: string, attrs: seq<Attr>, lay: Layout, depth: nat)
    ensures Laid(Element(name, attrs, []), lay, depth)
         == Indented(lay, depth) + "<" + name + PrintAttrs(attrs) + " />" + lay.lineBreak
  {
    hide Indented, PrintAttrs;
    var opening := Opening(Element(name, attrs, []), lay, depth);
    assert LaidAll([], lay, depth + 1) == "";
    assert opening + "" + "" == opening;
  }

  /** An element with nothing but a text is one line. */
  lemma TextLine(name: string, attrs: seq<Attr>, v: string, lay: Layout, depth: nat)
    ensures Laid(Element(name, attrs, [Text(v)]), lay, depth)
         == Indented(lay, depth) + "<" + name + PrintAttrs(attrs) + ">" + Encoded(v, 0) + ("</" + name + ">" + lay.lineBreak)
  {
    hide Indented, PrintAttrs, Encoded, LaidAll;
    var n := Element(name, attrs, [Text(v)]);
    var start := Indented(lay, depth) + "<" + name + PrintAttrs(attrs) + ">";
    assert start + "" == start && "" + "</" == "</";
    assert Opening(n, lay, depth) == start && Closing(n, lay, depth) == "</" + name + ">" + lay.lineBreak;
  }

  /** Any other has its tags on lines of their own, around those of its children, which are indented once more. */
  lemma KidLines(name: string, attrs: seq<Attr>, kids: seq<Node>, lay: Layout, depth: nat)
    requires kids != [] && (|kids| > 1 || !kids[0].Text?)
    ensures Laid(Element(name, attrs, kids), lay, depth)
         == (Indented(lay, depth) + "<" + name + PrintAttrs(attrs) + ">" + lay.lineBreak)
            + LaidAll(kids, lay, depth + 1) + (Indented(lay, depth) + "</" + name + ">" + lay.lineBreak)
  {
    hide Indented, PrintAttrs, Encoded, LaidAll;
  }

  /** Each kind of leaf is on a line of its own. */
  lemma LeafLines(v: string, lay: Layout, depth: nat)
    ensures var i, b := Indented(lay, depth), lay.lineBreak;
            && Laid(Text(v), lay, depth) == i + Encoded(v, 0) + b
            && Laid(CData(v), lay, depth) == i + ("<![CDATA[" + v + "]]>") + b
            && Laid(Comment(v), lay, depth) == i + ("<!--" + v + "-->") + b
            && Laid(Unknown(v), lay, depth) == i + ("<" + v + ">") + b
  {
    hide Indented, Encoded, LaidAll;
  }

  /** A declaration has the fields that are not empty, in this order, a space after each. */
  lemma DeclarationLine(v: string, e: string, sa: string, lay: Layout, depth: nat)
    ensures var version := if v == "" then "" else "version" + ("=\"" + (v + ("\"" + " ")));
            var encoding := if e == "" then "" else "encoding" + ("=\"" + (e + ("\"" + " ")));
            var standalone := if sa == "" then "" else "standalone" + ("=\"" + (sa + ("\"" + " ")));
            Laid(Declaration(v, e, sa), lay, depth)
            == Indented(lay, depth) + ("<?xml " + (version + (encoding + (standalone + "?>")))) + lay.lineBreak
  {
    hide Indented, Encoded, LaidAll;
  }

  // ----- The visitor -----

  class TiXmlPrinter {
    var depth: nat
    var simpleTextPrint: bool
    var buffer: string
    var indent: string
    var lineBreak: string

    constructor ()
      ensures depth == 0 && !simpleTextPrint && buffer == ""
      ensures Lay() == Layout("    ", "\n") == DEFAULT_LAYOUT
    {
      depth, simpleTextPrint, buffer := 0, false, "";
      indent, lineBreak := "    ", "\n";
    }

    function Lay(): Layout
      reads this
    {
      Layout(indent, lineBreak)
    }

    method SetStreamPrinting()
      modifies this`indent, this`lineBreak
      ensures Lay() == Layout("", "") == STREAM_LAYOUT
    {
      indent, lineBreak := "", "";
    }

    method DoIndent()
      modifies this`buffer
      ensures buffer == old(buffer) + Indented(Lay(), depth)
    {
      var i := 0;
      while i < depth
        invariant 0 <= i <= depth
        invariant buffer + Indented(Lay(), depth - i) == old(buffer) + Indented(Lay(), depth)
      {
        assert buffer + (indent + Indented(Lay(), depth - i - 1)) == (buffer + indent) + Indented(Lay(), depth - i - 1);
        buffer := buffer + indent;
        i := i + 1;
      }
    }

    method DoLineBreak()
      modifies this`buffer
      ensures buffer == old(buffer) + lineBreak
    {
      buffer := buffer + lineBreak;
    }

    method PrintAttribute(a: Attr)
      modifies this`buffer
      ensures buffer == old(buffer) + PrintAttr(a)
    {
      var n := EncodeString(a.name);
      var v := EncodeString(a.value);
      if '\"' in a.value {
        buffer := buffer + (n + "=" + "'" + v + "'");
      } else {
        buffer := buffer + (n + "=" + "\"" + v + "\"");
      }
    }

    /** The loop over the attributes in VisitEnter. */
    method PrintAttributes(attrs: seq<Attr>)
      modifies this`buffer
      ensures buffer == old(buffer) + PrintAttrs(attrs)
    {
      hide PrintAttr;
      var i := 0;
      assert attrs[0..] == attrs;
      while i < |attrs|
        invariant 0 <= i <= |attrs|
        invariant buffer + PrintAttrs(attrs[i..]) == old(buffer) + PrintAttrs(attrs)
      {
        ghost var b, rest := buffer, PrintAttrs(attrs[i + 1..]);
        assert attrs[i..][1..] == attrs[i + 1..];
        assert PrintAttrs(attrs[i..]) == " " + PrintAttr(attrs[i]) + rest;
        buffer := buffer + " ";
        PrintAttribute(attrs[i]);
        assert b + (" " + PrintAttr(attrs[i]) + rest) == (b + " " + PrintAttr(attrs[i])) + rest;
        i := i + 1;
      }
    }

    method VisitEnter(e: Node)
      requires e.Element? && !simpleTextPrint
      modifies this`buffer, this`depth, this`simpleTextPrint
      ensures depth == old(depth) + 1
      ensures simpleTextPrint == IsSimple(e.kids)
      ensures buffer == old(buffer) + Opening(e, Lay(), old(depth))
    {
      hide PrintAttrs, Indented;
      ghost var b, lay, d := buffer, Lay(), depth;
      DoIndent();
      buffer := buffer + "<";
      buffer := buffer + e.name;
      PrintAttributes(e.attrs);
      if e.kids == [] {
        buffer := buffer + " />";
        DoLineBreak();
      } else {
        buffer := buffer + ">";
        if e.kids[0].Text? && |e.kids| == 1 {
          simpleTextPrint := true;
        } else {
          DoLineBreak();
        }
      }
      assert buffer == b + Opening(e, lay, d);
      depth := depth + 1;
    }

    method VisitExit(e: Node)
      requires e.Element? && depth > 0
      requires simpleTextPrint == IsSimple(e.kids)
      modifies this`buffer, this`depth, this`simpleTextPrint
      ensures depth == old(depth) - 1 && !simpleTextPrint
      ensures buffer == old(buffer) + Closing(e, Lay(), depth)
    {
      hide Indented;
      ghost var b, lay := buffer, Lay();
      depth := depth - 1;
      if e.kids != [] {
        if simpleTextPrint {
          simpleTextPrint := false;
        } else {
          DoIndent();
        }
        buffer := buffer + END_TAG;
        buffer := buffer + e.name;
        buffer := buffer + ">";
        DoLineBreak();
      }
      assert buffer == b + Closing(e, lay, depth);
    }

    method Visit(n: Node)
      requires !n.Element?
      requires simpleTextPrint ==> n.Text?
      modifies this`buffer
      ensures buffer == old(buffer) + (if simpleTextPrint then Leaf(n) else Laid(n, Lay(), depth))
    {
      hide Indented, Leaf;
      ghost var b, lay := buffer, Lay();
      var str := Render(n);
      if n.Text? && simpleTextPrint {
        buffer := buffer + str;
      } else {
        DoIndent();
        buffer := buffer + str;
        DoLineBreak();
        assert buffer == b + (Indented(lay, depth) + Leaf(n) + lay.lineBreak);
      }
    }

    /** What the Visit of each kind of leaf writes. */
    method Render(n: Node) returns (str: string)
      requires !n.Element?
      ensures str == Leaf(n)
    {
      hide Encoded;
      match n {
        case CData(v) => str := CDATA + v + CDATA_END;
        case Text(v) => str := EncodeString(v);
        case Comment(v) => str := COMMENT + v + COMMENT_END;
        case Unknown(v) => str := "<" + v + ">";
        case Declaration(v, enc, sa) => str := PrintDeclaration(v, enc, sa);
      }
    }

    /** TiXmlDeclaration::Print */
    method PrintDeclaration(version: string, encoding: string, standalone: string) returns (str: string)
      ensures str == Leaf(Declaration(version, encoding, standalone))
    {
      var v := "";
      if version != "" {
        v := "version" + ("=\"" + (version + ("\"" + " ")));
      }
      var e := "";
      if encoding != "" {
        e := "encoding" + ("=\"" + (encoding + ("\"" + " ")));
      }
      var sa := "";
      if standalone != "" {
        sa := "standalone" + ("=\"" + (standalone + ("\"" + " ")));
      }
      assert v == PrintField("version", version);
      assert e == PrintField("encoding", encoding);
      assert sa == PrintField("standalone", standalone);
      hide PrintField;
      str := "<?xml " + (v + (e + (sa + "?>")));
    }

    /** TiXmlElement::Accept and the Accept of the leaves. */
    method Accept(n: Node)
      requires simpleTextPrint ==> n.Text?
      modifies this`buffer, this`depth, this`simpleTextPrint
      ensures depth == old(depth) && simpleTextPrint == old(simpleTextPrint)
      ensures buffer == old(buffer) + (if simpleTextPrint then Leaf(n) else Laid(n, Lay(), depth))
      decreases n, 0
    {
      hide Opening, Closing, LaidAll, Leaf, Indented;
      if n.Element? {
        ghost var b, lay, d := buffer, Lay(), depth;
        ghost var o, c := Opening(n, lay, d), Closing(n, lay, d);
        ghost var mid := if IsSimple(n.kids) then Leaf(n.kids[0]) else LaidAll(n.kids, lay, d + 1);
        VisitEnter(n);
        AcceptAll(n.kids);
        VisitExit(n);
        assert ((b + o) + mid) + c == b + (o + mid + c);
      } else {
        Visit(n);
      }
    }

    /** The loop over the children in TiXmlElement::Accept and TiXmlDocument::Accept. */
    method AcceptAll(kids: seq<Node>)
      requires simpleTextPrint ==> IsSimple(kids)
      modifies this`buffer, this`depth, this`simpleTextPrint
      ensures depth == old(depth) && simpleTextPrint == old(simpleTextPrint)
      ensures buffer == old(buffer) + if simpleTextPrint then Leaf(kids[0]) else LaidAll(kids, Lay(), depth)
      decreases kids
    {
      hide Laid, Leaf;
      var i := 0;
      assert kids[0..] == kids;
      while i < |kids|
        invariant 0 <= i <= |kids| && depth == old(depth) && simpleTextPrint == old(simpleTextPrint)
        invariant if simpleTextPrint
                  then buffer == if i == 0 then old(buffer) else old(buffer) + Leaf(kids[0])
                  else buffer + LaidAll(kids[i..], Lay(), depth) == old(buffer) + LaidAll(kids, Lay(), depth)
      {
        ghost var b, one, rest := buffer, Laid(kids[i], Lay(), depth), LaidAll(kids[i + 1..], Lay(), depth);
        Accept(kids[i]);
        assert kids[i..][1..] == kids[i + 1..];
        assert LaidAll(kids[i..], Lay(), depth) == one + rest;
        assert b + (one + rest) == (b + one) + rest;
        i := i + 1;
      }
    }
  }
}
