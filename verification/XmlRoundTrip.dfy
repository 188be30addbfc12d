/** Parsing what a TiXmlPrinter wrote gives the tree back, whatever white space it is laid out with. */
module XmlRoundTrip {
  import opened Wrappers
  import opened XmlText
  import opened XmlReadBack
  import opened XmlReference
  import opened XmlParser
  import opened XmlPrinter
  import opened XmlGrammar
  import opened XmlComplete

  // ----- The trees that survive -----

  predicate LegalAttrs(attrs: seq<Attr>) {
    && (forall i :: 0 <= i < |attrs| ==> ValidName(attrs[i].name) && '\0' !in attrs[i].name && Clean(attrs[i].value))
    && DistinctNames(attrs)
  }

  /** Text that keeps its white space: no reference, not blank, no space at the ends, none doubled. */
  predicate LegalText(v: string) {
    Clean(v) && !Blank(v) && Tidy(v)
  }

  predicate LegalField(v: string) {
    '\0' !in v && '\"' !in v && '&' !in v
  }

  /** A tree that a document can hold: printing and parsing keep it. */
  predicate Legal(n: Node)
    decreases n, 0
  {
    match n
    case Element(name, attrs, kids) => ValidName(name) && '\0' !in name && LegalAttrs(attrs) && LegalKids(kids)
    case Text(v) => LegalText(v)
    case CData(v) => '\0' !in v && Without(v, "]]>")
    case Comment(v) => '\0' !in v && Without(v, "-->")
    case Unknown(v) => OtherOk(v)
    case Declaration(v, e, sa) => LegalField(v) && LegalField(e) && LegalField(sa)
  }

  /** Legal children, no two plain texts side by side. */
  predicate LegalKids(kids: seq<Node>)
    decreases kids, 0
  {
    kids == []
    || (Legal(kids[0]) && !(kids[0].Text? && |kids| > 1 && kids[1].Text?) && LegalKids(kids[1..]))
  }

  predicate LegalLayout(lay: Layout) {
    White(lay.indent) && White(lay.lineBreak)
  }

  // ----- What the printer writes, as syntax -----

  /** How EncodeString writes a character. */
  function PieceOf(c: char): Piece {
    if c in {'&', '<', '>', '\"', '\''} then Entity(c)
    else if (c as int) < 32 then Coded(true, [HexDigit((c as int) / 16), HexDigit((c as int) % 16)])
    else Letter(c)
  }

  function PiecesOf(v: string): seq<Piece> {
    if v == "" then [] else [PieceOf(v[0])] + PiecesOf(v[1..])
  }

  function LettersOf(v: string): seq<Piece> {
    if v == "" then [] else [Letter(v[0])] + LettersOf(v[1..])
  }

  function AttributeOf(a: Attr): Attribute {
    XmlGrammar.Attribute(" ", a.name, "", "", Quoted(if '\"' in a.value then '\'' else '\"', PiecesOf(a.value)))
  }

  function AttributesOf(attrs: seq<Attr>): seq<Attribute> {
    if attrs == [] then [] else [AttributeOf(attrs[0])] + AttributesOf(attrs[1..])
  }

  function FieldOf(key: string, v: string): seq<Attribute> {
    if v == "" then [] else [XmlGrammar.Attribute(" ", key, "", "", Quoted('\"', LettersOf(v)))]
  }

  function BodyOf(n: Node, lay: Layout, depth: nat): Body
    requires n.Element?
    decreases n, 0
  {
    if n.kids == [] then Closed
    else if IsSimple(n.kids) then Holding([Item("", Chars(PiecesOf(n.kids[0].value)))], "", "")
    else Holding(ItemsOf(n.kids, lay, depth + 1, lay.lineBreak), lay.lineBreak + Indented(lay, depth), "")
  }

  function MarkupOf(n: Node, lay: Layout, depth: nat): Markup
    decreases n, 1
  {
    match n
    case Element(name, attrs, kids) =>
      Tag(name, AttributesOf(attrs), if kids == [] then " " else "", BodyOf(n, lay, depth))
    case Text(v) => Chars(PiecesOf(v))
    case CData(v) => Section(v)
    case Comment(v) => Remark(v)
    case Unknown(v) => Other(v)
    case Declaration(v, e, sa) =>
      Prolog("<?xml", FieldOf("version", v) + (FieldOf("encoding", e) + FieldOf("standalone", sa)), " ")
  }

  /** Nodes on their own lines; `before` is what ends the line before the first. */
  function ItemsOf(kids: seq<Node>, lay: Layout, depth: nat, before: string): seq<Item>
    decreases kids
  {
    if kids == [] then []
    else [Item(before + Indented(lay, depth), MarkupOf(kids[0], lay, depth))] + ItemsOf(kids[1..], lay, depth, lay.lineBreak)
  }

  // ----- Values -----

  lemma PieceIs(c: char)
    ensures PieceText(PieceOf(c)) == Escape(c) && PieceValue(PieceOf(c)) == c && PieceOk(PieceOf(c))
    ensures IsSpace(PieceOf(c)) <==> c == ' '
    ensures PieceOf(c) !in {Letter('<'), Letter('\"'), Letter('\'')}
  {
    hide Number;
    HexDigits();
    if (c as int) < 32 {
      TwoHexDigits(c);
      assert "&#x" + ([HexDigit((c as int) / 16), HexDigit((c as int) % 16)] + ";")
          == "&#x" + [HexDigit((c as int) / 16), HexDigit((c as int) % 16)] + ";";
    }
  }

  lemma {:induction false} PiecesAre(v: string, i: nat)
    requires Clean(v) && i <= |v|
    ensures PiecesText(PiecesOf(v[i..])) == Encoded(v, i) && Kept(PiecesOf(v[i..])) == v[i..]
    ensures forall k :: 0 <= k < |PiecesOf(v[i..])| ==>
              PieceOk(PiecesOf(v[i..])[k]) && PiecesOf(v[i..])[k] !in {Letter('<'), Letter('\"'), Letter('\'')}
    decreases |v| - i
  {
    hide Escape, PieceText, PieceValue, PieceOk, PieceOf, Encoded;
    if i == |v| {
      NothingLeft(v);
    } else {
      PieceIs(v[i]);
      assert !IsReference(v, i);
      hide Clean;
      EncodedStep(v, i);
      assert v[i..][1..] == v[i + 1..] && v[i..] == [v[i]] + v[i + 1..];
      PiecesAre(v, i + 1);
    }
  }

  lemma {:induction false} CollapsedIs(v: string, gap: bool)
    ensures Collapsed(PiecesOf(v), gap) == Condense(v, gap)
    decreases v
  {
    hide PieceValue, PieceOf;
    if v != "" {
      PieceIs(v[0]);
      CollapsedIs(v[1..], v[0] == ' ');
    }
  }

  lemma {:induction false} LettersAre(v: string)
    requires LegalField(v)
    ensures PiecesText(LettersOf(v)) == v && Kept(LettersOf(v)) == v
    ensures forall k :: 0 <= k < |LettersOf(v)| ==> PieceOk(LettersOf(v)[k]) && LettersOf(v)[k] != Letter('\"')
    decreases v
  {
    if v != "" {
      LettersAre(v[1..]);
      assert v == [v[0]] + v[1..];
    }
  }

  // ----- Attributes -----

  /** Name characters are written as they are. */
  lemma {:induction false} NameUnchanged(name: string, i: nat)
    requires i <= |name| && forall k :: 0 <= k < |name| ==> IsNameChar(name[k])
    ensures Encoded(name, i) == name[i..]
    decreases |name| - i
  {
    if i < |name| {
      NameStep(name, i);
      hide Encoded;
      NameUnchanged(name, i + 1);
      assert name[i..] == [name[i]] + name[i + 1..];
    }
  }

  lemma NameStep(name: string, i: nat)
    requires i < |name| && IsNameChar(name[i])
    ensures Encoded(name, i) == [name[i]] + Encoded(name, i + 1)
  {
    assert Escape(name[i]) == [name[i]] && name[i] != '&';
    hide IsNameChar, Escape;
    EncodedStep(name, i);
  }

  lemma AttributeIs(a: Attr)
    requires ValidName(a.name) && '\0' !in a.name && Clean(a.value)
    ensures AttributeText(AttributeOf(a)) == " " + PrintAttr(a) && AttributeOk(AttributeOf(a))
    ensures AttributeMeaning(AttributeOf(a)) == a
  {
    hide Encoded, PiecesOf, PiecesText, Kept, PieceOk, Clean;
    NameUnchanged(a.name, 0);
    PiecesAre(a.value, 0);
    assert a.name[0..] == a.name && a.value[0..] == a.value;
    var q := if '\"' in a.value then "'" else "\"";
    var e := Encoded(a.value, 0);
    assert " " + (a.name + ("" + ("=" + ("" + (q + (e + q)))))) == " " + (a.name + "=" + q + e + q);
  }

  lemma {:induction false} AttributesAre(attrs: seq<Attr>, afterQuote: bool)
    requires forall i :: 0 <= i < |attrs| ==> ValidName(attrs[i].name) && '\0' !in attrs[i].name && Clean(attrs[i].value)
    ensures AttributesText(AttributesOf(attrs)) == PrintAttrs(attrs) && AttributesOk(AttributesOf(attrs), afterQuote)
    ensures AttributeMeanings(AttributesOf(attrs)) == attrs
    decreases attrs
  {
    hide AttributeText, PrintAttr, AttributeOk, AttributeMeaning, ValidName, Clean;
    if attrs != [] {
      AttributeIs(attrs[0]);
      AttributesAre(attrs[1..], true);
      assert attrs == [attrs[0]] + attrs[1..];
    }
  }

  // ----- Nodes -----

  lemma FieldWritten(key: string, v: string)
    ensures (" " + (key + ("" + ("=" + ("" + ("\"" + (v + "\""))))))) + " " == " " + (key + ("=\"" + (v + ("\"" + " "))))
  {
    assert "=" + ("" + ("\"" + (v + "\""))) == "=\"" + (v + "\"");
    assert "" + ("=\"" + (v + "\"")) == "=\"" + (v + "\"");
    Assoc(" ", key + ("=\"" + (v + "\"")), " ");
    Assoc(key, "=\"" + (v + "\""), " ");
    Assoc("=\"", v + "\"", " ");
    Assoc(v, "\"", " ");
  }

  lemma KeyValid(key: string)
    requires key == "version" || key == "encoding" || key == "standalone"
    ensures ValidName(key) && '\0' !in key
  {
  }

  lemma FieldOk(key: string, v: string)
    requires LegalField(v) && (key == "version" || key == "encoding" || key == "standalone") && v != ""
    ensures AttributesOk(FieldOf(key, v), false)
  {
    hide PiecesText, Kept, PieceOk, LettersOf, ValidName;
    LettersAre(v);
    KeyValid(key);
    var f := FieldOf(key, v);
    assert f[1..] == [] && AttributeOk(f[0]);
  }

  lemma FieldIs(key: string, v: string)
    requires LegalField(v) && (key == "version" || key == "encoding" || key == "standalone")
    ensures AttributesText(FieldOf(key, v)) + " " == " " + PrintField(key, v)
    ensures AttributesOk(FieldOf(key, v), false) && (v == "" || FieldOf(key, v)[0].name == key)
    ensures v != "" ==> ValueMeaning(FieldOf(key, v)[0].value) == v && FieldOf(key, v)[0].value.Quoted?
  {
    hide PiecesText, Kept, LettersOf, AttributeOk, LegalField;
    if v != "" {
      LettersAre(v);
      FieldOk(key, v);
      var f := FieldOf(key, v);
      assert f[1..] == [];
      var w := " " + (key + ("" + ("=" + ("" + ("\"" + (v + "\""))))));
      assert AttributesText(f) == w + "" == w;
      FieldWritten(key, v);
    }
  }

  lemma {:induction false} AttributesConcat(a: seq<Attribute>, b: seq<Attribute>)
    ensures AttributesText(a + b) == AttributesText(a) + AttributesText(b)
    decreases |a|
  {
    hide AttributeText;
    if a == [] {
      assert a + b == b;
    } else {
      assert (a + b)[1..] == a[1..] + b && (a + b)[0] == a[0];
      AttributesConcat(a[1..], b);
      Assoc(AttributeText(a[0]), AttributesText(a[1..]), AttributesText(b));
    }
  }

  lemma {:induction false} AttributesJoin(a: seq<Attribute>, b: seq<Attribute>, afterQuote: bool)
    requires AttributesOk(a, afterQuote) && AttributesOk(b, false)
    ensures AttributesOk(a + b, afterQuote)
    decreases |a|
  {
    hide AttributeOk;
    if a == [] {
      assert a + b == b;
    } else {
      assert (a + b)[1..] == a[1..] + b && (a + b)[0] == a[0];
      AttributesJoin(a[1..], b, a[0].value.Quoted?);
    }
  }

  lemma FieldsText(f: string, g: string, x: string, y: string)
    requires f + " " == " " + x && g + " " == " " + y
    ensures (f + g) + " " == " " + (x + y)
  {
    Assoc(f, g, " ");
    Assoc(f, " ", y);
    Assoc(" ", x, y);
  }

  lemma PrologText(v: string, e: string, sa: string)
    requires LegalField(v) && LegalField(e) && LegalField(sa)
    ensures MarkupText(MarkupOf(Declaration(v, e, sa), DEFAULT_LAYOUT, 0)) == Leaf(Declaration(v, e, sa))
  {
    hide PrintField, FieldOf, AttributesText;
    FieldIs("version", v);
    FieldIs("encoding", e);
    FieldIs("standalone", sa);
    var a, b, c := FieldOf("version", v), FieldOf("encoding", e), FieldOf("standalone", sa);
    var x, y, z := PrintField("version", v), PrintField("encoding", e), PrintField("standalone", sa);
    AttributesConcat(b, c);
    AttributesConcat(a, b + c);
    FieldsText(AttributesText(b), AttributesText(c), y, z);
    FieldsText(AttributesText(a), AttributesText(b + c), x, y + z);
    var t := AttributesText(a + (b + c));
    assert "<?xml" + (t + (" " + "?>")) == "<?xml" + ((t + " ") + "?>");
    assert "<?xml" + ((" " + (x + (y + z))) + "?>") == "<?xml " + (x + (y + (z + "?>")));
  }

  lemma FieldSets(key: string, v: string, d: Node, rest: seq<Attribute>)
    requires LegalField(v) && (key == "version" || key == "encoding" || key == "standalone")
    requires d.Declaration? && (v == "" ==> (if key == "version" then d.version else if key == "encoding" then d.encoding else d.standalone) == "")
    ensures FieldsMeaning(FieldOf(key, v) + rest, d)
            == FieldsMeaning(rest, if key == "version" then d.(version := v)
                                   else if key == "encoding" then d.(encoding := v) else d.(standalone := v))
    ensures forall i :: 0 <= i < |FieldOf(key, v)| ==> FieldName(FieldOf(key, v)[i].name)
  {
    hide AttributesText, AttributesOk, PrintField, ValueMeaning;
    FieldIs(key, v);
    Keys(key);
    if v == "" {
      assert FieldOf(key, v) + rest == rest;
    } else {
      var all := FieldOf(key, v) + rest;
      assert all[0] == FieldOf(key, v)[0] && all[1..] == rest;
    }
  }

  lemma Keys(key: string)
    requires key == "version" || key == "encoding" || key == "standalone"
    ensures SameLetters(key, "version") <==> key == "version"
    ensures SameLetters(key, "encoding") <==> key == "encoding"
    ensures SameLetters(key, "standalone") <==> key == "standalone"
  {
    assert ToLower("version"[0]) == 'v' && ToLower("encoding"[0]) == 'e' && ToLower("standalone"[0]) == 's';
    if key != "version" {
      assert ToLower(key[0]) != ToLower("version"[0]);
    }
    if key != "encoding" {
      assert ToLower(key[0]) != ToLower("encoding"[0]);
    }
    if key != "standalone" {
      assert ToLower(key[0]) != ToLower("standalone"[0]);
    }
  }

  lemma PrologIs(v: string, e: string, sa: string, lay: Layout, depth: nat)
    requires LegalField(v) && LegalField(e) && LegalField(sa)
    ensures var m := MarkupOf(Declaration(v, e, sa), lay, depth);
            MarkupText(m) == Leaf(Declaration(v, e, sa)) && MarkupOk(m) && Meaning(m) == Declaration(v, e, sa)
  {
    hide FieldOf, AttributesText, AttributesOk, FieldsMeaning, PrintField, FieldName, LegalField;
    var a, b, c := FieldOf("version", v), FieldOf("encoding", e), FieldOf("standalone", sa);
    PrologText(v, e, sa);
    FieldIs("version", v);
    FieldIs("encoding", e);
    FieldIs("standalone", sa);
    AttributesJoin(b, c, false);
    AttributesJoin(a, b + c, false);
    var d0 := Declaration("", "", "");
    var d1 := d0.(version := v);
    var d2 := d1.(encoding := e);
    FieldSets("version", v, d0, b + c);
    FieldSets("encoding", e, d1, c);
    FieldSets("standalone", sa, d2, []);
    assert c + [] == c;
    NoFields(d2.(standalone := sa));
    LeadLetters();
  }

  lemma NoFields(d: Node)
    requires d.Declaration?
    ensures FieldsMeaning([], d) == d
  {
  }

  lemma LeadLetters()
    ensures SameLetters("<?xml", "<?xml")
  {
  }

  lemma TextIs(v: string)
    requires LegalText(v)
    ensures var m := Chars(PiecesOf(v));
            MarkupText(m) == Encoded(v, 0) && MarkupOk(m) && Meaning(m) == Text(v)
    ensures !White(Collapsed(PiecesOf(v), false))
  {
    hide Encoded, PiecesText, Collapsed, PieceOk, Clean, Tidy, Blank, PieceOf, Escape;
    PiecesAre(v, 0);
    assert v[0..] == v;
    CollapsedIs(v, false);
    TextStarts(v);
    BlankIsWhite(v);
    PieceIs(v[0]);
  }

  lemma TextStarts(v: string)
    requires LegalText(v)
    ensures v != "" && v[0] != ' ' && Condense(v, false) == v
  {
    hide Clean, Tidy, Condense;
    assert v != "" by {
      NotBlank(v);
    }
    NoSpaceFirst(v);
    CondensedExactly(v);
    DropsNothing(v);
  }

  lemma NotBlank(v: string)
    requires !Blank(v)
    ensures v != ""
  {
  }

  lemma NoSpaceFirst(v: string)
    requires Tidy(v) && v != ""
    ensures v[0] != ' '
  {
  }

  lemma DropsNothing(v: string)
    requires v != "" && v[0] != ' '
    ensures Condensed(v) == Condense(v, false)
  {
  }

  // ----- Lines -----

  /** A node with what surrounds it. */
  function OnItsLine(n: Node, lay: Layout, depth: nat): string {
    Indented(lay, depth) + (MarkupText(MarkupOf(n, lay, depth)) + lay.lineBreak)
  }

  lemma LeafLaid(n: Node, lay: Layout, depth: nat)
    requires !n.Element? && MarkupText(MarkupOf(n, lay, depth)) == Leaf(n)
    ensures Laid(n, lay, depth) == OnItsLine(n, lay, depth)
  {
    hide Leaf, Indented, MarkupOf, MarkupText;
    Assoc(Indented(lay, depth), Leaf(n), lay.lineBreak);
  }

  lemma LeafIs(n: Node, lay: Layout, depth: nat)
    requires Legal(n) && !n.Element?
    ensures MarkupText(MarkupOf(n, lay, depth)) == Leaf(n)
    ensures MarkupOk(MarkupOf(n, lay, depth)) && Meaning(MarkupOf(n, lay, depth)) == n
  {
    hide Encoded, PiecesText, PiecesOf, Collapsed, Without, OtherOk, LegalText, LegalField, CharsOk, FieldOf, PrintField;
    match n
    case Text(v) => TextIs(v);
    case Declaration(v, e, sa) => PrologIs(v, e, sa, lay, depth);
    case CData(v) => Assoc("<![CDATA[", v, "]]>");
    case Comment(v) => Assoc("<!--", v, "-->");
    case Unknown(v) => Assoc("<", v, ">");
  }

  lemma RegroupTag(i: string, nm: string, a: string, g: string, r: string)
    ensures i + "<" + nm + a + g + r == i + ("<" + (nm + (a + (g + r))))
  {
    Assoc(i, "<", nm);
    Assoc(i, "<" + nm, a);
    Assoc("<", nm, a);
    Assoc(i, "<" + (nm + a), g);
    Assoc("<", nm + a, g);
    Assoc(nm, a, g);
    Assoc(i, "<" + (nm + (a + g)), r);
    Assoc("<", nm + (a + g), r);
    Assoc(nm, a + g, r);
    Assoc(a, g, r);
  }

  lemma PushBreak(nm: string, a: string, r: string, lb: string)
    ensures ("<" + (nm + (a + r))) + lb == "<" + (nm + (a + (r + lb)))
  {
    Assoc("<", nm + (a + r), lb);
    Assoc(nm, a + r, lb);
    Assoc(a, r, lb);
  }

  lemma EmptyLaid(n: Node, lay: Layout, depth: nat)
    requires n.Element? && n.kids == [] && AttributesText(AttributesOf(n.attrs)) == PrintAttrs(n.attrs)
    ensures Laid(n, lay, depth) == OnItsLine(n, lay, depth)
  {
    hide PrintAttrs, Indented, AttributesText, AttributesOf;
    var i, a, lb := Indented(lay, depth), PrintAttrs(n.attrs), lay.lineBreak;
    assert LaidAll(n.kids, lay, depth + 1) == "";
    assert Laid(n, lay, depth) == Opening(n, lay, depth) + "" + "" == Opening(n, lay, depth);
    assert Opening(n, lay, depth) == i + "<" + n.name + a + " />" + lb;
    assert MarkupText(MarkupOf(n, lay, depth)) == "<" + (n.name + (a + (" " + "/>")));
    assert " " + "/>" == " />";
    RegroupTag(i, n.name, a, " />", lb);
    PushBreak(n.name, a, " />", lb);
  }

  /** The start tag, what is inside, and the end tag. */
  lemma HoldingLaid(i: string, nm: string, a: string, inside: string, y: string, lb: string)
    ensures (i + "<" + nm + a + ">") + (inside + (y + lb)) == i + (("<" + (nm + (a + (">" + (inside + y))))) + lb)
  {
    RegroupTag(i, nm, a, ">", inside + (y + lb));
    Assoc(inside, y, lb);
    Assoc(">", inside + y, lb);
    PushBreak(nm, a, ">" + (inside + y), lb);
  }

  lemma SimpleLaid(n: Node, lay: Layout, depth: nat)
    requires n.Element? && IsSimple(n.kids) && AttributesText(AttributesOf(n.attrs)) == PrintAttrs(n.attrs)
    requires PiecesText(PiecesOf(n.kids[0].value)) == Encoded(n.kids[0].value, 0)
    ensures Laid(n, lay, depth) == OnItsLine(n, lay, depth)
  {
    hide PrintAttrs, Indented, AttributesText, AttributesOf, PiecesText, PiecesOf, Encoded, LaidAll;
    var i, a, lb, e := Indented(lay, depth), PrintAttrs(n.attrs), lay.lineBreak, Encoded(n.kids[0].value, 0);
    var y := "</" + (n.name + ("" + ">"));
    var o := i + "<" + n.name + a + ">";
    assert Opening(n, lay, depth) == o + "" == o;
    assert Closing(n, lay, depth) == "" + END_TAG + n.name + ">" + lb == y + lb;
    assert Laid(n, lay, depth) == o + e + (y + lb) == o + (e + (y + lb));
    var items := [Item("", Chars(PiecesOf(n.kids[0].value)))];
    assert items[1..] == [];
    assert ItemsText(items) == ("" + e) + "" == e;
    assert MarkupText(MarkupOf(n, lay, depth)) == "<" + (n.name + (a + ("" + (">" + (e + ("" + y))))));
    HoldingLaid(i, n.name, a, e, y, lb);
  }

  lemma RegroupMany(o: string, lb: string, laid: string, items: string, i: string, end: string)
    requires items + lb == lb + laid
    ensures (o + lb) + laid + (i + end) == o + ((items + (lb + i)) + end)
  {
    Assoc(o, lb, laid);
    Assoc(o, items + lb, i + end);
    Assoc(items + lb, i, end);
    Assoc(items, lb, i);
  }

  lemma ManyMarkup(n: Node, lay: Layout, depth: nat, a: string, items: string)
    requires n.Element? && n.kids != [] && !IsSimple(n.kids) && AttributesText(AttributesOf(n.attrs)) == a
    requires ItemsText(ItemsOf(n.kids, lay, depth + 1, lay.lineBreak)) == items
    ensures var y := "</" + (n.name + ("" + ">"));
            MarkupText(MarkupOf(n, lay, depth))
            == "<" + (n.name + (a + (">" + (items + ((lay.lineBreak + Indented(lay, depth)) + y)))))
  {
    hide Indented, AttributesText, AttributesOf, ItemsText, ItemsOf;
    var y := "</" + (n.name + ("" + ">"));
    var r := ">" + (items + ((lay.lineBreak + Indented(lay, depth)) + y));
    assert "" + r == r;
  }

  lemma ManyLaid(n: Node, lay: Layout, depth: nat)
    requires n.Element? && n.kids != [] && !IsSimple(n.kids)
    requires AttributesText(AttributesOf(n.attrs)) == PrintAttrs(n.attrs)
    requires var lb := lay.lineBreak;
             ItemsText(ItemsOf(n.kids, lay, depth + 1, lb)) + lb == lb + LaidAll(n.kids, lay, depth + 1)
    ensures Laid(n, lay, depth) == OnItsLine(n, lay, depth)
  {
    hide PrintAttrs, Indented, AttributesText, AttributesOf, ItemsText, ItemsOf, LaidAll;
    var i, a, lb := Indented(lay, depth), PrintAttrs(n.attrs), lay.lineBreak;
    var items, laid := ItemsText(ItemsOf(n.kids, lay, depth + 1, lb)), LaidAll(n.kids, lay, depth + 1);
    var y := "</" + (n.name + ("" + ">"));
    var o := i + "<" + n.name + a + ">";
    var inside := items + (lb + i);
    assert Opening(n, lay, depth) == o + lb;
    assert Closing(n, lay, depth) == i + END_TAG + n.name + ">" + lb == i + (y + lb);
    ManyMarkup(n, lay, depth, a, items);
    Assoc(items, lb + i, y);
    assert Laid(n, lay, depth) == (o + lb) + laid + (i + (y + lb));
    RegroupMany(o, lb, laid, items, i, y + lb);
    HoldingLaid(i, n.name, a, inside, y, lb);
  }

  lemma OneLine(before: string, ind: string, m: string, rest: string, lb: string)
    ensures ((before + ind) + m) + rest == before + (ind + (m + rest))
  {
    Assoc(before + ind, m, rest);
    Assoc(before, ind, m + rest);
  }

  /** Lines one after the other. */
  lemma LinesLaid(before: string, ind: string, m: string, items: string, lb: string, laid: string)
    requires items + lb == lb + laid
    ensures (((before + ind) + m) + items) + lb == before + ((ind + (m + lb)) + laid)
  {
    Assoc((before + ind) + m, items, lb);
    OneLine(before, ind, m, lb + laid, lb);
    Assoc(m, lb, laid);
    Assoc(ind, m + lb, laid);
  }

  lemma LastLine(before: string, ind: string, m: string, lb: string)
    ensures (((before + ind) + m) + "") + lb == before + ((ind + (m + lb)) + "")
  {
    OneLine(before, ind, m, lb, lb);
    assert ((before + ind) + m) + "" == (before + ind) + m;
    assert (ind + (m + lb)) + "" == ind + (m + lb);
  }

  lemma ItemsFirst(kids: seq<Node>, lay: Layout, depth: nat, before: string)
    requires kids != []
    ensures var items, rest := ItemsOf(kids, lay, depth, before), ItemsOf(kids[1..], lay, depth, lay.lineBreak);
            && items != [] && items[1..] == rest
            && items[0] == Item(before + Indented(lay, depth), MarkupOf(kids[0], lay, depth))
            && ItemsText(items) == ((before + Indented(lay, depth)) + MarkupText(MarkupOf(kids[0], lay, depth))) + ItemsText(rest)
            && LaidAll(kids, lay, depth) == Laid(kids[0], lay, depth) + LaidAll(kids[1..], lay, depth)
  {
    hide MarkupOf, MarkupText, Indented, Laid;
  }

  lemma LegalParts(kids: seq<Node>)
    requires kids != [] && LegalKids(kids)
    ensures Legal(kids[0]) && LegalKids(kids[1..])
    ensures kids[0].Text? && kids[1..] != [] ==> !kids[1..][0].Text?
  {
    hide Legal;
  }

  lemma ElementParts(n: Node)
    requires n.Element? && Legal(n)
    ensures ValidName(n.name) && '\0' !in n.name && LegalAttrs(n.attrs) && LegalKids(n.kids)
    ensures IsSimple(n.kids) ==> LegalText(n.kids[0].value) && n.kids == [Text(n.kids[0].value)]
  {
    hide ValidName, LegalAttrs, LegalText;
  }

  /** The printer lays out children as items of the grammar. */
  lemma {:induction false} KidsLaid(kids: seq<Node>, lay: Layout, depth: nat, before: string)
    requires LegalKids(kids) && LegalLayout(lay) && White(before)
    ensures kids != [] ==>
              ItemsText(ItemsOf(kids, lay, depth, before)) + lay.lineBreak == before + LaidAll(kids, lay, depth)
    ensures ItemsOk(ItemsOf(kids, lay, depth, before)) && Meanings(ItemsOf(kids, lay, depth, before)) == kids
    decreases kids, 1
  {
    hide *;
    NoItems();
    if kids == [] {
      NoItemsOf(lay, depth, before);
    } else {
      var rest := kids[1..];
      LegalParts(kids);
      ItemsFirst(kids, lay, depth, before);
      NodeLaid(kids[0], lay, depth);
      LayoutWhite(lay, depth, before);
      KidsLaid(rest, lay, depth, lay.lineBreak);
      var ind, m := Indented(lay, depth), MarkupText(MarkupOf(kids[0], lay, depth));
      LineIs(kids[0], lay, depth);
      if rest == [] {
        NoItemsOf(lay, depth, lay.lineBreak);
        NothingLaid(lay, depth);
        LastLine(before, ind, m, lay.lineBreak);
      } else {
        ItemsFirst(rest, lay, depth, lay.lineBreak);
        LinesLaid(before, ind, m, ItemsText(ItemsOf(rest, lay, depth, lay.lineBreak)), lay.lineBreak,
                  LaidAll(rest, lay, depth));
        TextsApart(kids, lay, depth);
      }
      ItemsJoin(kids, lay, depth, before);
    }
  }

  lemma LineIs(n: Node, lay: Layout, depth: nat)
    ensures OnItsLine(n, lay, depth) == Indented(lay, depth) + (MarkupText(MarkupOf(n, lay, depth)) + lay.lineBreak)
  {
  }

  lemma NothingLaid(lay: Layout, depth: nat)
    ensures LaidAll([], lay, depth) == ""
  {
  }

  lemma NoItemsOf(lay: Layout, depth: nat, before: string)
    ensures ItemsOf([], lay, depth, before) == [] && ItemsOk([]) && Meanings([]) == []
  {
  }

  lemma TextsApart(kids: seq<Node>, lay: Layout, depth: nat)
    requires |kids| > 1 && !(kids[0].Text? && kids[1].Text?)
    ensures !(MarkupOf(kids[0], lay, depth).Chars? && MarkupOf(kids[1], lay, depth).Chars?)
  {
    hide PiecesOf, AttributesOf, FieldOf;
  }

  lemma ItemsJoin(kids: seq<Node>, lay: Layout, depth: nat, before: string)
    requires kids != [] && White(before + Indented(lay, depth))
    requires MarkupOk(MarkupOf(kids[0], lay, depth)) && Meaning(MarkupOf(kids[0], lay, depth)) == kids[0]
    requires MarkupOf(kids[0], lay, depth).Chars? ==> !White(Collapsed(MarkupOf(kids[0], lay, depth).pieces, false))
    requires var rest := ItemsOf(kids[1..], lay, depth, lay.lineBreak); ItemsOk(rest) && Meanings(rest) == kids[1..]
    requires |kids| > 1 ==> !(MarkupOf(kids[0], lay, depth).Chars? && MarkupOf(kids[1], lay, depth).Chars?)
    ensures ItemsOk(ItemsOf(kids, lay, depth, before)) && Meanings(ItemsOf(kids, lay, depth, before)) == kids
  {
    hide *;
    ItemsFirst(kids, lay, depth, before);
    if kids[1..] != [] {
      ItemsFirst(kids[1..], lay, depth, lay.lineBreak);
    } else {
      NoItemsOf(lay, depth, lay.lineBreak);
    }
    ItemsCons(ItemsOf(kids, lay, depth, before));
    assert kids == [kids[0]] + kids[1..];
  }

  lemma ItemsCons(items: seq<Item>)
    requires items != [] && White(items[0].space) && MarkupOk(items[0].markup) && ItemsOk(items[1..])
    requires items[0].markup.Chars? ==> !White(Collapsed(items[0].markup.pieces, false))
    requires items[1..] != [] ==> !(items[0].markup.Chars? && items[1..][0].markup.Chars?)
    ensures ItemsOk(items) && Meanings(items) == [Meaning(items[0].markup)] + Meanings(items[1..])
  {
    hide MarkupOk, Meaning, Collapsed;
  }

  lemma LayoutWhite(lay: Layout, depth: nat, before: string)
    requires LegalLayout(lay) && White(before)
    ensures White(before + Indented(lay, depth)) && White(lay.lineBreak + Indented(lay, depth)) && White(lay.lineBreak)
  {
    hide Indented;
    IndentedWhite(lay, depth);
  }

  lemma {:induction false} IndentedWhite(lay: Layout, depth: nat)
    requires LegalLayout(lay)
    ensures White(Indented(lay, depth))
  {
    if depth > 0 {
      IndentedWhite(lay, depth - 1);
    }
  }

  /** The printer lays out a node as markup of the grammar, on its own line or lines, and that means the node. */
  lemma {:induction false} NodeLaid(n: Node, lay: Layout, depth: nat)
    requires Legal(n) && LegalLayout(lay)
    ensures Laid(n, lay, depth) == OnItsLine(n, lay, depth)
    ensures var m := MarkupOf(n, lay, depth);
            && MarkupOk(m) && Meaning(m) == n && (m.Chars? <==> n.Text?)
            && (m.Chars? ==> !White(Collapsed(m.pieces, false)))
    decreases n, 0
  {
    hide *;
    MarkupShape(n, lay, depth);
    if !n.Element? {
      LeafIs(n, lay, depth);
      LeafLaid(n, lay, depth);
      if n.Text? {
        TextLegal(n);
        TextIs(n.value);
      }
    } else {
      ElementParts(n);
      AttrsLegal(n.attrs);
      if n.kids == [] {
        EmptyLaid(n, lay, depth);
      } else if IsSimple(n.kids) {
        TextIs(n.kids[0].value);
        SimpleText(n.kids[0].value);
        SimpleLaid(n, lay, depth);
      } else {
        LayoutWhite(lay, depth, "");
        KidsLaid(n.kids, lay, depth + 1, lay.lineBreak);
        ManyLaid(n, lay, depth);
        LayoutWhite(lay, depth, lay.lineBreak);
      }
      ElementMeans(n, lay, depth);
    }
  }

  lemma MarkupShape(n: Node, lay: Layout, depth: nat)
    ensures MarkupOf(n, lay, depth).Chars? <==> n.Text?
    ensures n.Text? ==> MarkupOf(n, lay, depth) == Chars(PiecesOf(n.value))
    ensures White("")
  {
    hide PiecesOf, AttributesOf, FieldOf;
  }

  lemma TextLegal(n: Node)
    requires n.Text? && Legal(n)
    ensures LegalText(n.value)
  {
  }

  lemma AttrsLegal(attrs: seq<Attr>)
    requires LegalAttrs(attrs)
    ensures AttributesText(AttributesOf(attrs)) == PrintAttrs(attrs) && AttributesOk(AttributesOf(attrs), false)
    ensures AttributeMeanings(AttributesOf(attrs)) == attrs && DistinctNames(attrs)
  {
    hide PrintAttr, AttributeText, AttributeOk, ValidName, Clean;
    AttributesAre(attrs, false);
  }

  lemma SimpleText(v: string)
    requires LegalText(v)
    ensures PiecesText(PiecesOf(v)) == Encoded(v, 0)
  {
    hide Encoded, PiecesText, PiecesOf;
    PiecesAre(v, 0);
    assert v[0..] == v;
  }

  lemma ElementMeans(n: Node, lay: Layout, depth: nat)
    requires n.Element? && ValidName(n.name) && '\0' !in n.name && DistinctNames(n.attrs)
    requires AttributesOk(AttributesOf(n.attrs), false) && AttributeMeanings(AttributesOf(n.attrs)) == n.attrs
    requires IsSimple(n.kids) ==>
               var c := Chars(PiecesOf(n.kids[0].value));
               && MarkupOk(c) && Meaning(c) == n.kids[0] && !White(Collapsed(PiecesOf(n.kids[0].value), false))
               && n.kids == [n.kids[0]]
    requires n.kids != [] && !IsSimple(n.kids) ==>
               var items := ItemsOf(n.kids, lay, depth + 1, lay.lineBreak);
               ItemsOk(items) && Meanings(items) == n.kids && White(lay.lineBreak + Indented(lay, depth))
    ensures MarkupOk(MarkupOf(n, lay, depth)) && Meaning(MarkupOf(n, lay, depth)) == n
  {
    hide AttributesOk, AttributesOf, AttributeMeanings, ItemsOf, DistinctNames, ValidName, Collapsed, PiecesOf, Indented;
    hide MarkupOk, Meaning, ItemsOk, Meanings, MarkupOf, BodyOk, BodyMeaning;
    BodyMeans(n, lay, depth);
    TagOk(n, lay, depth);
  }

  lemma TagOk(n: Node, lay: Layout, depth: nat)
    requires n.Element? && ValidName(n.name) && '\0' !in n.name && DistinctNames(n.attrs)
    requires AttributesOk(AttributesOf(n.attrs), false) && AttributeMeanings(AttributesOf(n.attrs)) == n.attrs
    requires BodyOk(BodyOf(n, lay, depth)) && BodyMeaning(BodyOf(n, lay, depth)) == n.kids
    ensures MarkupOk(MarkupOf(n, lay, depth)) && Meaning(MarkupOf(n, lay, depth)) == n
  {
    hide AttributesOk, AttributesOf, AttributeMeanings, DistinctNames, ValidName, BodyOk, BodyMeaning, BodyOf;
  }

  lemma BodyMeans(n: Node, lay: Layout, depth: nat)
    requires n.Element?
    requires IsSimple(n.kids) ==>
               var c := Chars(PiecesOf(n.kids[0].value));
               && MarkupOk(c) && Meaning(c) == n.kids[0] && !White(Collapsed(PiecesOf(n.kids[0].value), false))
               && n.kids == [n.kids[0]]
    requires n.kids != [] && !IsSimple(n.kids) ==>
               var items := ItemsOf(n.kids, lay, depth + 1, lay.lineBreak);
               ItemsOk(items) && Meanings(items) == n.kids && White(lay.lineBreak + Indented(lay, depth))
    ensures BodyOk(BodyOf(n, lay, depth)) && BodyMeaning(BodyOf(n, lay, depth)) == n.kids
  {
    hide ItemsOf, Collapsed, PiecesOf, Indented, MarkupOk, Meaning;
    if IsSimple(n.kids) {
      var items := [Item("", Chars(PiecesOf(n.kids[0].value)))];
      assert items[1..] == [];
      ItemsCons(items);
      assert Meanings(items) == [n.kids[0]] + [];
    }
  }

  // ----- Documents -----

  /** The nodes of a document; text has no place there. */
  predicate LegalDocument(kids: seq<Node>) {
    LegalKids(kids) && forall i :: 0 <= i < |kids| ==> !kids[i].Text?
  }

  lemma {:induction false} NoTexts(kids: seq<Node>, lay: Layout, depth: nat, before: string)
    requires forall i :: 0 <= i < |kids| ==> !kids[i].Text?
    ensures var items := ItemsOf(kids, lay, depth, before);
            forall i :: 0 <= i < |items| ==> !items[i].markup.Chars?
    decreases |kids|
  {
    hide MarkupOf, ItemsText, LaidAll;
    if kids != [] {
      var items := ItemsOf(kids, lay, depth, before);
      ItemsFirst(kids, lay, depth, before);
      MarkupShape(kids[0], lay, depth);
      NoTexts(kids[1..], lay, depth, lay.lineBreak);
      forall i | 0 <= i < |items| ensures !items[i].markup.Chars? {
        assert i > 0 ==> items[i] == items[1..][i - 1];
      }
    }
  }

  /**
   Printing a document and parsing what was printed gives the same document, without an error, for the
   printer's default layout, for stream printing and for any other layout made of white space.
   */
  lemma RoundTrip(kids: seq<Node>, lay: Layout)
    requires kids != [] && LegalDocument(kids) && LegalLayout(lay)
    ensures var r := DocumentOf(LaidAll(kids, lay, 0));
            r.value == kids && r.err == None
  {
    hide *;
    var items := ItemsOf(kids, lay, 0, "");
    DocumentParts(kids);
    MarkupShape(kids[0], lay, 0);
    LayoutWhite(lay, 0, "");
    KidsLaid(kids, lay, 0, "");
    NoTexts(kids, lay, 0, "");
    ItemsFirst(kids, lay, 0, "");
    Document(items, lay.lineBreak);
    ReadsDocument(items, lay.lineBreak);
    assert "" + LaidAll(kids, lay, 0) == LaidAll(kids, lay, 0);
  }

  lemma DocumentParts(kids: seq<Node>)
    requires LegalDocument(kids)
    ensures LegalKids(kids) && forall i :: 0 <= i < |kids| ==> !kids[i].Text?
  {
    hide LegalKids;
  }

  lemma Document(items: seq<Item>, after: string)
    requires ItemsOk(items) && White(after) && forall i :: 0 <= i < |items| ==> !items[i].markup.Chars?
    ensures DocumentOk(items, after)
  {
    hide ItemsOk;
  }
}
