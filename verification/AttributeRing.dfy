/** TiXmlAttributeSet: a ring of attributes through a sentinel, kept in the order in which they were added. */
module AttributeRing {
  class TiXmlAttribute {
    var name: string
    var value: string
    var prev: TiXmlAttribute?
    var next: TiXmlAttribute?

    constructor (name: string, value: string)
      ensures this.name == name && this.value == value && prev == next == null
    {
      this.name, this.value, prev, next := name, value, null, null;
    }
  }

  class TiXmlAttributeSet {
    const sentinel: TiXmlAttribute
    /** The attributes, oldest first. */
    ghost var attrs: seq<TiXmlAttribute>

    constructor ()
      ensures Valid() && attrs == [] && fresh(sentinel)
    {
      sentinel := new TiXmlAttribute("", "");
      attrs := [];
      new;
      sentinel.next := sentinel;
      sentinel.prev := sentinel;
    }

    /** The i-th of the ring, in which the sentinel comes before the first attribute and after the last. */
    ghost function At(i: int): TiXmlAttribute
      reads this
    {
      if 0 <= i < |attrs| then attrs[i] else sentinel
    }

    ghost predicate Linked(i: int)
      reads this, sentinel`prev, sentinel`next, attrs`prev, attrs`next
    {
      At(i).prev == At(i - 1) && At(i).next == At(i + 1)
    }

    /** The sentinel's links go to the last and the first attribute, the others to their neighbours. */
    ghost predicate Valid()
      reads this, sentinel`prev, sentinel`next, attrs`prev, attrs`next
    {
      && sentinel !in attrs
      && sentinel.prev == At(|attrs| - 1) && sentinel.next == At(0)
      && (forall i :: 0 <= i < |attrs| ==> Linked(i))
      && (forall i, j :: 0 <= i < j < |attrs| ==> attrs[i] != attrs[j])
    }

    /** No two attributes have the same name. */
    ghost predicate Distinct()
      reads this, attrs`name
    {
      forall i, j :: 0 <= i < j < |attrs| ==> attrs[i].name != attrs[j].name
    }

    ghost predicate Has(name: string)
      reads this, attrs`name
    {
      exists a :: a in attrs && a.name == name
    }

    method First() returns (a: TiXmlAttribute?)
      requires Valid()
      ensures a == if attrs == [] then null else attrs[0]
    {
      a := if sentinel.next == sentinel then null else sentinel.next;
    }

    method Last() returns (a: TiXmlAttribute?)
      requires Valid()
      ensures a == if attrs == [] then null else attrs[|attrs| - 1]
    {
      a := if sentinel.prev == sentinel then null else sentinel.prev;
    }

    /** The attribute with a name, if there is one; it is the only one when the names are distinct. */
    method Find(name: string) returns (a: TiXmlAttribute?)
      requires Valid()
      ensures a == null ==> !Has(name)
      ensures a != null ==> a in attrs && a.name == name
      ensures a != null && Distinct() ==> forall b :: b in attrs && b.name == name ==> b == a
    {
      var node := sentinel.next;
      ghost var i := 0;
      while node != sentinel
        invariant 0 <= i <= |attrs| && node == At(i)
        invariant forall j :: 0 <= j < i ==> attrs[j].name != name
        decreases |attrs| - i
      {
        assert Linked(i);
        if node.name == name {
          return node;
        }
        node := node.next;
        i := i + 1;
      }
      a := null;
    }

    /** The links of a new attribute, before the sentinel. */
    method Append(addMe: TiXmlAttribute)
      requires Valid() && addMe != sentinel && addMe !in attrs
      modifies this`attrs, sentinel`prev, sentinel`next, attrs`next, addMe`prev, addMe`next
      ensures Valid() && attrs == old(attrs) + [addMe]
    {
      ghost var n := |attrs|;
      assert n > 0 ==> Linked(n - 1);
      addMe.next := sentinel;
      addMe.prev := sentinel.prev;
      sentinel.prev.next := addMe;
      sentinel.prev := addMe;
      attrs := attrs + [addMe];
      forall i | 0 <= i < |attrs| ensures Linked(i) {
        assert i < n ==> old(Linked(i));
      }
    }

    /** A new attribute goes last; the assertion asks that its name is new, and names stay distinct exactly then. */
    method Add(addMe: TiXmlAttribute) returns (asserted: bool)
      requires Valid() && addMe != sentinel && addMe !in attrs
      modifies this`attrs, sentinel`prev, sentinel`next, attrs`next, addMe`prev, addMe`next
      ensures Valid() && attrs == old(attrs) + [addMe]
      ensures asserted <==> !old(Has(addMe.name))
      ensures Distinct() <==> old(Distinct()) && asserted
    {
      var same := Find(addMe.name);
      asserted := same == null;
      ghost var n := |attrs|;
      NameIsNew(addMe.name);
      Append(addMe);
      AddedDistinct(n);
      assert forall i :: 0 <= i < n ==> attrs[i] == old(attrs[i]) && attrs[i].name == old(attrs[i].name);
    }

    lemma NameIsNew(name: string)
      ensures !Has(name) <==> forall i :: 0 <= i < |attrs| ==> attrs[i].name != name
    {
    }

    lemma AddedDistinct(n: nat)
      requires |attrs| == n + 1
      ensures Distinct() <==> (forall i, j :: 0 <= i < j < n ==> attrs[i].name != attrs[j].name)
                              && forall i :: 0 <= i < n ==> attrs[i].name != attrs[n].name
    {
    }

    ghost function Index(a: TiXmlAttribute): (i: nat)
      requires a in attrs
      reads this
      ensures i < |attrs| && attrs[i] == a
    {
      var i :| 0 <= i < |attrs| && attrs[i] == a; i
    }

    /** An attribute is taken out, and the others keep their order. */
    method Remove(removeMe: TiXmlAttribute)
      requires Valid() && removeMe in attrs
      modifies this`attrs, sentinel`prev, sentinel`next, attrs`prev, attrs`next
      ensures Valid() && (old(Distinct()) ==> Distinct())
      ensures var i := old(Index(removeMe));
              attrs == old(attrs)[..i] + old(attrs)[i + 1..] && removeMe !in attrs
      ensures removeMe.prev == removeMe.next == null
    {
      ghost var k := Index(removeMe);
      var node := sentinel.next;
      ghost var i := 0;
      while node != removeMe
        invariant 0 <= i <= k && node == At(i)
        decreases k - i
      {
        assert Linked(i);
        node := node.next;
        i := i + 1;
      }
      assert i == k;
      Unlink(node, k);
    }

    method Unlink(node: TiXmlAttribute, ghost k: nat)
      requires Valid() && k < |attrs| && attrs[k] == node
      modifies this`attrs, sentinel`prev, sentinel`next, attrs`prev, attrs`next
      ensures Valid() && attrs == old(attrs)[..k] + old(attrs)[k + 1..]
      ensures node.prev == node.next == null
    {
      assert Linked(k) && (k > 0 ==> Linked(k - 1)) && (k + 1 < |attrs| ==> Linked(k + 1));
      node.prev.next := node.next;
      node.next.prev := node.prev;
      node.next := null;
      node.prev := null;
      attrs := attrs[..k] + attrs[k + 1..];
      forall j | 0 <= j < |attrs| ensures Linked(j) {
        assert j < k ==> old(Linked(j));
        assert j >= k ==> old(Linked(j + 1));
      }
    }

    /**
     The attribute with a name; if there is none, a new one, added last. It is added without a name and named
     after, so the assertion that its name is new holds exactly if the name asked for is there or no attribute
     has an empty name; without assertions the outcome is the same in either case.
     */
    method FindOrCreate(name: string) returns (a: TiXmlAttribute, asserted: bool)
      requires Valid() && Distinct()
      modifies this`attrs, sentinel`prev, sentinel`next, attrs`next
      ensures Valid() && Distinct() && a in attrs && a.name == name
      ensures asserted <==> old(Has(name)) || !old(Has(""))
      ensures old(Has(name)) ==> attrs == old(attrs)
      ensures !old(Has(name)) ==> fresh(a) && a.value == "" && attrs == old(attrs) + [a]
    {
      var found := Find(name);
      if found != null {
        return found, true;
      }
      a, asserted := Create(name);
    }

    /** A new attribute is added without a name and named after. */
    method Create(name: string) returns (a: TiXmlAttribute, asserted: bool)
      requires Valid() && Distinct() && !Has(name)
      modifies this`attrs, sentinel`prev, sentinel`next, attrs`next
      ensures Valid() && Distinct() && attrs == old(attrs) + [a] && fresh(a) && a.name == name && a.value == ""
      ensures asserted <==> !old(Has(""))
    {
      NameIsNew(name);
      ghost var n := |attrs|;
      a := new TiXmlAttribute("", "");
      asserted := Add(a);
      a.name := name;
      AddedDistinct(n);
      assert forall i :: 0 <= i < n ==> attrs[i] == old(attrs[i]) && attrs[i].name == old(attrs[i].name);
    }

    /** The attributes as a map. */
    ghost predicate Maps(name: string, value: string)
      reads this, attrs`name, attrs`value
    {
      exists a :: a in attrs && a.name == name && a.value == value
    }

    lemma HasMaps(name: string)
      ensures Has(name) <==> exists value :: Maps(name, value)
    {
      if a :| a in attrs && a.name == name {
        assert Maps(name, a.value);
      }
    }

    /** Setting an attribute changes the value of that name alone; the others keep their places, and a new one goes last. */
    method SetAttribute(name: string, value: string) returns (asserted: bool)
      requires Valid() && Distinct()
      modifies this`attrs, sentinel`prev, sentinel`next, attrs`next, attrs`value
      ensures Valid() && Distinct()
      ensures asserted <==> old(Has(name)) || !old(Has(""))
      ensures Has(name)
      ensures old(Has(name)) ==> attrs == old(attrs)
      ensures !old(Has(name)) ==>
                |attrs| == |old(attrs)| + 1 && attrs[..|old(attrs)|] == old(attrs)
                && fresh(attrs[|old(attrs)|]) && attrs[|old(attrs)|].name == name
      ensures forall n, v :: Maps(n, v) <==> if n == name then v == value else old(Maps(n, v))
    {
      var a;
      a, asserted := FindOrCreate(name);
      a.value := value;
      forall n, v ensures Maps(n, v) <==> if n == name then v == value else old(Maps(n, v)) {
        forall b | b in old(attrs) ensures b in attrs && b.name == old(b.name) && (b != a ==> b.value == old(b.value)) {
        }
        assert forall b :: b in attrs && b.name == name ==> b == a;
      }
    }
  }

  /** Setting an attribute with an empty name and then another makes the assertion fail; both are set. */
  method EmptyNameAsserts(name: string, value: string, v: string) returns (r: TiXmlAttributeSet, first: bool, asserted: bool)
    requires name != ""
    ensures first && !asserted
    ensures fresh(r) && r.Valid() && r.Distinct() && r.Maps("", v) && r.Maps(name, value)
  {
    r := new TiXmlAttributeSet();
    first := r.SetAttribute("", v);
    r.HasMaps("");
    r.HasMaps(name);
    asserted := r.SetAttribute(name, value);
  }
}
