/** The children of a TiXmlNode: nodes linked to their parent and to each other, edited in place. */
module ChildList {
  function Inserted<T>(s: seq<T>, i: nat, x: T): seq<T>
    requires i <= |s|
  {
    s[..i] + [x] + s[i..]
  }

  lemma InsertedAt<T>(s: seq<T>, i: nat, x: T)
    requires i <= |s|
    ensures var r := Inserted(s, i, x);
            && |r| == |s| + 1 && r[i] == x
            && (forall j :: 0 <= j < i ==> r[j] == s[j]) && (forall j :: i < j < |r| ==> r[j] == s[j - 1])
  {
  }

  class TiXmlNode {
    const isDocument: bool
    var value: string
    var parent: TiXmlNode?
    var firstChild: TiXmlNode?
    var lastChild: TiXmlNode?
    var prev: TiXmlNode?
    var next: TiXmlNode?
    /** The children, in order. */
    ghost var kids: seq<TiXmlNode>

    constructor (isDocument: bool, value: string)
      ensures Valid() && kids == [] && this.isDocument == isDocument && this.value == value
      ensures parent == prev == next == null
    {
      this.isDocument, this.value := isDocument, value;
      parent, firstChild, lastChild, prev, next := null, null, null, null, null;
      kids := [];
    }

    /** The links of the i-th of some nodes that are claimed to be the children. */
    ghost predicate Linked(ks: seq<TiXmlNode>, i: nat)
      requires i < |ks|
      reads ks
    {
      && ks[i].parent == this
      && ks[i].prev == (if i == 0 then null else ks[i - 1])
      && ks[i].next == (if i == |ks| - 1 then null else ks[i + 1])
    }

    /** The links of this node and of those agree that those are its children. */
    ghost predicate IsList(ks: seq<TiXmlNode>)
      reads this, ks
    {
      && this !in ks
      && (forall i, j :: 0 <= i < j < |ks| ==> ks[i] != ks[j])
      && firstChild == (if ks == [] then null else ks[0])
      && lastChild == (if ks == [] then null else ks[|ks| - 1])
      && forall i :: 0 <= i < |ks| ==> Linked(ks, i)
    }

    ghost predicate Valid()
      reads this, kids
    {
      IsList(kids)
    }

    /** Clone, as far as the list of this node goes: a node that is linked nowhere. */
    method Clone() returns (node: TiXmlNode)
      ensures fresh(node) && node.Valid() && node.kids == [] && node.value == value && node.isDocument == isDocument
      ensures node.parent == node.prev == node.next == null
    {
      node := new TiXmlNode(isDocument, value);
    }

    /**
     A node that is not in the list becomes the last child; a document is refused. The source's assertion also
     lets pass a node that is in the list already: then the links that are left are no list at all.
     */
    method LinkEndChild(node: TiXmlNode) returns (r: TiXmlNode?)
      requires Valid() && node != this && (node.parent == null || node.parent == this)
      modifies this`firstChild, this`lastChild, this`kids, node`parent, node`prev, node`next, kids`next
      ensures r == if node.isDocument then null else node
      ensures node.isDocument ==> Valid() && kids == old(kids)
      ensures !node.isDocument && node !in old(kids) ==> Valid() && kids == old(kids) + [node]
      ensures !node.isDocument && node in old(kids) ==> forall ks: seq<TiXmlNode> :: !IsList(ks)
    {
      if node.isDocument {
        return null;
      }
      ghost var before := kids;
      node.parent := this;
      node.prev := lastChild;
      node.next := null;
      if lastChild != null {
        lastChild.next := node;
      } else {
        firstChild := node;
      }
      lastChild := node;
      r := node;
      if node in before {
        forall ks: seq<TiXmlNode> ensures !IsList(ks) {
          forall i | 0 <= i < |before| - 1 && before[i] != node ensures before[i].next == before[i + 1] {
            assert old(Linked(before, i));
          }
          LinkedTwice(this, before, node, ks);
        }
      } else {
        kids := kids + [node];
        forall i | 0 <= i < |kids| ensures Linked(kids, i) {
          assert i < |before| ==> old(Linked(before, i));
        }
      }
    }

    /** Where a child is. */
    ghost function Index(node: TiXmlNode): (i: nat)
      requires node in kids
      reads this
      ensures i < |kids| && kids[i] == node
    {
      var i :| 0 <= i < |kids| && kids[i] == node; i
    }

    /** What the source asks of a node that is named as a child: one whose parent is this node is in its list. */
    ghost predicate IsChildOrNot(node: TiXmlNode?)
      reads this, node
    {
      node != null && node.parent == this ==> node in kids
    }

    /** A copy goes before a child. Nothing happens if that is no child, or the copy would be of a document. */
    method InsertBeforeChild(beforeThis: TiXmlNode?, addThis: TiXmlNode) returns (r: TiXmlNode?)
      requires Valid() && IsChildOrNot(beforeThis)
      modifies this`firstChild, this`kids, kids`prev, kids`next
      ensures Valid()
      ensures r == null <==> beforeThis == null || old(beforeThis.parent) != this || addThis.isDocument
      ensures r == null ==> kids == old(kids)
      ensures r != null ==>
                var i := old(Index(beforeThis));
                fresh(r) && r.value == addThis.value && kids == Inserted(old(kids), i, r)
    {
      if beforeThis == null || beforeThis.parent != this || addThis.isDocument {
        return null;
      }
      r := addThis.Clone();
      LinkBefore(beforeThis, r);
    }

    /** The links of a node that goes there. */
    method LinkBefore(beforeThis: TiXmlNode, node: TiXmlNode)
      requires Valid() && beforeThis in kids && node !in kids && node != this
      modifies this`firstChild, this`kids, kids`prev, kids`next, node`parent, node`prev, node`next
      ensures Valid()
      ensures var i := old(Index(beforeThis));
              kids == Inserted(old(kids), i, node)
    {
      hide Inserted;
      ghost var i := Index(beforeThis);
      assert Linked(kids, i) && (i > 0 ==> Linked(kids, i - 1));
      node.parent := this;
      node.next := beforeThis;
      node.prev := beforeThis.prev;
      if beforeThis.prev != null {
        beforeThis.prev.next := node;
      } else {
        assert firstChild == beforeThis;
        firstChild := node;
      }
      beforeThis.prev := node;
      InsertedAt(kids, i, node);
      kids := Inserted(kids, i, node);
      forall j | 0 <= j < |kids| ensures Linked(kids, j) {
        assert j < i ==> old(Linked(kids, j));
        assert j > i ==> old(Linked(kids, j - 1));
      }
    }

    /** A copy goes after a child. */
    method InsertAfterChild(afterThis: TiXmlNode?, addThis: TiXmlNode) returns (r: TiXmlNode?)
      requires Valid() && IsChildOrNot(afterThis)
      modifies this`lastChild, this`kids, kids`prev, kids`next
      ensures Valid()
      ensures r == null <==> afterThis == null || old(afterThis.parent) != this || addThis.isDocument
      ensures r == null ==> kids == old(kids)
      ensures r != null ==>
                var i := old(Index(afterThis)) + 1;
                fresh(r) && r.value == addThis.value && kids == Inserted(old(kids), i, r)
    {
      if afterThis == null || afterThis.parent != this || addThis.isDocument {
        return null;
      }
      r := addThis.Clone();
      LinkAfter(afterThis, r);
    }

    /** The links of a node that goes there. */
    method LinkAfter(afterThis: TiXmlNode, node: TiXmlNode)
      requires Valid() && afterThis in kids && node !in kids && node != this
      modifies this`lastChild, this`kids, kids`prev, kids`next, node`parent, node`prev, node`next
      ensures Valid()
      ensures var i := old(Index(afterThis)) + 1;
              kids == Inserted(old(kids), i, node)
    {
      hide Inserted;
      ghost var i := Index(afterThis) + 1;
      assert Linked(kids, i - 1) && (i < |kids| ==> Linked(kids, i));
      node.parent := this;
      node.prev := afterThis;
      node.next := afterThis.next;
      if afterThis.next != null {
        afterThis.next.prev := node;
      } else {
        assert lastChild == afterThis;
        lastChild := node;
      }
      afterThis.next := node;
      InsertedAt(kids, i, node);
      kids := Inserted(kids, i, node);
      forall j | 0 <= j < |kids| ensures Linked(kids, j) {
        assert j < i ==> old(Linked(kids, j));
        assert j > i ==> old(Linked(kids, j - 1));
      }
    }

    /** A copy takes the place of a child, which is deleted. */
    method ReplaceChild(replaceThis: TiXmlNode?, withThis: TiXmlNode) returns (r: TiXmlNode?)
      requires Valid() && IsChildOrNot(replaceThis)
      modifies this`firstChild, this`lastChild, this`kids, kids`prev, kids`next
      ensures Valid()
      ensures r == null <==> replaceThis == null || old(replaceThis.parent) != this || withThis.isDocument
      ensures r == null ==> kids == old(kids)
      ensures r != null ==>
                var i := old(Index(replaceThis));
                fresh(r) && r.value == withThis.value && kids == old(kids)[i := r] && replaceThis !in kids
    {
      if replaceThis == null || replaceThis.parent != this || withThis.isDocument {
        return null;
      }
      r := withThis.Clone();
      LinkInstead(replaceThis, r);
    }

    /** The links of a node that goes in the place of a child. */
    method LinkInstead(replaceThis: TiXmlNode, node: TiXmlNode)
      requires Valid() && replaceThis in kids && node !in kids && node != this
      modifies this`firstChild, this`lastChild, this`kids, kids`prev, kids`next, node`parent, node`prev, node`next
      ensures Valid() && kids == old(kids)[old(Index(replaceThis)) := node] && replaceThis !in kids
    {
      ghost var i := Index(replaceThis);
      assert Linked(kids, i) && (i > 0 ==> Linked(kids, i - 1)) && (i + 1 < |kids| ==> Linked(kids, i + 1));
      node.next := replaceThis.next;
      node.prev := replaceThis.prev;
      if replaceThis.next != null {
        replaceThis.next.prev := node;
      } else {
        lastChild := node;
      }
      if replaceThis.prev != null {
        replaceThis.prev.next := node;
      } else {
        firstChild := node;
      }
      kids := kids[i := node];
      node.parent := this;
      forall j | 0 <= j < |kids| ensures Linked(kids, j) {
        assert old(Linked(kids, j));
      }
    }

    /** A child is taken out and deleted. */
    method RemoveChild(removeThis: TiXmlNode?) returns (removed: bool)
      requires Valid() && IsChildOrNot(removeThis)
      modifies this`firstChild, this`lastChild, this`kids, kids`prev, kids`next
      ensures Valid()
      ensures removed <==> removeThis != null && old(removeThis.parent) == this
      ensures !removed ==> kids == old(kids)
      ensures removed ==>
                var i := old(Index(removeThis));
                kids == old(kids)[..i] + old(kids)[i + 1..] && removeThis !in kids
    {
      if removeThis == null || removeThis.parent != this {
        return false;
      }
      ghost var i := Index(removeThis);
      assert Linked(kids, i) && (i > 0 ==> Linked(kids, i - 1)) && (i + 1 < |kids| ==> Linked(kids, i + 1));
      if removeThis.next != null {
        removeThis.next.prev := removeThis.prev;
      } else {
        lastChild := removeThis.prev;
      }
      if removeThis.prev != null {
        removeThis.prev.next := removeThis.next;
      } else {
        firstChild := removeThis.next;
      }
      kids := kids[..i] + kids[i + 1..];
      forall j | 0 <= j < |kids| ensures Linked(kids, j) {
        assert j < i ==> old(Linked(kids, j));
        assert j >= i ==> old(Linked(kids, j + 1));
      }
      removed := true;
    }

    /** Clear, and the loop of the destructor: every child is met once, in order. */
    method Clear() returns (ghost deleted: seq<TiXmlNode>)
      requires Valid()
      modifies this`firstChild, this`lastChild, this`kids
      ensures Valid() && kids == [] && deleted == old(kids)
    {
      var node := firstChild;
      deleted := [];
      while node != null
        invariant deleted <= kids
        invariant node == if |deleted| == |kids| then null else kids[|deleted|]
        decreases |kids| - |deleted|
      {
        assert Linked(kids, |deleted|);
        deleted := deleted + [node];
        node := node.next;
      }
      firstChild, lastChild := null, null;
      kids := [];
    }
  }

  // ----- A node that is linked twice -----

  /** The last child is linked behind itself or behind the old last one, which is not where it was found. */
  lemma LinkedTwice(p: TiXmlNode, before: seq<TiXmlNode>, node: TiXmlNode, ks: seq<TiXmlNode>)
    requires node in before && forall i, j :: 0 <= i < j < |before| ==> before[i] != before[j]
    requires p.firstChild == before[0] && node.prev == before[|before| - 1]
    requires forall i :: 0 <= i < |before| - 1 && before[i] != node ==> before[i].next == before[i + 1]
    ensures !p.IsList(ks)
  {
    if p.IsList(ks) {
      var n :| 0 <= n < |before| && before[n] == node;
      PrefixLinks(p, before, node, n, n, ks);
      assert p.Linked(ks, n);
      if n > 0 {
        PrefixLinks(p, before, node, n, n - 1, ks);
      }
    }
  }

  /** Following the links from the first child leads along the old list up to that node. */
  lemma {:induction false} PrefixLinks(p: TiXmlNode, before: seq<TiXmlNode>, node: TiXmlNode, n: nat, i: nat,
                                       ks: seq<TiXmlNode>)
    requires i <= n < |before| && before[n] == node && p.IsList(ks) && p.firstChild == before[0]
    requires forall k, l :: 0 <= k < l < |before| ==> before[k] != before[l]
    requires forall k :: 0 <= k < |before| - 1 && before[k] != node ==> before[k].next == before[k + 1]
    ensures i < |ks| && ks[i] == before[i]
  {
    if i > 0 {
      PrefixLinks(p, before, node, n, i - 1, ks);
      assert p.Linked(ks, i - 1) && before[i - 1].next == before[i - 1 + 1];
    }
  }
}
