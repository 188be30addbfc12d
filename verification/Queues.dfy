/** Circular lists as sequences: ST_APPEND_LINK puts an element at the end, ST_REMOVE_LINK takes it out. */
module Queues {
  predicate NoDup<T(==)>(s: seq<T>) {
    forall i, j :: 0 <= i < j < |s| ==> s[i] != s[j]
  }

  /** Where an element is, or the length of the list. */
  function Position<T(==)>(s: seq<T>, t: T): (i: nat)
    ensures i <= |s| && (i < |s| ==> s[i] == t)
    ensures forall j :: 0 <= j < i ==> s[j] != t
  {
    if s == [] || s[0] == t then 0 else 1 + Position(s[1..], t)
  }

  /** ST_REMOVE_LINK */
  function Without<T(==)>(s: seq<T>, t: T): (r: seq<T>)
    ensures |r| == if t in s then |s| - 1 else |s|
    ensures forall j :: 0 <= j < |r| ==> r[j] == s[if j < Position(s, t) then j else j + 1]
  {
    var i := Position(s, t);
    if i == |s| then s else s[..i] + s[i + 1..]
  }

  /** One element comes before another. */
  predicate Before<T(==)>(s: seq<T>, t: T, u: T) {
    exists i, j :: 0 <= i < j < |s| && s[i] == t && s[j] == u
  }

  lemma AppendMembers<T>(s: seq<T>, t: T)
    requires NoDup(s) && t !in s
    ensures NoDup(s + [t])
    ensures forall u :: u in s + [t] <==> u in s || u == t
    ensures forall u, v :: Before(s, u, v) ==> Before(s + [t], u, v)
  {
    forall u, v | Before(s, u, v) ensures Before(s + [t], u, v) {
      var i, j :| 0 <= i < j < |s| && s[i] == u && s[j] == v;
      assert (s + [t])[i] == u && (s + [t])[j] == v;
    }
  }

  lemma TailMembers<T>(s: seq<T>)
    requires s != [] && NoDup(s)
    ensures NoDup(s[1..])
    ensures forall u :: u in s[1..] <==> u in s && u != s[0]
  {
    assert s == [s[0]] + s[1..];
  }

  lemma WithoutMembers<T>(s: seq<T>, t: T)
    requires NoDup(s)
    ensures NoDup(Without(s, t))
    ensures forall u :: u in Without(s, t) <==> u in s && u != t
  {
    var w, i := Without(s, t), Position(s, t);
    forall u | u in s && u != t ensures u in w {
      var j :| 0 <= j < |s| && s[j] == u;
      assert w[if j < i then j else j - 1] == u;
    }
  }

  /** The others keep their order. */
  lemma WithoutOrder<T>(s: seq<T>, t: T, u: T, v: T)
    requires NoDup(s) && Before(s, u, v) && u != t && v != t
    ensures Before(Without(s, t), u, v)
  {
    var j, k :| 0 <= j < k < |s| && s[j] == u && s[k] == v;
    var w, i := Without(s, t), Position(s, t);
    assert w[if j < i then j else j - 1] == u && w[if k < i then k else k - 1] == v;
  }
}
