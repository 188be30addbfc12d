/**
 What one round of the loops in lock_free_queue.cpp does when no other thread comes in between, and
 what its checks and swaps do when one did. `Linearizable` needs neither: there the counts may be
 anything. Here they are what the source writes.
 */
module LockFreeAlone {
  import opened Wrappers
  import opened LockFreeQueue

  /** k accesses of one thread with none of another in between. */
  function Alone(sh: Shared, l: Local, k: nat): (Shared, Local)
    decreases k
  {
    if k == 0 then (sh, l)
    else var (sh', l') := Access(sh, l); Alone(sh', l', k - 1)
  }

  lemma {:induction false} AloneTwice(sh: Shared, l: Local, j: nat, k: nat)
    ensures Alone(sh, l, j + k) == Alone(Alone(sh, l, j).0, Alone(sh, l, j).1, k)
    decreases j
  {
    hide Access;
    if j != 0 {
      var (sh', l') := Access(sh, l);
      AloneTwice(sh', l', j - 1, k);
    }
  }

  lemma {:induction false} TwoAccesses(sh: Shared, l: Local)
    ensures Alone(sh, l, 2) == Access(Access(sh, l).0, Access(sh, l).1)
  {
    hide Access;
    var (sh', l') := Access(sh, l);
    var (sh'', l'') := Access(sh', l');
    assert Alone(sh'', l'', 0) == (sh'', l'');
    assert Alone(sh', l', 1) == Alone(sh'', l'', 0);
  }

  /** A count is a 32-bit number in two's complement: the one congruent to what was to be stored. */
  lemma WrapMeans(c: int)
    ensures -0x8000_0000 <= Wrap(c) <= 0x7fff_ffff
    ensures (Wrap(c) - c) % 0x1_0000_0000 == 0
    ensures -0x8000_0000 <= c <= 0x7fff_ffff ==> Wrap(c) == c
  {
    var d := c + 0x8000_0000;
    assert Wrap(c) - c == d % 0x1_0000_0000 - d;
    assert d % 0x1_0000_0000 - d == -(d / 0x1_0000_0000) * 0x1_0000_0000;
  }

  /** The calls begin: enqueue with a new node behind the others, which holds the value and no link. */
  lemma CallBegins(sh: Shared, v: Value)
    ensures var (sh', l) := Enter(sh, Enqueue(v));
            && l == EnqReadTailCount(|sh.nodes|)
            && |sh'.nodes| == |sh.nodes| + 1 && sh'.nodes[|sh.nodes|] == Node(v, Ptr(None, 0))
            && (forall a :: 0 <= a < |sh.nodes| ==> sh'.nodes[a] == sh.nodes[a])
            && sh'.head == sh.head && sh'.tail == sh.tail && sh'.freed == sh.freed
    ensures Enter(sh, Dequeue) == (sh, DeqReadHeadPtr)
  {
  }

  /** The seven accesses of enqueue before its swap copy tail and the link behind it. */
  lemma EnqueueReads(sh: Shared, n: Addr)
    requires Live(sh, sh.tail.ptr)
    ensures var next := sh.nodes[sh.tail.ptr.value].next;
            Alone(sh, EnqReadTailCount(n), 6)
            == (sh, if next.ptr.None? then EnqLink(n, sh.tail, next) else EnqSwing(n, sh.tail, next))
  {
    var tail := sh.tail;
    var next := sh.nodes[tail.ptr.value].next;
    TwoAccesses(sh, EnqCheckCount(n, tail, next));
    assert Alone(sh, EnqCheckCount(n, tail, next), 2)
        == (sh, if next.ptr.None? then EnqLink(n, tail, next) else EnqSwing(n, tail, next));
    TwoAccesses(sh, EnqReadNextPtr(n, tail));
    assert Alone(sh, EnqReadNextPtr(n, tail), 2) == (sh, EnqCheckCount(n, tail, next));
    AloneTwice(sh, EnqReadNextPtr(n, tail), 2, 2);
    TwoAccesses(sh, EnqReadTailCount(n));
    assert Alone(sh, EnqReadTailCount(n), 2) == (sh, EnqReadNextPtr(n, tail));
    AloneTwice(sh, EnqReadTailCount(n), 2, 4);
  }

  /**
   A round of enqueue. Behind the last node the new one is linked, with a count one higher, and the
   tail stays. Otherwise the tail moves on to the next node, with a count higher by `bump`, and the
   loop begins again.
   */
  lemma EnqueueRound(sh: Shared, n: Addr)
    requires Live(sh, sh.tail.ptr)
    ensures var last := sh.tail.ptr.value;
            var next := sh.nodes[last].next;
            var (sh', l) := Alone(sh, EnqReadTailCount(n), 8);
            && sh'.head == sh.head && sh'.freed == sh.freed && |sh'.nodes| == |sh.nodes|
            && (forall a :: 0 <= a < |sh.nodes| && (next.ptr.Some? || a != last) ==> sh'.nodes[a] == sh.nodes[a])
            && (if next.ptr.None?
                then && l == EnqDone && sh'.tail == sh.tail
                     && sh'.nodes[last] == Node(sh.nodes[last].value, Ptr(Some(n), Wrap(next.count + 1)))
                else l == EnqReadTailCount(n) && sh'.tail == Ptr(next.ptr, Wrap(sh.tail.count + sh.bump)))
  {
    EnqueueReads(sh, n);
    AloneTwice(sh, EnqReadTailCount(n), 6, 2);
    var next := sh.nodes[sh.tail.ptr.value].next;
    TwoAccesses(sh, if next.ptr.None? then EnqLink(n, sh.tail, next) else EnqSwing(n, sh.tail, next));
  }

  /** The eight accesses of dequeue before it decides copy head, tail and the link behind head. */
  lemma DequeueReads(sh: Shared)
    requires Live(sh, sh.head.ptr)
    ensures var next := sh.nodes[sh.head.ptr.value].next;
            Alone(sh, DeqReadHeadPtr, 8)
            == (sh, if sh.head.ptr != sh.tail.ptr then DeqReadValue(sh.head, next)
                    else if next.ptr.None? then DeqDone(None)
                    else DeqSwing(sh.head, sh.tail, next))
  {
    var head, tail := sh.head, sh.tail;
    var next := sh.nodes[head.ptr.value].next;
    TwoAccesses(sh, DeqCheckCount(head, tail, next));
    AloneTwice(sh, DeqReadNextCount(head, tail), 2, 2);
    TwoAccesses(sh, DeqReadNextCount(head, tail));
    assert Alone(sh, DeqReadNextCount(head, tail), 2) == (sh, DeqCheckCount(head, tail, next));
    AloneTwice(sh, DeqReadTailCount(head), 2, 4);
    TwoAccesses(sh, DeqReadTailCount(head));
    assert Alone(sh, DeqReadTailCount(head), 2) == (sh, DeqReadNextCount(head, tail));
    AloneTwice(sh, DeqReadHeadPtr, 2, 6);
    TwoAccesses(sh, DeqReadHeadPtr);
    assert Alone(sh, DeqReadHeadPtr, 2) == (sh, DeqReadTailCount(head));
  }

  /** An empty queue, head and tail at a node with no link: dequeue returns 0 and leaves it as it is. */
  lemma DequeueEmpty(sh: Shared)
    requires Live(sh, sh.head.ptr) && sh.head.ptr == sh.tail.ptr
    requires sh.nodes[sh.head.ptr.value].next.ptr == None
    ensures Alone(sh, DeqReadHeadPtr, 8) == (sh, DeqDone(None))
  {
    DequeueReads(sh);
  }

  /** A tail that lags at head: dequeue moves it on, with a count one higher, and begins again. */
  lemma DequeueHelps(sh: Shared)
    requires Live(sh, sh.head.ptr) && sh.head.ptr == sh.tail.ptr
    requires sh.nodes[sh.head.ptr.value].next.ptr != None
    ensures var (sh', l) := Alone(sh, DeqReadHeadPtr, 10);
            && l == DeqReadHeadPtr
            && sh'.tail == Ptr(sh.nodes[sh.head.ptr.value].next.ptr, Wrap(sh.tail.count + 1))
            && sh'.head == sh.head && sh'.nodes == sh.nodes && sh'.freed == sh.freed
  {
    hide Access, Wrap;
    DequeueReads(sh);
    AloneTwice(sh, DeqReadHeadPtr, 8, 2);
    TailMoves(sh, sh.head, sh.tail, sh.nodes[sh.head.ptr.value].next);
  }

  lemma TailMoves(sh: Shared, head: Ptr, tail: Ptr, next: Ptr)
    requires sh.tail.ptr == tail.ptr
    ensures var (sh', l) := Alone(sh, DeqSwing(head, tail, next), 2);
            && l == DeqReadHeadPtr && sh'.tail == Ptr(next.ptr, Wrap(tail.count + 1))
            && sh'.head == sh.head && sh'.nodes == sh.nodes && sh'.freed == sh.freed
  {
    TwoAccesses(sh, DeqSwing(head, tail, next));
  }

  /**
   Otherwise dequeue moves head on to the next node, with a count one higher, frees the old dummy and
   returns the value of the next node, which is the dummy now.
   */
  lemma DequeueTakes(sh: Shared)
    requires Live(sh, sh.head.ptr) && sh.head.ptr != sh.tail.ptr && sh.head.ptr.value !in sh.freed
    requires Live(sh, sh.nodes[sh.head.ptr.value].next.ptr)
    ensures var next := sh.nodes[sh.head.ptr.value].next;
            var (sh', l) := Alone(sh, DeqReadHeadPtr, 12);
            && l == DeqDone(Some(sh.nodes[next.ptr.value].value))
            && sh'.head == Ptr(next.ptr, Wrap(sh.head.count + 1))
            && sh'.tail == sh.tail && sh'.nodes == sh.nodes && sh'.freed == sh.freed + {sh.head.ptr.value}
  {
    hide Access, Wrap;
    DequeueReads(sh);
    var next := sh.nodes[sh.head.ptr.value].next;
    AloneTwice(sh, DeqReadHeadPtr, 8, 4);
    AloneTwice(sh, DeqReadValue(sh.head, next), 2, 2);
    HeadMoves(sh, next);
    DummyFreed(HeadSwung(sh, next.ptr), sh.head.ptr.value, Wrap(sh.head.count + 1), sh.nodes[next.ptr.value].value);
  }

  lemma HeadMoves(sh: Shared, next: Ptr)
    requires sh.head.ptr.Some? && Live(sh, next.ptr)
    ensures Alone(sh, DeqReadValue(sh.head, next), 2)
         == (HeadSwung(sh, next.ptr),
             DeqHeadCount(sh.head.ptr.value, Wrap(sh.head.count + 1), sh.nodes[next.ptr.value].value))
  {
    TwoAccesses(sh, DeqReadValue(sh.head, next));
  }

  lemma DummyFreed(sh: Shared, a: Addr, count: int, v: Value)
    requires a !in sh.freed
    ensures Alone(sh, DeqHeadCount(a, count, v), 2)
         == (sh.(head := Ptr(sh.head.ptr, count), freed := sh.freed + {a}), DeqDone(Some(v)))
  {
    TwoAccesses(sh, DeqHeadCount(a, count, v));
  }

  /** A pointer and count read before go on only if both are still those of the queue. */
  lemma ChecksBoth(sh: Shared, n: Addr, head: Ptr, tail: Ptr, next: Ptr)
    ensures var (sh', l) := Alone(sh, EnqCheckCount(n, tail, next), 2);
            && sh' == sh
            && ((l.EnqLink? || l.EnqSwing?) <==> tail == sh.tail)
    ensures var (sh', l) := Alone(sh, DeqCheckCount(head, tail, next), 2);
            && sh' == sh
            && ((l.DeqReadValue? || l.DeqDone? || l.DeqSwing?) <==> head == sh.head)
  {
    TwoAccesses(sh, EnqCheckCount(n, tail, next));
    TwoAccesses(sh, DeqCheckCount(head, tail, next));
  }

  /** The count is compared first: a thread goes round again at once if it is not the one it read. */
  lemma ChecksApart(sh: Shared, n: Addr, head: Ptr, tail: Ptr, next: Ptr)
    ensures Access(sh, EnqCheckCount(n, tail, next)).1.EnqCheckPtr? <==> tail.count == sh.tail.count
    ensures Access(sh, EnqCheckPtr(n, tail, next)).1 != EnqReadTailCount(n) <==> tail.ptr == sh.tail.ptr
    ensures Access(sh, DeqCheckCount(head, tail, next)).1.DeqCheckPtr? <==> head.count == sh.head.count
    ensures Access(sh, DeqCheckPtr(head, tail, next)).1 != DeqReadHeadPtr <==> head.ptr == sh.head.ptr
  {
  }

  /** A swap succeeds exactly if the pointer is still the one it expects; otherwise it changes nothing. */
  lemma SwapsIfSame(sh: Shared, n: Addr, head: Ptr, tail: Ptr, next: Ptr, v: Value)
    requires Live(sh, tail.ptr) && head.ptr.Some?
    ensures sh.nodes[tail.ptr.value].next.ptr == next.ptr <==> Access(sh, EnqLink(n, tail, next)).0 != sh
    ensures sh.nodes[tail.ptr.value].next.ptr != next.ptr ==>
              Access(sh, EnqLink(n, tail, next)) == (sh, EnqReadTailCount(n))
    ensures sh.tail.ptr != tail.ptr ==>
              && Access(sh, EnqSwing(n, tail, next)) == (sh, EnqReadTailCount(n))
              && Access(sh, DeqSwing(head, tail, next)) == (sh, DeqReadHeadPtr)
    ensures sh.head.ptr != head.ptr ==> Access(sh, DeqCas(head, next, v)) == (sh, DeqReadHeadPtr)
    ensures sh.nodes[tail.ptr.value].next.ptr == next.ptr ==>
              Access(sh, EnqLink(n, tail, next)).0.nodes[tail.ptr.value].next.ptr == Some(n)
    ensures sh.tail.ptr == tail.ptr ==>
              && Access(sh, EnqSwing(n, tail, next)).0.tail.ptr == next.ptr
              && Access(sh, DeqSwing(head, tail, next)).0.tail.ptr == next.ptr
    ensures sh.head.ptr == head.ptr ==> Access(sh, DeqCas(head, next, v)).0.head.ptr == next.ptr
  {
    assert |Linked(sh, tail.ptr.value, n).hist.chain| == |sh.hist.chain| + 1;
  }
}
