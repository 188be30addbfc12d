/**
 The queue of Michael and Scott as lock_free_queue.cpp and lock_queue.h write it, run by any number
 of threads. One step of a thread makes at most one access to shared memory: a pointer and its
 count are read separately, and `cas` is an atomic compare-and-swap of the pointer followed by a
 separate store of the count. Addresses are never reused.
 */
module LockFreeQueue {
  import opened Wrappers

  type Addr = nat
  type Tid = nat
  type Value = int

  /** st_pointer_t. A None pointer is NULL. */
  datatype Ptr = Ptr(ptr: Option<Addr>, count: int)

  /** st_node_t */
  datatype Node = Node(value: Value, next: Ptr)

  /**
   Which nodes were ever linked. The algorithm never reads it. `chain` lists the linked nodes in
   link order, `pos` gives the index of each in `chain`; `hi` and `ti` are the indices of the nodes
   that head and tail point to.
   */
  datatype History = History(chain: seq<Addr>, pos: map<Addr, nat>, hi: nat, ti: nat)

  /**
   st_queue_t with the memory it lives in: `nodes[a]` is the node at address `a`, `freed` are the
   addresses given to free. `bump` is what a swing of the tail in enqueue adds to the count: 2 in
   lock_free_queue.cpp, 1 in lock_queue.h.
   */
  datatype Shared = Shared(head: Ptr, tail: Ptr, nodes: seq<Node>, freed: set<Addr>, bump: int, hist: History)

  /** The point a thread has reached and its local variables there. Each names the access it makes next. */
  datatype Local =
    | Idle
    | EnqReadTailCount(node: Addr)
    | EnqReadTailPtr(node: Addr, tailCount: int)
    | EnqReadNextPtr(node: Addr, tail: Ptr)
    | EnqReadNextCount(node: Addr, tail: Ptr, nextPtr: Option<Addr>)
    | EnqCheckCount(node: Addr, tail: Ptr, next: Ptr)
    | EnqCheckPtr(node: Addr, tail: Ptr, next: Ptr)
    | EnqLink(node: Addr, tail: Ptr, next: Ptr)
    | EnqLinkCount(last: Addr, newCount: int)
    | EnqSwing(node: Addr, tail: Ptr, next: Ptr)
    | EnqSwingCount(node: Addr, newCount: int)
    | EnqDone
    | DeqReadHeadPtr
    | DeqReadHeadCount(headPtr: Option<Addr>)
    | DeqReadTailCount(head: Ptr)
    | DeqReadTailPtr(head: Ptr, tailCount: int)
    | DeqReadNextCount(head: Ptr, tail: Ptr)
    | DeqReadNextPtr(head: Ptr, tail: Ptr, nextCount: int)
    | DeqCheckCount(head: Ptr, tail: Ptr, next: Ptr)
    | DeqCheckPtr(head: Ptr, tail: Ptr, next: Ptr)
    | DeqSwing(head: Ptr, tail: Ptr, next: Ptr)
    | DeqSwingCount(newCount: int)
    | DeqReadValue(head: Ptr, next: Ptr)
    | DeqCas(head: Ptr, next: Ptr, value: Value)
    | DeqHeadCount(dummy: Addr, newCount: int, value: Value)
    | DeqFree(dummy: Addr, value: Value)
    | DeqDone(result: Option<Value>)
    | Fault

  datatype State = State(sh: Shared, threads: map<Tid, Local>)

  datatype Call = Enqueue(v: Value) | Dequeue

  /** What a thread does in one step: enter a call, make one access, or return from a call. */
  datatype Action = Invoke(t: Tid, call: Call) | Advance(t: Tid) | Return(t: Tid, result: Option<Value>)

  /** LONG is 32 bits wide and wraps around. */
  function Wrap(c: int): int {
    (c + 0x8000_0000) % 0x1_0000_0000 - 0x8000_0000
  }

  predicate Live(sh: Shared, p: Option<Addr>) {
    p.Some? && p.value < |sh.nodes|
  }

  /** A thread's next access. Following a pointer that is NULL, or freeing twice, is a Fault. */
  function Access(sh: Shared, l: Local): (Shared, Local) {
    match l
    case EnqReadTailCount(n) => (sh, EnqReadTailPtr(n, sh.tail.count))
    case EnqReadTailPtr(n, tc) => (sh, EnqReadNextPtr(n, Ptr(sh.tail.ptr, tc)))
    case EnqReadNextPtr(n, tail) =>
      if tail.ptr.None? then (sh, EnqReadNextCount(n, tail, None))
      else if !Live(sh, tail.ptr) then (sh, Fault)
      else (sh, EnqReadNextCount(n, tail, sh.nodes[tail.ptr.value].next.ptr))
    case EnqReadNextCount(n, tail, np) =>
      if tail.ptr.None? then (sh, EnqCheckCount(n, tail, Ptr(np, 0)))
      else if !Live(sh, tail.ptr) then (sh, Fault)
      else (sh, EnqCheckCount(n, tail, Ptr(np, sh.nodes[tail.ptr.value].next.count)))
    case EnqCheckCount(n, tail, next) =>
      (sh, if tail.count == sh.tail.count then EnqCheckPtr(n, tail, next) else EnqReadTailCount(n))
    case EnqCheckPtr(n, tail, next) =>
      (sh, if tail.ptr != sh.tail.ptr then EnqReadTailCount(n)
           else if next.ptr.None? then EnqLink(n, tail, next)
           else EnqSwing(n, tail, next))
    case EnqLink(n, tail, next) =>
      if !Live(sh, tail.ptr) then (sh, Fault)
      else
        var a := tail.ptr.value;
        if sh.nodes[a].next.ptr == next.ptr
        then (Linked(sh, a, n), EnqLinkCount(a, Wrap(next.count + 1)))
        else (sh, EnqReadTailCount(n))
    case EnqLinkCount(a, c) =>
      if !Live(sh, Some(a)) then (sh, Fault)
      else (sh.(nodes := sh.nodes[a := sh.nodes[a].(next := Ptr(sh.nodes[a].next.ptr, c))]), EnqDone)
    case EnqSwing(n, tail, next) =>
      if sh.tail.ptr == tail.ptr
      then (TailSwung(sh, next.ptr), EnqSwingCount(n, Wrap(tail.count + sh.bump)))
      else (sh, EnqReadTailCount(n))
    case EnqSwingCount(n, c) => (sh.(tail := Ptr(sh.tail.ptr, c)), EnqReadTailCount(n))
    case DeqReadHeadPtr => (sh, DeqReadHeadCount(sh.head.ptr))
    case DeqReadHeadCount(hp) => (sh, DeqReadTailCount(Ptr(hp, sh.head.count)))
    case DeqReadTailCount(head) => (sh, DeqReadTailPtr(head, sh.tail.count))
    case DeqReadTailPtr(head, tc) =>
      (sh, if head.ptr.None? then DeqDone(None) else DeqReadNextCount(head, Ptr(sh.tail.ptr, tc)))
    case DeqReadNextCount(head, tail) =>
      if !Live(sh, head.ptr) then (sh, Fault)
      else (sh, DeqReadNextPtr(head, tail, sh.nodes[head.ptr.value].next.count))
    case DeqReadNextPtr(head, tail, nc) =>
      if !Live(sh, head.ptr) then (sh, Fault)
      else (sh, DeqCheckCount(head, tail, Ptr(sh.nodes[head.ptr.value].next.ptr, nc)))
    case DeqCheckCount(head, tail, next) =>
      (sh, if head.count == sh.head.count then DeqCheckPtr(head, tail, next) else DeqReadHeadPtr)
    case DeqCheckPtr(head, tail, next) =>
      (sh, if head.ptr != sh.head.ptr then DeqReadHeadPtr
           else if head.ptr != tail.ptr then DeqReadValue(head, next)
           else if next.ptr.None? then DeqDone(None)
           else DeqSwing(head, tail, next))
    case DeqSwing(head, tail, next) =>
      if sh.tail.ptr == tail.ptr
      then (TailSwung(sh, next.ptr), DeqSwingCount(Wrap(tail.count + 1)))
      else (sh, DeqReadHeadPtr)
    case DeqSwingCount(c) => (sh.(tail := Ptr(sh.tail.ptr, c)), DeqReadHeadPtr)
    case DeqReadValue(head, next) =>
      if !Live(sh, next.ptr) then (sh, Fault)
      else (sh, DeqCas(head, next, sh.nodes[next.ptr.value].value))
    case DeqCas(head, next, v) =>
      if head.ptr.Some? && sh.head.ptr == head.ptr
      then (HeadSwung(sh, next.ptr), DeqHeadCount(head.ptr.value, Wrap(head.count + 1), v))
      else (sh, DeqReadHeadPtr)
    case DeqHeadCount(a, c, v) => (sh.(head := Ptr(sh.head.ptr, c)), DeqFree(a, v))
    case DeqFree(a, v) =>
      if a in sh.freed then (sh, Fault) else (sh.(freed := sh.freed + {a}), DeqDone(Some(v)))
    case _ => (sh, l)
  }

  /** The effect of a successful swap on a's next pointer. */
  function Linked(sh: Shared, a: Addr, n: Addr): Shared
    requires a < |sh.nodes|
  {
    var h := sh.hist;
    sh.(nodes := sh.nodes[a := sh.nodes[a].(next := Ptr(Some(n), sh.nodes[a].next.count))],
        hist := h.(chain := h.chain + [n], pos := h.pos[n := |h.chain|]))
  }

  /** The effect of a successful swap on the tail pointer. */
  function TailSwung(sh: Shared, p: Option<Addr>): Shared {
    sh.(tail := Ptr(p, sh.tail.count), hist := sh.hist.(ti := sh.hist.ti + 1))
  }

  /** The effect of a successful swap on the head pointer. */
  function HeadSwung(sh: Shared, p: Option<Addr>): Shared {
    sh.(head := Ptr(p, sh.head.count), hist := sh.hist.(hi := sh.hist.hi + 1))
  }

  /** Enqueue allocates its node and fills in the value before it touches the queue. */
  function Enter(sh: Shared, call: Call): (Shared, Local) {
    match call
    case Enqueue(v) =>
      (sh.(nodes := sh.nodes + [Node(v, Ptr(None, 0))]), EnqReadTailCount(|sh.nodes|))
    case Dequeue => (sh, DeqReadHeadPtr)
  }

  /** _st_lock_free_queue_open: one dummy node that head and tail point to. */
  ghost predicate Init(s: State) {
    && s.sh.head == Ptr(Some(0), 0) == s.sh.tail
    && (exists v :: s.sh.nodes == [Node(v, Ptr(None, 0))])
    && s.sh.freed == {}
    && s.sh.hist == History([0], map[0 := 0], 0, 0)
    && forall t <- s.threads :: s.threads[t] == Idle
  }

  predicate Running(l: Local) {
    !(l.Idle? || l.EnqDone? || l.DeqDone? || l.Fault?)
  }

  ghost predicate Next(s: State, a: Action, s': State) {
    && a.t in s.threads
    && var l := s.threads[a.t];
       match a
       case Invoke(t, call) =>
         l.Idle? && var (sh, l') := Enter(s.sh, call); s' == State(sh, s.threads[t := l'])
       case Advance(t) =>
         Running(l) && var (sh, l') := Access(s.sh, l); s' == State(sh, s.threads[t := l'])
       case Return(t, result) =>
         && (l == DeqDone(result) || (l == EnqDone && result == None))
         && s' == State(s.sh, s.threads[t := Idle])
  }

  // ----- The invariant -----

  /** The node linked after `a`. */
  function After(h: History, a: Addr): Option<Addr>
    requires a in h.pos
  {
    var i := h.pos[a] + 1;
    if i < |h.chain| then Some(h.chain[i]) else None
  }

  /** The linked nodes form one list, head is never past tail, at most one node lies beyond tail. */
  ghost predicate ListOk(sh: Shared) {
    var h := sh.hist;
    && 0 <= h.hi <= h.ti < |h.chain| <= h.ti + 2
    && (forall i {:trigger h.chain[i]} :: 0 <= i < |h.chain| ==> h.chain[i] in h.pos && h.pos[h.chain[i]] == i)
    && (forall a {:trigger h.pos[a]} :: a in h.pos ==>
          h.pos[a] < |h.chain| && h.chain[h.pos[a]] == a && a < |sh.nodes|)
    && (forall a {:trigger sh.nodes[a]} :: a in h.pos ==>
          a < |sh.nodes| && sh.nodes[a].next.ptr == After(h, a))
    && sh.head.ptr == Some(h.chain[h.hi])
    && sh.tail.ptr == Some(h.chain[h.ti])
    && (forall a <- sh.freed :: a in h.pos && h.pos[a] < h.hi)
  }

  predicate Enqueuing(l: Local) {
    l.EnqReadTailCount? || l.EnqReadTailPtr? || l.EnqReadNextPtr? || l.EnqReadNextCount? || l.EnqCheckCount?
    || l.EnqCheckPtr? || l.EnqLink? || l.EnqLinkCount? || l.EnqSwing? || l.EnqSwingCount?
  }

  /** The node only this thread may link or free. */
  function Owned(l: Local): Option<Addr> {
    match l
    case EnqReadTailCount(n) => Some(n)
    case EnqReadTailPtr(n, _) => Some(n)
    case EnqReadNextPtr(n, _) => Some(n)
    case EnqReadNextCount(n, _, _) => Some(n)
    case EnqCheckCount(n, _, _) => Some(n)
    case EnqCheckPtr(n, _, _) => Some(n)
    case EnqLink(n, _, _) => Some(n)
    case EnqSwing(n, _, _) => Some(n)
    case EnqSwingCount(n, _) => Some(n)
    case DeqHeadCount(a, _, _) => Some(a)
    case DeqFree(a, _) => Some(a)
    case _ => None
  }

  /** p was once a linked node at index at most `bound`. */
  predicate Seen(h: History, p: Option<Addr>, bound: nat) {
    p.Some? && p.value in h.pos && h.pos[p.value] <= bound
  }

  /** q is the successor of p. */
  predicate Succ(h: History, p: Option<Addr>, q: Option<Addr>) {
    && p.Some? && q.Some? && p.value in h.pos && q.value in h.pos
    && h.pos[q.value] == h.pos[p.value] + 1
  }

  /** The node of an enqueue that has not been linked. */
  predicate Fresh(sh: Shared, n: Addr) {
    n < |sh.nodes| && n !in sh.hist.pos && sh.nodes[n].next.ptr == None
  }

  /** What dequeue knows of its copies of head and tail. */
  predicate Behind(h: History, head: Option<Addr>, tail: Option<Addr>) {
    Seen(h, head, h.hi) && Seen(h, tail, h.ti) && h.pos[head.value] <= h.pos[tail.value]
  }

  predicate LocalOk(sh: Shared, l: Local) {
    var h := sh.hist;
    match l
    case Idle => true
    case EnqReadTailCount(n) => Fresh(sh, n)
    case EnqReadTailPtr(n, _) => Fresh(sh, n)
    case EnqReadNextPtr(n, tail) => Fresh(sh, n) && Seen(h, tail.ptr, h.ti)
    case EnqReadNextCount(n, tail, np) =>
      Fresh(sh, n) && Seen(h, tail.ptr, h.ti) && (np.Some? ==> Succ(h, tail.ptr, np))
    case EnqCheckCount(n, tail, next) =>
      Fresh(sh, n) && Seen(h, tail.ptr, h.ti) && (next.ptr.Some? ==> Succ(h, tail.ptr, next.ptr))
    case EnqCheckPtr(n, tail, next) =>
      Fresh(sh, n) && Seen(h, tail.ptr, h.ti) && (next.ptr.Some? ==> Succ(h, tail.ptr, next.ptr))
    case EnqLink(n, tail, next) => Fresh(sh, n) && Seen(h, tail.ptr, h.ti) && next.ptr.None?
    case EnqLinkCount(a, _) => Seen(h, Some(a), |h.chain|)
    case EnqSwing(n, tail, next) => Fresh(sh, n) && Succ(h, tail.ptr, next.ptr)
    case EnqSwingCount(n, _) => Fresh(sh, n)
    case EnqDone => true
    case DeqReadHeadPtr => true
    case DeqReadHeadCount(hp) => Seen(h, hp, h.hi)
    case DeqReadTailCount(head) => Seen(h, head.ptr, h.hi)
    case DeqReadTailPtr(head, _) => Seen(h, head.ptr, h.hi)
    case DeqReadNextCount(head, tail) => Behind(h, head.ptr, tail.ptr)
    case DeqReadNextPtr(head, tail, _) => Behind(h, head.ptr, tail.ptr)
    case DeqCheckCount(head, tail, next) =>
      && Behind(h, head.ptr, tail.ptr)
      && (if next.ptr.Some? then Succ(h, head.ptr, next.ptr) else head.ptr == tail.ptr)
    case DeqCheckPtr(head, tail, next) =>
      && Behind(h, head.ptr, tail.ptr)
      && (if next.ptr.Some? then Succ(h, head.ptr, next.ptr) else head.ptr == tail.ptr)
    case DeqSwing(head, tail, next) => head.ptr == tail.ptr && Succ(h, tail.ptr, next.ptr)
    case DeqSwingCount(_) => true
    case DeqReadValue(head, next) => Succ(h, head.ptr, next.ptr) && Seen(h, next.ptr, h.ti)
    case DeqCas(head, next, v) =>
      && Succ(h, head.ptr, next.ptr) && Seen(h, next.ptr, h.ti)
      && next.ptr.value < |sh.nodes| && sh.nodes[next.ptr.value].value == v
    case DeqHeadCount(a, _, _) => a in h.pos && h.pos[a] < h.hi && a !in sh.freed
    case DeqFree(a, _) => a in h.pos && h.pos[a] < h.hi && a !in sh.freed
    case DeqDone(_) => true
    case Fault => false
  }

  ghost predicate Inv(s: State) {
    && ListOk(s.sh)
    && (forall t <- s.threads :: LocalOk(s.sh, s.threads[t]))
    && (forall t, u :: t in s.threads && u in s.threads && t != u && Owned(s.threads[t]).Some?
          ==> Owned(s.threads[t]) != Owned(s.threads[u]))
  }

  lemma InitInv(s: State)
    requires Init(s)
    ensures Inv(s)
  {
  }

  /** What any step of another thread may do to the queue. */
  ghost predicate Evolves(sh: Shared, sh': Shared) {
    var h, h' := sh.hist, sh'.hist;
    && |sh.nodes| <= |sh'.nodes|
    && (forall a :: 0 <= a < |sh.nodes| ==> sh'.nodes[a].value == sh.nodes[a].value)
    && (forall a <- h.pos :: a in h'.pos && h'.pos[a] == h.pos[a])
    && h.hi <= h'.hi && h.ti <= h'.ti && |h.chain| <= |h'.chain|
  }

  /** A step of another thread keeps what this thread knows, if it leaves this thread's node alone. */
  lemma Stable(sh: Shared, sh': Shared, l: Local)
    requires LocalOk(sh, l) && Evolves(sh, sh')
    requires Owned(l).Some? && Fresh(sh, Owned(l).value) ==> Fresh(sh', Owned(l).value)
    requires Owned(l).Some? && Owned(l).value !in sh.freed ==> Owned(l).value !in sh'.freed
    ensures LocalOk(sh', l)
  {
  }

  /** The next pointer of a linked node is its successor in the list, or NULL at the end. */
  lemma NextOf(sh: Shared, a: Addr)
    requires ListOk(sh) && a in sh.hist.pos
    ensures a < |sh.nodes|
    ensures sh.nodes[a].next.ptr.Some? ==> Succ(sh.hist, Some(a), sh.nodes[a].next.ptr)
    ensures sh.nodes[a].next.ptr.None? <==> sh.hist.pos[a] == |sh.hist.chain| - 1
  {
    var h := sh.hist;
    assert h.chain[h.pos[a]] == a && sh.nodes[a].next.ptr == After(h, a);
  }

  /** Head and tail point to linked nodes, head not past tail. */
  lemma HeadAndTail(sh: Shared)
    requires ListOk(sh)
    ensures sh.hist.hi <= sh.hist.ti && Seen(sh.hist, sh.head.ptr, sh.hist.hi) && Seen(sh.hist, sh.tail.ptr, sh.hist.ti)
    ensures sh.hist.pos[sh.head.ptr.value] == sh.hist.hi && sh.hist.pos[sh.tail.ptr.value] == sh.hist.ti
  {
    assert sh.hist.chain[sh.hist.hi] in sh.hist.pos && sh.hist.chain[sh.hist.ti] in sh.hist.pos;
  }

  lemma LinkKeepsList(sh: Shared, a: Addr, n: Addr)
    requires ListOk(sh) && Fresh(sh, n) && Seen(sh.hist, Some(a), sh.hist.ti)
    requires a < |sh.nodes| && sh.nodes[a].next.ptr == None
    ensures sh.hist.pos[a] == sh.hist.ti == |sh.hist.chain| - 1
    ensures ListOk(Linked(sh, a, n)) && Evolves(sh, Linked(sh, a, n))
  {
    NextOf(sh, a);
    var h := sh.hist;
    var sh' := Linked(sh, a, n);
    var h' := sh'.hist;
    forall b {:trigger sh'.nodes[b]} | b in h'.pos
      ensures b < |sh'.nodes| && sh'.nodes[b].next.ptr == After(h', b)
    {
      if b != n {
        assert sh.nodes[b].next.ptr == After(h, b);
        assert h.chain[h.pos[b]] == b;
      }
    }
  }

  lemma SwingTailKeepsList(sh: Shared, p: Option<Addr>)
    requires ListOk(sh) && Succ(sh.hist, sh.tail.ptr, p)
    ensures ListOk(TailSwung(sh, p)) && Evolves(sh, TailSwung(sh, p))
  {
  }

  lemma SwingHeadKeepsList(sh: Shared, p: Option<Addr>)
    requires ListOk(sh) && Succ(sh.hist, sh.head.ptr, p) && Seen(sh.hist, p, sh.hist.ti)
    ensures ListOk(HeadSwung(sh, p)) && Evolves(sh, HeadSwung(sh, p))
  {
  }

  lemma CountKeepsList(sh: Shared, a: Addr, c: int)
    requires ListOk(sh) && a < |sh.nodes|
    ensures ListOk(sh.(nodes := sh.nodes[a := sh.nodes[a].(next := Ptr(sh.nodes[a].next.ptr, c))]))
  {
  }

  lemma {:induction false} EnqueueAccessOk(sh: Shared, l: Local)
    requires ListOk(sh) && LocalOk(sh, l)
    requires Enqueuing(l)
    ensures ListOk(Access(sh, l).0) && LocalOk(Access(sh, l).0, Access(sh, l).1)
    ensures Evolves(sh, Access(sh, l).0)
  {
    if l.EnqLink? || l.EnqLinkCount? || l.EnqSwing? {
      EnqueueCasOk(sh, l);
    } else {
      EnqueueReadOk(sh, l);
    }
  }

  lemma {:induction false} EnqueueReadOk(sh: Shared, l: Local)
    requires ListOk(sh) && LocalOk(sh, l)
    requires Enqueuing(l) && !l.EnqLink? && !l.EnqLinkCount? && !l.EnqSwing?
    ensures ListOk(Access(sh, l).0) && LocalOk(Access(sh, l).0, Access(sh, l).1)
    ensures Evolves(sh, Access(sh, l).0)
  {
    match l {
      case EnqReadNextPtr(n, tail) => NextOf(sh, tail.ptr.value);
      case EnqReadNextCount(n, tail, np) => NextOf(sh, tail.ptr.value);
      case _ =>
    }
  }

  lemma {:induction false} EnqueueCasOk(sh: Shared, l: Local)
    requires ListOk(sh) && LocalOk(sh, l)
    requires l.EnqLink? || l.EnqLinkCount? || l.EnqSwing?
    ensures ListOk(Access(sh, l).0) && LocalOk(Access(sh, l).0, Access(sh, l).1)
    ensures Evolves(sh, Access(sh, l).0)
  {
    match l {
      case EnqLink(n, tail, next) =>
        NextOf(sh, tail.ptr.value);
        if sh.nodes[tail.ptr.value].next.ptr == None {
          LinkKeepsList(sh, tail.ptr.value, n);
        }
      case EnqLinkCount(a, c) => NextOf(sh, a); CountKeepsList(sh, a, c);
      case EnqSwing(n, tail, next) =>
        if sh.tail.ptr == tail.ptr {
          SwingTailKeepsList(sh, next.ptr);
        }
    }
  }

  /** What dequeue finds behind its copy of head. */
  lemma NextBehind(sh: Shared, head: Option<Addr>, tail: Option<Addr>)
    requires ListOk(sh) && Behind(sh.hist, head, tail)
    ensures Live(sh, head)
    ensures var p := sh.nodes[head.value].next.ptr;
            if p.Some? then Succ(sh.hist, head, p) else head == tail
  {
    NextOf(sh, head.value);
    assert sh.hist.chain[sh.hist.pos[tail.value]] == tail.value;
  }

  lemma {:induction false} DequeueReadOk(sh: Shared, l: Local)
    requires ListOk(sh) && LocalOk(sh, l) && !Enqueuing(l)
    requires !l.DeqSwing? && !l.DeqSwingCount? && !l.DeqCas? && !l.DeqHeadCount? && !l.DeqFree?
    ensures Access(sh, l).0 == sh && LocalOk(sh, Access(sh, l).1)
  {
    HeadAndTail(sh);
    match l {
      case DeqReadNextCount(head, tail) => NextBehind(sh, head.ptr, tail.ptr);
      case DeqReadNextPtr(head, tail, _) => NextBehind(sh, head.ptr, tail.ptr);
      case DeqReadValue(head, next) => NextOf(sh, next.ptr.value);
      case _ =>
    }
    hide ListOk;
  }

  lemma DequeueSwingOk(sh: Shared, l: Local)
    requires ListOk(sh) && LocalOk(sh, l) && (l.DeqSwing? || l.DeqSwingCount?)
    ensures ListOk(Access(sh, l).0) && LocalOk(Access(sh, l).0, Access(sh, l).1)
    ensures Evolves(sh, Access(sh, l).0)
  {
    if l.DeqSwing? && sh.tail.ptr == l.tail.ptr {
      SwingTailKeepsList(sh, l.next.ptr);
    }
  }

  lemma DequeueCasOk(sh: Shared, l: Local)
    requires ListOk(sh) && LocalOk(sh, l) && (l.DeqCas? || l.DeqHeadCount?)
    ensures ListOk(Access(sh, l).0) && LocalOk(Access(sh, l).0, Access(sh, l).1)
    ensures Evolves(sh, Access(sh, l).0)
  {
    if l.DeqCas? && sh.head.ptr == l.head.ptr {
      SwingHeadKeepsList(sh, l.next.ptr);
    }
  }

  lemma DequeueFreeOk(sh: Shared, l: Local)
    requires ListOk(sh) && LocalOk(sh, l) && l.DeqFree?
    ensures ListOk(Access(sh, l).0) && LocalOk(Access(sh, l).0, Access(sh, l).1)
    ensures Evolves(sh, Access(sh, l).0)
  {
  }

  lemma AccessOk(sh: Shared, l: Local)
    requires ListOk(sh) && LocalOk(sh, l)
    ensures ListOk(Access(sh, l).0) && LocalOk(Access(sh, l).0, Access(sh, l).1)
    ensures Evolves(sh, Access(sh, l).0)
  {
    if Enqueuing(l) {
      EnqueueAccessOk(sh, l);
    } else if l.DeqSwing? || l.DeqSwingCount? {
      DequeueSwingOk(sh, l);
    } else if l.DeqCas? || l.DeqHeadCount? {
      DequeueCasOk(sh, l);
    } else if l.DeqFree? {
      DequeueFreeOk(sh, l);
    } else {
      DequeueReadOk(sh, l);
    }
  }

  /** A node that is neither unlinked nor freed by another thread stays so. */
  lemma AccessSpares(sh: Shared, l: Local, o: Addr)
    requires LocalOk(sh, l) && Owned(l) != Some(o)
    ensures Fresh(sh, o) ==> Fresh(Access(sh, l).0, o)
    ensures o !in sh.freed ==> o !in Access(sh, l).0.freed
  {
  }

  lemma OnlySwapClaims(sh: Shared, l: Local, o: Addr)
    requires Owned(l) != Some(o) && Owned(Access(sh, l).1) == Some(o)
    ensures sh.head.ptr == Some(o)
  {
  }

  /** Only a swap of head gives a thread a node, and it is the one head pointed to. */
  lemma AccessClaims(sh: Shared, l: Local, o: Addr)
    requires ListOk(sh)
    requires Owned(l) != Some(o) && Owned(Access(sh, l).1) == Some(o)
    ensures o in sh.hist.pos && sh.hist.pos[o] == sh.hist.hi && !Fresh(sh, o)
  {
    hide Access, Owned;
    OnlySwapClaims(sh, l, o);
    HeadAndTail(sh);
  }

  /** A node owned by some thread is unlinked, or was passed by head. */
  lemma OwnedPlace(sh: Shared, l: Local)
    requires LocalOk(sh, l) && Owned(l).Some?
    ensures Fresh(sh, Owned(l).value)
         || (Owned(l).value in sh.hist.pos && sh.hist.pos[Owned(l).value] < sh.hist.hi)
  {
  }

  lemma AdvanceInv(s: State, t: Tid, s': State)
    requires Inv(s) && Next(s, Advance(t), s')
    ensures Inv(s') && Evolves(s.sh, s'.sh)
  {
    AccessOk(s.sh, s.threads[t]);
    forall u | u in s.threads && u != t
      ensures LocalOk(s'.sh, s.threads[u])
      ensures Owned(s.threads[u]).Some? ==> Owned(s'.threads[t]) != Owned(s.threads[u])
    {
      if Owned(s.threads[u]).Some? {
        OwnedPlace(s.sh, s.threads[u]);
        var o := Owned(s.threads[u]).value;
        AccessSpares(s.sh, s.threads[t], o);
        if Owned(s'.threads[t]) == Some(o) {
          AccessClaims(s.sh, s.threads[t], o);
        }
      }
      Stable(s.sh, s'.sh, s.threads[u]);
    }
  }

  lemma EnterOk(sh: Shared, call: Call)
    requires ListOk(sh)
    ensures ListOk(Enter(sh, call).0) && Evolves(sh, Enter(sh, call).0)
    ensures LocalOk(Enter(sh, call).0, Enter(sh, call).1)
    ensures Owned(Enter(sh, call).1) in {None, Some(|sh.nodes|)}
  {
  }

  lemma InvokeInv(s: State, t: Tid, call: Call, s': State)
    requires Inv(s) && Next(s, Invoke(t, call), s')
    ensures Inv(s') && Evolves(s.sh, s'.sh)
  {
    EnterOk(s.sh, call);
    forall u | u in s.threads && u != t
      ensures LocalOk(s'.sh, s.threads[u])
      ensures Owned(s.threads[u]).Some? ==> Owned(s.threads[u]) != Owned(s'.threads[t])
    {
      if Owned(s.threads[u]).Some? {
        OwnedPlace(s.sh, s.threads[u]);
        var o := Owned(s.threads[u]).value;
        assert o in s.sh.hist.pos ==> s.sh.hist.chain[s.sh.hist.pos[o]] == o;
      }
      Stable(s.sh, s'.sh, s.threads[u]);
    }
  }

  lemma NextInv(s: State, a: Action, s': State)
    requires Inv(s) && Next(s, a, s')
    ensures Inv(s') && Evolves(s.sh, s'.sh)
  {
    match a {
      case Invoke(t, call) => InvokeInv(s, t, call, s');
      case Advance(t) => AdvanceInv(s, t, s');
      case Return(t, _) =>
    }
  }
}
