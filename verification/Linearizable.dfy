/**
 Every interleaving of the queue's operations is one of an atomic FIFO: each call takes effect at
 one moment between its start and its return, and returns what the FIFO gives at that moment.
 */
module Linearizable {
  import opened Wrappers
  import opened LockFreeQueue

  // ----- The specification: an atomic FIFO -----

  /** A thread's call. Adding and Taking have not taken effect; Added and Took have. */
  datatype Status = Quiet | Adding(v: Value) | Added | Taking | Took(result: Option<Value>)

  datatype Fifo = Fifo(queue: seq<Value>, calls: map<Tid, Status>)

  /** The moment a pending call takes effect. */
  function Effect(f: Fifo, t: Tid): Fifo
    requires t in f.calls && (f.calls[t].Adding? || f.calls[t].Taking?)
  {
    match f.calls[t]
    case Adding(v) => Fifo(f.queue + [v], f.calls[t := Added])
    case Taking =>
      if f.queue == [] then f.(calls := f.calls[t := Took(None)])
      else Fifo(f.queue[1..], f.calls[t := Took(Some(f.queue[0]))])
  }

  ghost predicate FifoNext(f: Fifo, a: Action, f': Fifo) {
    && a.t in f.calls
    && match a
       case Invoke(t, call) =>
         && f.calls[t] == Quiet
         && f' == f.(calls := f.calls[t := match call case Enqueue(v) => Adding(v) case Dequeue => Taking])
       case Advance(t) =>
         f' == f || ((f.calls[t].Adding? || f.calls[t].Taking?) && f' == Effect(f, t))
       case Return(t, result) =>
         && (f.calls[t] == Took(result) || (f.calls[t] == Added && result == None))
         && f' == f.(calls := f.calls[t := Quiet])
  }

  // ----- Runs -----

  /** A finite run of the queue: `ss[i + 1]` follows from `ss[i]` by `acts[i]`. */
  ghost predicate IsRun(ss: seq<State>, acts: seq<Action>) {
    && |ss| == |acts| + 1
    && Init(ss[0])
    && forall i :: 0 <= i < |acts| ==> Next(ss[i], acts[i], ss[i + 1])
  }

  /** A finite run of the FIFO with the same calls and the same results. */
  ghost predicate IsFifoRun(fs: seq<Fifo>, acts: seq<Action>, threads: set<Tid>) {
    && |fs| == |acts| + 1
    && fs[0] == Fifo([], map t | t in threads :: Quiet)
    && forall i :: 0 <= i < |acts| ==> FifoNext(fs[i], acts[i], fs[i + 1])
  }

  lemma {:induction false} RunInv(ss: seq<State>, acts: seq<Action>, k: nat)
    requires IsRun(ss, acts) && k < |ss|
    ensures Inv(ss[k])
  {
    if k == 0 {
      InitInv(ss[0]);
    } else {
      RunInv(ss, acts, k - 1);
      var i := k - 1;
      assert Next(ss[i], acts[i], ss[i + 1]);
      NextInv(ss[i], acts[i], ss[i + 1]);
    }
  }

  // ----- The abstraction -----

  function ValuesOf(nodes: seq<Node>, addrs: seq<Addr>): (q: seq<Value>)
    ensures |q| == |addrs|
    ensures forall i :: 0 <= i < |q| && addrs[i] < |nodes| ==> q[i] == nodes[addrs[i]].value
  {
    seq(|addrs|, i requires 0 <= i < |addrs| => if addrs[i] < |nodes| then nodes[addrs[i]].value else 0)
  }

  /** The values after head, first in first out. */
  function Contents(sh: Shared): seq<Value>
    requires sh.hist.hi < |sh.hist.chain|
  {
    ValuesOf(sh.nodes, sh.hist.chain[sh.hist.hi + 1..])
  }

  /** A dequeue that read a NULL next pointer and has yet to check that head did not move. */
  predicate Checking(l: Local) {
    (l.DeqCheckCount? || l.DeqCheckPtr?) && l.next.ptr.None?
  }

  /** Will the dequeue that t is checking return empty-handed in this run? */
  ghost predicate WillBeEmpty(ss: seq<State>, t: Tid)
    decreases |ss|
  {
    ss != [] && t in ss[0].threads
    && if Checking(ss[0].threads[t]) then WillBeEmpty(ss[1..], t) else ss[0].threads[t] == DeqDone(None)
  }

  ghost function StatusOf(sh: Shared, l: Local, willBeEmpty: bool): Status {
    if l.EnqLinkCount? || l.EnqDone? then Added
    else if Enqueuing(l) then
      var n := Owned(l).value;
      Adding(if n < |sh.nodes| then sh.nodes[n].value else 0)
    else
      match l
      case Idle => Quiet
      case DeqHeadCount(_, _, v) => Took(Some(v))
      case DeqFree(_, v) => Took(Some(v))
      case DeqDone(r) => Took(r)
      case Fault => Quiet
      case _ => if Checking(l) && willBeEmpty then Took(None) else Taking
  }

  /** What the FIFO is in the first state of the rest of a run. */
  ghost function Abs(ss: seq<State>): Fifo
    requires ss != [] && ss[0].sh.hist.hi < |ss[0].sh.hist.chain|
  {
    var s := ss[0];
    Fifo(Contents(s.sh), map t | t in s.threads :: StatusOf(s.sh, s.threads[t], WillBeEmpty(ss, t)))
  }

  // ----- The refinement -----

  lemma SameValues(nodes: seq<Node>, nodes': seq<Node>, addrs: seq<Addr>)
    requires |nodes| <= |nodes'| && forall a :: 0 <= a < |nodes| ==> nodes'[a].value == nodes[a].value
    requires forall i :: 0 <= i < |addrs| ==> addrs[i] < |nodes|
    ensures ValuesOf(nodes', addrs) == ValuesOf(nodes, addrs)
  {
  }

  lemma LinkedAfterHead(sh: Shared)
    requires ListOk(sh)
    ensures forall i :: 0 <= i < |sh.hist.chain| ==> sh.hist.chain[i] < |sh.nodes|
  {
    forall i | 0 <= i < |sh.hist.chain| ensures sh.hist.chain[i] < |sh.nodes| {
      NextOf(sh, sh.hist.chain[i]);
    }
  }

  lemma EvolvesValues(sh: Shared, sh': Shared)
    requires Evolves(sh, sh')
    ensures |sh.nodes| <= |sh'.nodes| && forall a :: 0 <= a < |sh.nodes| ==> sh'.nodes[a].value == sh.nodes[a].value
  {
  }

  lemma SameContents(sh: Shared, sh': Shared)
    requires ListOk(sh) && Evolves(sh, sh') && sh.hist.hi < |sh.hist.chain|
    requires sh'.hist.chain == sh.hist.chain && sh'.hist.hi == sh.hist.hi
    ensures Contents(sh') == Contents(sh)
  {
    hide ValuesOf, ListOk, Evolves;
    LinkedAfterHead(sh);
    EvolvesValues(sh, sh');
    SameValues(sh.nodes, sh'.nodes, sh.hist.chain[sh.hist.hi + 1..]);
  }

  /** The swap that links a node appends its value. */
  lemma LinkAppends(sh: Shared, a: Addr, n: Addr)
    requires ListOk(sh) && Fresh(sh, n) && a < |sh.nodes|
    ensures sh.hist.hi < |Linked(sh, a, n).hist.chain|
    ensures Contents(Linked(sh, a, n)) == Contents(sh) + [sh.nodes[n].value]
  {
    HeadAndTail(sh);
    LinkedAfterHead(sh);
    hide ListOk, ValuesOf;
    var sh' := Linked(sh, a, n);
    var rest := sh.hist.chain[sh.hist.hi + 1..];
    assert sh'.hist.chain[sh.hist.hi + 1..] == rest + [n];
    SameValues(sh.nodes, sh'.nodes, rest + [n]);
  }

  lemma ValuesSplit(nodes: seq<Node>, addrs: seq<Addr>)
    requires addrs != [] && addrs[0] < |nodes|
    ensures ValuesOf(nodes, addrs) == [nodes[addrs[0]].value] + ValuesOf(nodes, addrs[1..])
  {
  }

  /** The node after head is the one linked after it. */
  lemma NextAfterHead(sh: Shared, p: Option<Addr>)
    requires ListOk(sh) && Succ(sh.hist, sh.head.ptr, p)
    ensures sh.hist.hi + 1 < |sh.hist.chain| && sh.hist.chain[sh.hist.hi + 1] == p.value < |sh.nodes|
  {
    HeadAndTail(sh);
    NextOf(sh, p.value);
    assert sh.hist.chain[sh.hist.pos[p.value]] == p.value;
  }

  lemma DropTwo(chain: seq<Addr>, i: nat)
    requires i < |chain|
    ensures chain[i..][0] == chain[i] && chain[i..][1..] == chain[i + 1..]
  {
  }

  /** The swap of head takes the front value, which is the value the thread read. */
  lemma HeadSwingTakes(sh: Shared, p: Option<Addr>)
    requires ListOk(sh) && Succ(sh.hist, sh.head.ptr, p)
    ensures sh.hist.hi + 1 < |sh.hist.chain| && p.value < |sh.nodes|
    ensures Contents(sh) != [] && Contents(sh)[0] == sh.nodes[p.value].value
    ensures Contents(HeadSwung(sh, p)) == Contents(sh)[1..]
  {
    hide ListOk, Succ, ValuesOf;
    NextAfterHead(sh, p);
    DropTwo(sh.hist.chain, sh.hist.hi + 1);
    ValuesSplit(sh.nodes, sh.hist.chain[sh.hist.hi + 1..]);
  }

  /** The access is the swap that links the node, and it succeeds. */
  predicate Links(sh: Shared, l: Local) {
    l.EnqLink? && Live(sh, l.tail.ptr) && sh.nodes[l.tail.ptr.value].next.ptr == None
  }

  /** The access is the swap that moves head, and it succeeds. */
  predicate Takes(sh: Shared, l: Local) {
    l.DeqCas? && sh.head.ptr == l.head.ptr
  }

  /** Every other access leaves the list's nodes and head where they are. */
  lemma OtherAccess(sh: Shared, l: Local)
    requires ListOk(sh) && LocalOk(sh, l) && !Links(sh, l) && !Takes(sh, l)
    ensures Access(sh, l).0.hist.chain == sh.hist.chain && Access(sh, l).0.hist.hi == sh.hist.hi
  {
    if l.EnqLink? {
      NextOf(sh, l.tail.ptr.value);
    }
  }

  lemma EnqueueStatus(sh: Shared, l: Local, w: bool, w': bool)
    requires ListOk(sh) && LocalOk(sh, l) && Enqueuing(l) && !Links(sh, l)
    ensures StatusOf(Access(sh, l).0, Access(sh, l).1, w') == StatusOf(sh, l, w)
  {
    if l.EnqReadNextPtr? || l.EnqReadNextCount? || l.EnqLink? {
      NextOf(sh, l.tail.ptr.value);
    }
  }

  /** `w` and `w'` foretell whether the check this dequeue is in, if any, will find the queue empty. */
  ghost predicate Foretold(sh: Shared, l: Local, w: bool, w': bool) {
    var l' := Access(sh, l).1;
    Checking(l) ==> w == if Checking(l') then w' else l' == DeqDone(None)
  }

  lemma DequeueStatus(sh: Shared, l: Local, w: bool, w': bool)
    requires LocalOk(sh, l) && Running(l) && !Enqueuing(l) && !Takes(sh, l)
    requires Foretold(sh, l, w, w')
    requires l.DeqReadNextCount? || l.DeqReadNextPtr? ==> Live(sh, l.head.ptr)
    requires l.DeqReadValue? ==> Live(sh, l.next.ptr)
    ensures var (sh', l') := Access(sh, l);
            var st, st' := StatusOf(sh, l, w), StatusOf(sh', l', w');
            st' == st || (l.DeqReadNextPtr? && st.Taking? && st' == Took(None)
                          && sh.nodes[l.head.ptr.value].next.ptr == None)
  {
  }

  /** What one access does to the FIFO. */
  ghost predicate Refines(q: seq<Value>, st: Status, q': seq<Value>, st': Status) {
    || (q' == q && st' == st)
    || (st.Adding? && q' == q + [st.v] && st' == Added)
    || (st.Taking? && q == [] && q' == [] && st' == Took(None))
    || (st.Taking? && q != [] && q' == q[1..] && st' == Took(Some(q[0])))
  }

  /** Access takes shared state and status of the thread from one FIFO to the next. */
  ghost predicate AccessOf(sh: Shared, l: Local, w: bool, sh': Shared, l': Local, w': bool)
    requires sh.hist.hi < |sh.hist.chain|
  {
    && sh'.hist.hi < |sh'.hist.chain|
    && Refines(Contents(sh), StatusOf(sh, l, w), Contents(sh'), StatusOf(sh', l', w'))
  }

  lemma LinkRefines(sh: Shared, l: Local, w: bool, w': bool)
    requires ListOk(sh) && LocalOk(sh, l) && Links(sh, l)
    ensures AccessOf(sh, l, w, Access(sh, l).0, Access(sh, l).1, w')
  {
    LinkAppends(sh, l.tail.ptr.value, l.node);
  }

  lemma TakeStatus(sh: Shared, l: Local, l': Local, w: bool, w': bool)
    requires sh.hist.hi + 1 < |sh.hist.chain|
    requires l.DeqCas? && l'.DeqHeadCount? && l'.value == l.value
    requires Contents(sh) != [] && Contents(sh)[0] == l.value
    requires Contents(HeadSwung(sh, l.next.ptr)) == Contents(sh)[1..]
    ensures AccessOf(sh, l, w, HeadSwung(sh, l.next.ptr), l', w')
  {
    assert StatusOf(sh, l, w) == Taking;
    assert StatusOf(HeadSwung(sh, l.next.ptr), l', w') == Took(Some(l.value));
  }

  lemma TakeRefines(sh: Shared, l: Local, w: bool, w': bool)
    requires ListOk(sh) && LocalOk(sh, l) && Takes(sh, l)
    ensures AccessOf(sh, l, w, Access(sh, l).0, Access(sh, l).1, w')
  {
    var DeqCas(head, next, v) := l;
    var l' := DeqHeadCount(head.ptr.value, Wrap(head.count + 1), v);
    assert Access(sh, l) == (HeadSwung(sh, next.ptr), l');
    HeadSwingTakes(sh, next.ptr);
    TakeStatus(sh, l, l', w, w');
  }

  lemma EnqueueRefines(sh: Shared, l: Local, w: bool, w': bool)
    requires ListOk(sh) && LocalOk(sh, l) && !Links(sh, l) && Enqueuing(l)
    ensures AccessOf(sh, l, w, Access(sh, l).0, Access(sh, l).1, w')
  {
    OtherAccess(sh, l);
    AccessOk(sh, l);
    SameContents(sh, Access(sh, l).0);
    EnqueueStatus(sh, l, w, w');
  }

  lemma DequeueRefines(sh: Shared, l: Local, w: bool, w': bool)
    requires ListOk(sh) && LocalOk(sh, l) && !Takes(sh, l) && !Enqueuing(l)
    requires Running(l) && Foretold(sh, l, w, w')
    ensures AccessOf(sh, l, w, Access(sh, l).0, Access(sh, l).1, w')
  {
    OtherAccess(sh, l);
    AccessOk(sh, l);
    SameContents(sh, Access(sh, l).0);
    if l.DeqReadNextCount? || l.DeqReadNextPtr? {
      NextOf(sh, l.head.ptr.value);
    } else if l.DeqReadValue? {
      NextOf(sh, l.next.ptr.value);
    }
    DequeueStatus(sh, l, w, w');
  }

  lemma AccessRefines(sh: Shared, l: Local, w: bool, w': bool)
    requires ListOk(sh) && LocalOk(sh, l) && Running(l) && Foretold(sh, l, w, w')
    ensures AccessOf(sh, l, w, Access(sh, l).0, Access(sh, l).1, w')
  {
    if Links(sh, l) {
      LinkRefines(sh, l, w, w');
    } else if Takes(sh, l) {
      TakeRefines(sh, l, w, w');
    } else if Enqueuing(l) {
      EnqueueRefines(sh, l, w, w');
    } else {
      DequeueRefines(sh, l, w, w');
    }
  }

  // ----- Whole runs -----

  /** A thread that does not move keeps its outlook. */
  lemma OutlookKept(ss: seq<State>, u: Tid)
    requires |ss| > 1 && u in ss[0].threads && u in ss[1].threads && ss[0].threads[u] == ss[1].threads[u]
    ensures WillBeEmpty(ss, u) == WillBeEmpty(ss[1..], u)
  {
  }

  /** A thread that moves had foretold the outcome of its check. */
  lemma OutlookForetold(ss: seq<State>, t: Tid)
    requires |ss| > 1 && Next(ss[0], Advance(t), ss[1])
    ensures Foretold(ss[0].sh, ss[0].threads[t], WillBeEmpty(ss, t), WillBeEmpty(ss[1..], t))
  {
  }

  lemma InvParts(s: State)
    requires Inv(s)
    ensures ListOk(s.sh) && s.sh.hist.hi < |s.sh.hist.chain|
    ensures forall t <- s.threads :: LocalOk(s.sh, s.threads[t])
  {
  }

  lemma StatusKept(sh: Shared, sh': Shared, l: Local, w: bool)
    requires LocalOk(sh, l) && Evolves(sh, sh')
    ensures StatusOf(sh', l, w) == StatusOf(sh, l, w)
  {
  }

  /** The calls of the threads that do not move stay as they are. */
  lemma OthersKept(ss: seq<State>, t: Tid)
    requires |ss| > 1 && Evolves(ss[0].sh, ss[1].sh)
    requires ss[0].sh.hist.hi < |ss[0].sh.hist.chain| && ss[1].sh.hist.hi < |ss[1].sh.hist.chain|
    requires forall u <- ss[0].threads :: LocalOk(ss[0].sh, ss[0].threads[u])
    requires t in ss[0].threads && ss[1].threads.Keys == ss[0].threads.Keys
    requires forall u <- ss[0].threads :: u != t ==> ss[1].threads[u] == ss[0].threads[u]
    ensures Abs(ss[1..]).calls == Abs(ss).calls[t := Abs(ss[1..]).calls[t]]
  {
    forall u <- ss[0].threads | u != t
      ensures Abs(ss[1..]).calls[u] == Abs(ss).calls[u]
    {
      OutlookKept(ss, u);
      StatusKept(ss[0].sh, ss[1].sh, ss[0].threads[u], WillBeEmpty(ss, u));
    }
  }

  /** The FIFO of a run, field by field. */
  lemma AbsIs(ss: seq<State>, t: Tid)
    requires ss != [] && ss[0].sh.hist.hi < |ss[0].sh.hist.chain| && t in ss[0].threads
    ensures Abs(ss).queue == Contents(ss[0].sh) && t in Abs(ss).calls
    ensures Abs(ss).calls[t] == StatusOf(ss[0].sh, ss[0].threads[t], WillBeEmpty(ss, t))
  {
    hide StatusOf, WillBeEmpty, Contents;
  }

  /** A step of one thread that refines an access refines the FIFO. */
  lemma FifoAdvance(f: Fifo, t: Tid, f': Fifo)
    requires t in f.calls && t in f'.calls && f'.calls == f.calls[t := f'.calls[t]]
    requires Refines(f.queue, f.calls[t], f'.queue, f'.calls[t])
    ensures FifoNext(f, Advance(t), f')
  {
    if f'.queue == f.queue && f'.calls[t] == f.calls[t] {
      assert f' == f;
    }
  }

  lemma AdvanceRefines(ss: seq<State>, t: Tid)
    requires |ss| > 1 && Inv(ss[0]) && Inv(ss[1]) && Next(ss[0], Advance(t), ss[1])
    ensures FifoNext(Abs(ss), Advance(t), Abs(ss[1..]))
  {
    hide Inv, ListOk, LocalOk, Contents, Evolves, StatusOf, Foretold, Access, Abs, WillBeEmpty, FifoNext, Refines, Init;
    StepParts(ss, Advance(t));
    OutlookForetold(ss, t);
    AccessRefines(ss[0].sh, ss[0].threads[t], WillBeEmpty(ss, t), WillBeEmpty(ss[1..], t));
    FifoAdvance(Abs(ss), t, Abs(ss[1..]));
  }

  /** What a step of t leaves as it was. */
  lemma StepParts(ss: seq<State>, a: Action)
    requires |ss| > 1 && Inv(ss[0]) && Inv(ss[1]) && Next(ss[0], a, ss[1])
    ensures ListOk(ss[0].sh) && Evolves(ss[0].sh, ss[1].sh) && a.t in ss[0].threads && a.t in ss[1].threads
    ensures LocalOk(ss[0].sh, ss[0].threads[a.t])
    ensures ss[0].sh.hist.hi < |ss[0].sh.hist.chain| && ss[1].sh.hist.hi < |ss[1].sh.hist.chain|
    ensures a.t in Abs(ss).calls && a.t in Abs(ss[1..]).calls
    ensures Abs(ss[1..]).calls == Abs(ss).calls[a.t := Abs(ss[1..]).calls[a.t]]
    ensures Abs(ss).queue == Contents(ss[0].sh) && Abs(ss[1..]).queue == Contents(ss[1].sh)
    ensures Abs(ss).calls[a.t] == StatusOf(ss[0].sh, ss[0].threads[a.t], WillBeEmpty(ss, a.t))
    ensures Abs(ss[1..]).calls[a.t] == StatusOf(ss[1].sh, ss[1].threads[a.t], WillBeEmpty(ss[1..], a.t))
  {
    hide Inv, ListOk, LocalOk, Contents, Evolves, StatusOf, Access, Abs, WillBeEmpty, Enter;
    InvParts(ss[0]);
    InvParts(ss[1]);
    NextInv(ss[0], a, ss[1]);
    OthersKept(ss, a.t);
    AbsIs(ss, a.t);
    AbsIs(ss[1..], a.t);
  }

  lemma InvokeRefines(ss: seq<State>, t: Tid, call: Call)
    requires |ss| > 1 && Inv(ss[0]) && Inv(ss[1]) && Next(ss[0], Invoke(t, call), ss[1])
    ensures FifoNext(Abs(ss), Invoke(t, call), Abs(ss[1..]))
  {
    hide Inv, ListOk, LocalOk, Contents, Evolves, Abs, WillBeEmpty, StatusOf;
    StepParts(ss, Invoke(t, call));
    SameContents(ss[0].sh, ss[1].sh);
    EnterStatus(ss[0].sh, call, WillBeEmpty(ss, t), WillBeEmpty(ss[1..], t));
  }

  lemma EnterStatus(sh: Shared, call: Call, w: bool, w': bool)
    ensures var (sh', l') := Enter(sh, call);
            StatusOf(sh, Idle, w) == Quiet
            && StatusOf(sh', l', w') == match call case Enqueue(v) => Adding(v) case Dequeue => Taking
  {
  }

  lemma ReturnRefines(ss: seq<State>, t: Tid, result: Option<Value>)
    requires |ss| > 1 && Inv(ss[0]) && Inv(ss[1]) && Next(ss[0], Return(t, result), ss[1])
    ensures FifoNext(Abs(ss), Return(t, result), Abs(ss[1..]))
  {
    hide Inv, ListOk, LocalOk, Contents, Evolves, Abs, WillBeEmpty, StatusOf;
    StepParts(ss, Return(t, result));
    SameContents(ss[0].sh, ss[1].sh);
    DoneStatus(ss[0].sh, result, WillBeEmpty(ss, t), WillBeEmpty(ss[1..], t));
  }

  lemma DoneStatus(sh: Shared, result: Option<Value>, w: bool, w': bool)
    ensures StatusOf(sh, DeqDone(result), w) == Took(result) && StatusOf(sh, EnqDone, w) == Added
    ensures StatusOf(sh, Idle, w') == Quiet
  {
  }

  /**
   Linearizability: any finite run of the queue is, call for call and result for result, a run of the
   atomic FIFO. In particular a dequeue that returns nothing did so at a moment inside the call when
   the FIFO was empty.
   */
  lemma Linearizability(ss: seq<State>, acts: seq<Action>) returns (fs: seq<Fifo>)
    requires IsRun(ss, acts)
    ensures IsFifoRun(fs, acts, ss[0].threads.Keys)
  {
    forall k | 0 <= k < |ss| ensures Inv(ss[k]) {
      RunInv(ss, acts, k);
    }
    fs := seq(|ss|, k requires 0 <= k < |ss| => Abs(ss[k..]));
    forall i | 0 <= i < |acts| ensures FifoNext(fs[i], acts[i], fs[i + 1]) {
      assert Next(ss[i], acts[i], ss[i + 1]);
      var rest := ss[i..];
      assert rest[0] == ss[i] && rest[1] == ss[i + 1] && rest[1..] == ss[i + 1..];
      match acts[i] {
        case Invoke(t, call) => InvokeRefines(rest, t, call);
        case Advance(t) => AdvanceRefines(rest, t);
        case Return(t, result) => ReturnRefines(rest, t, result);
      }
    }
    assert ss[0..] == ss;
  }

  /** No run follows a NULL pointer, frees a node twice, or frees one that can still be reached from head or tail. */
  lemma MemorySafety(ss: seq<State>, acts: seq<Action>, k: nat, t: Tid)
    requires IsRun(ss, acts) && k < |ss| && t in ss[k].threads
    ensures ss[k].threads[t] != Fault
    ensures ss[k].threads[t].DeqFree? ==> ss[k].threads[t].dummy !in ss[k].sh.freed
    ensures forall steps: nat ::
              && Walk(ss[k].sh, ss[k].sh.head.ptr, steps) !in (set a <- ss[k].sh.freed :: Some(a))
              && Walk(ss[k].sh, ss[k].sh.tail.ptr, steps) !in (set a <- ss[k].sh.freed :: Some(a))
  {
    RunInv(ss, acts, k);
    var sh := ss[k].sh;
    assert LocalOk(sh, ss[k].threads[t]);
    forall steps: nat
      ensures Walk(sh, sh.head.ptr, steps) !in (set a <- sh.freed :: Some(a))
      ensures Walk(sh, sh.tail.ptr, steps) !in (set a <- sh.freed :: Some(a))
    {
      assert sh.hist.chain[sh.hist.hi] in sh.hist.pos && sh.hist.chain[sh.hist.ti] in sh.hist.pos;
      WalkStaysAhead(sh, sh.head.ptr, steps);
      WalkStaysAhead(sh, sh.tail.ptr, steps);
    }
  }

  /** The pointer reached from p over `steps` next pointers. */
  function Walk(sh: Shared, p: Option<Addr>, steps: nat): Option<Addr>
    decreases steps
  {
    if steps == 0 || !Live(sh, p) then p else Walk(sh, sh.nodes[p.value].next.ptr, steps - 1)
  }

  lemma {:induction false} WalkStaysAhead(sh: Shared, p: Option<Addr>, steps: nat)
    requires ListOk(sh)
    requires p.Some? ==> p.value in sh.hist.pos && sh.hist.hi <= sh.hist.pos[p.value]
    ensures var q := Walk(sh, p, steps);
            q.Some? ==> q.value in sh.hist.pos && sh.hist.hi <= sh.hist.pos[q.value]
    decreases steps
  {
    if steps > 0 && Live(sh, p) {
      NextOf(sh, p.value);
      WalkStaysAhead(sh, sh.nodes[p.value].next.ptr, steps - 1);
    }
  }
}
