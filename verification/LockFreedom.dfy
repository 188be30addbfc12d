/**
 Progress of the lock-free queue: a thread goes round its loop again only because the shared pointers changed
 since it began the round, so all threads together make no more accesses than the calls that took effect pay for.
 */
module LockFreedom {
  import opened Wrappers
  import opened LockFreeQueue
  import opened Linearizable

  // ----- Writes -----

  /** A successful compare-and-swap. */
  predicate Swaps(sh: Shared, l: Local) {
    Links(sh, l) || Takes(sh, l) || ((l.EnqSwing? || l.DeqSwing?) && sh.tail.ptr == l.tail.ptr)
  }

  /** The thread has swapped a pointer and is about to store its count. */
  predicate Storing(l: Local) {
    l.EnqLinkCount? || l.EnqSwingCount? || l.DeqSwingCount? || l.DeqHeadCount?
  }

  /** The step changes head, tail or a next pointer that others can see. */
  predicate Writes(s: State, a: Action) {
    a.Advance? && a.t in s.threads && (Swaps(s.sh, s.threads[a.t]) || Storing(s.threads[a.t]))
  }

  /** The first line of the loop. */
  predicate AtTop(l: Local) {
    l.EnqReadTailCount? || l.DeqReadHeadPtr?
  }

  /** What the thread has read in this round is still so. */
  predicate Current(sh: Shared, l: Local) {
    match l
    case EnqReadTailPtr(_, tc) => tc == sh.tail.count
    case EnqReadNextPtr(_, tail) => tail == sh.tail
    case EnqReadNextCount(_, tail, np) => tail == sh.tail && NextIs(sh, tail.ptr, np)
    case EnqCheckCount(_, tail, next) => tail == sh.tail && NextIs(sh, tail.ptr, next.ptr)
    case EnqCheckPtr(_, tail, next) => tail == sh.tail && NextIs(sh, tail.ptr, next.ptr)
    case EnqLink(_, tail, next) => tail == sh.tail && NextIs(sh, tail.ptr, next.ptr)
    case EnqSwing(_, tail, _) => tail == sh.tail
    case DeqReadHeadCount(hp) => hp == sh.head.ptr
    case DeqReadTailCount(head) => head == sh.head
    case DeqReadTailPtr(head, tc) => head == sh.head && tc == sh.tail.count
    case DeqReadNextCount(head, tail) => head == sh.head && tail == sh.tail
    case DeqReadNextPtr(head, tail, _) => head == sh.head && tail == sh.tail
    case DeqCheckCount(head, tail, _) => head == sh.head && tail == sh.tail
    case DeqCheckPtr(head, tail, _) => head == sh.head && tail == sh.tail
    case DeqSwing(_, tail, _) => tail == sh.tail
    case DeqReadValue(head, _) => head == sh.head
    case DeqCas(head, _, _) => head == sh.head
    case _ => true
  }

  predicate NextIs(sh: Shared, p: Option<Addr>, next: Option<Addr>) {
    Live(sh, p) && sh.nodes[p.value].next.ptr == next
  }

  /** A step that does not write keeps the pointers and their counts. */
  ghost predicate SamePointers(sh: Shared, sh': Shared) {
    && sh'.head == sh.head && sh'.tail == sh.tail && |sh.nodes| <= |sh'.nodes|
    && forall a :: 0 <= a < |sh.nodes| ==> sh'.nodes[a].next == sh.nodes[a].next
  }

  lemma StillCurrent(sh: Shared, sh': Shared, l: Local)
    requires Current(sh, l) && SamePointers(sh, sh')
    ensures Current(sh', l)
  {
  }

  lemma EnqueueReads(sh: Shared, l: Local)
    requires ListOk(sh) && LocalOk(sh, l) && Enqueuing(l) && !Swaps(sh, l) && !Storing(l)
    ensures Access(sh, l).0 == sh && !Storing(Access(sh, l).1)
  {
    if l.EnqReadNextPtr? || l.EnqReadNextCount? || l.EnqLink? {
      NextOf(sh, l.tail.ptr.value);
    }
    hide ListOk;
  }

  /** The last step of a dequeue only gives its node back. */
  lemma DequeueReads(sh: Shared, l: Local)
    requires LocalOk(sh, l) && !Enqueuing(l) && !Swaps(sh, l) && !Storing(l)
    ensures Access(sh, l).0 == sh.(freed := Access(sh, l).0.freed) && !Storing(Access(sh, l).1)
  {
  }

  lemma AccessReads(sh: Shared, l: Local)
    requires ListOk(sh) && LocalOk(sh, l) && !Swaps(sh, l) && !Storing(l)
    ensures SamePointers(sh, Access(sh, l).0) && Access(sh, l).0.hist == sh.hist
    ensures !Storing(Access(sh, l).1)
  {
    hide ListOk, LocalOk, Access, Swaps;
    if Enqueuing(l) {
      EnqueueReads(sh, l);
    } else {
      DequeueReads(sh, l);
    }
  }

  /** With current copies every check holds and every swap succeeds. */
  lemma EnqueueGoesOn(sh: Shared, l: Local)
    requires ListOk(sh) && LocalOk(sh, l) && Enqueuing(l) && Current(sh, l) && !Swaps(sh, l) && !Storing(l)
    ensures Current(sh, Access(sh, l).1) && !AtTop(Access(sh, l).1)
  {
    HeadAndTail(sh);
    if l.EnqReadNextPtr? || l.EnqReadNextCount? || l.EnqLink? {
      NextOf(sh, l.tail.ptr.value);
    }
    hide ListOk;
  }

  lemma DequeueGoesOn(sh: Shared, l: Local)
    requires LocalOk(sh, l) && !Enqueuing(l) && Running(l) && Current(sh, l) && !Swaps(sh, l) && !Storing(l)
    ensures Current(sh, Access(sh, l).1) && !AtTop(Access(sh, l).1)
  {
  }

  lemma GoesOn(sh: Shared, l: Local)
    requires ListOk(sh) && LocalOk(sh, l) && Running(l) && Current(sh, l) && !Swaps(sh, l) && !Storing(l)
    ensures Current(sh, Access(sh, l).1) && !AtTop(Access(sh, l).1)
  {
    hide ListOk, LocalOk, Current, Swaps, Storing, Access;
    if Enqueuing(l) {
      EnqueueGoesOn(sh, l);
    } else {
      DequeueGoesOn(sh, l);
    }
  }

  // ----- How many writes there have been -----

  /** Nodes linked, nodes taken, and moves of the tail. */
  function SwapCount(sh: Shared): int {
    |sh.hist.chain| - 1 + sh.hist.hi + sh.hist.ti
  }

  /** Each swap is two writes, of which the second may be still to come. */
  function WriteCount(s: State): int {
    2 * SwapCount(s.sh) - |Pending(s.threads)|
  }

  function Pending(threads: map<Tid, Local>): set<Tid> {
    set t | t in threads && Storing(threads[t])
  }

  lemma SwapAdds(sh: Shared, l: Local)
    requires LocalOk(sh, l) && Swaps(sh, l)
    ensures SwapCount(Access(sh, l).0) == SwapCount(sh) + 1 && !Storing(l) && Storing(Access(sh, l).1)
  {
  }

  lemma StoreEnds(sh: Shared, l: Local)
    requires ListOk(sh) && LocalOk(sh, l) && Storing(l)
    ensures Access(sh, l).0.hist == sh.hist && !Storing(Access(sh, l).1)
  {
    if l.EnqLinkCount? {
      NextOf(sh, l.last);
    }
  }

  lemma PendingStep(threads: map<Tid, Local>, t: Tid, l: Local)
    requires t in threads
    ensures |Pending(threads[t := l])|
         == |Pending(threads)| + (if Storing(l) then 1 else 0) - (if Storing(threads[t]) then 1 else 0)
  {
    hide Storing;
    var others := Pending(threads) - {t};
    WithOrWithout(Pending(threads), others, t, Storing(threads[t]));
    WithOrWithout(Pending(threads[t := l]), others, t, Storing(l));
  }

  lemma WithOrWithout(a: set<Tid>, others: set<Tid>, t: Tid, has: bool)
    requires t !in others && a - {t} == others && (t in a <==> has)
    ensures |a| == |others| + (if has then 1 else 0)
  {
    if has {
      assert a == others + {t};
    } else {
      assert a == others;
    }
  }

  lemma StepWrites(s: State, a: Action, s': State)
    requires Inv(s) && Next(s, a, s')
    ensures WriteCount(s') == WriteCount(s) + (if Writes(s, a) then 1 else 0)
    ensures !Writes(s, a) ==> SamePointers(s.sh, s'.sh)
  {
    hide Inv, ListOk, LocalOk, Access, SwapCount, Pending, Swaps, Storing;
    InvParts(s);
    var l := s.threads[a.t];
    PendingStep(s.threads, a.t, s'.threads[a.t]);
    match a
    case Invoke(t, call) => EnterWrites(s.sh, call);
    case Advance(t) =>
      if Swaps(s.sh, l) {
        SwapAdds(s.sh, l);
      } else if Storing(l) {
        StoreEnds(s.sh, l);
        SameSwaps(s.sh, s'.sh);
      } else {
        AccessReads(s.sh, l);
        SameSwaps(s.sh, s'.sh);
      }
    case Return(t, result) => ReturnWrites(s.sh, result);
  }

  lemma SameSwaps(sh: Shared, sh': Shared)
    requires sh'.hist == sh.hist
    ensures SwapCount(sh') == SwapCount(sh)
  {
  }

  lemma EnterWrites(sh: Shared, call: Call)
    ensures var (sh', l') := Enter(sh, call);
            SamePointers(sh, sh') && SwapCount(sh') == SwapCount(sh) && !Storing(l') && !Storing(Idle)
  {
  }

  lemma ReturnWrites(sh: Shared, result: Option<Value>)
    ensures SamePointers(sh, sh) && !Storing(Idle) && !Storing(EnqDone) && !Storing(DeqDone(result))
  {
  }

  // ----- How often a thread goes round -----

  /** The accesses among the first n steps with which t goes back to the top of its loop. */
  ghost function Rounds(ss: seq<State>, acts: seq<Action>, t: Tid, n: nat): nat
    requires n <= |acts| < |ss|
  {
    if n == 0 then 0
    else Rounds(ss, acts, t, n - 1) + (if GoesRound(ss[n], acts[n - 1], t) then 1 else 0)
  }

  predicate GoesRound(s': State, a: Action, t: Tid) {
    a == Advance(t) && t in s'.threads && AtTop(s'.threads[t])
  }

  /** The accesses that t makes in the first n steps. */
  function Accesses(acts: seq<Action>, t: Tid, n: nat): nat
    requires n <= |acts|
  {
    if n == 0 then 0 else Accesses(acts, t, n - 1) + (if acts[n - 1] == Advance(t) then 1 else 0)
  }

  /** The calls that t makes in the first n steps. */
  function Calls(acts: seq<Action>, t: Tid, n: nat): nat
    requires n <= |acts|
  {
    if n == 0 then 0 else Calls(acts, t, n - 1) + (if acts[n - 1].Invoke? && acts[n - 1].t == t then 1 else 0)
  }

  /** The calls of enqueue among the first n steps. */
  function Enqueues(acts: seq<Action>, n: nat): nat
    requires n <= |acts|
  {
    if n == 0 then 0 else Enqueues(acts, n - 1) + (if acts[n - 1].Invoke? && acts[n - 1].call.Enqueue? then 1 else 0)
  }

  /** 1 if the thread can no longer finish its round. */
  function Stale(s: State, t: Tid): nat
    requires t in s.threads
  {
    if Current(s.sh, s.threads[t]) then 0 else 1
  }

  lemma TopIsCurrent(sh: Shared, l: Local)
    ensures AtTop(l) || l.Idle? || l.EnqDone? || l.DeqDone? ==> Current(sh, l)
  {
  }

  /** What may make a thread go round again is a write. */
  lemma RoundStep(s: State, a: Action, s': State, t: Tid)
    requires Inv(s) && Next(s, a, s') && t in s.threads
    ensures t in s'.threads
    ensures (if GoesRound(s', a, t) then 1 else 0) + Stale(s', t) <= Stale(s, t) + (if Writes(s, a) then 1 else 0)
  {
    hide Inv, ListOk, LocalOk, Access, Current, SamePointers, AtTop, Swaps, Storing;
    InvParts(s);
    StepWrites(s, a, s');
    TopIsCurrent(s'.sh, s'.threads[t]);
    if a == Advance(t) {
      if !Writes(s, a) && Stale(s, t) == 0 {
        GoesOn(s.sh, s.threads[t]);
        StillCurrent(s.sh, s'.sh, s'.threads[t]);
      }
    } else if a.t == t {
      EnterAtTop(s.sh, a);
    } else if !Writes(s, a) && Stale(s, t) == 0 {
      StillCurrent(s.sh, s'.sh, s'.threads[t]);
    }
  }

  lemma EnterAtTop(sh: Shared, a: Action)
    ensures a.Invoke? ==> AtTop(Enter(sh, a.call).1)
  {
  }

  lemma NothingWritten(s: State, t: Tid)
    requires Init(s) && t in s.threads
    ensures WriteCount(s) == 0 && Stale(s, t) == 0 && s.threads[t] == Idle
  {
    assert Pending(s.threads) == {};
  }

  /** A thread goes round no oftener than there have been writes. */
  lemma {:induction false} RoundsAreWrites(ss: seq<State>, acts: seq<Action>, t: Tid, n: nat)
    requires IsRun(ss, acts) && n <= |acts| && t in ss[0].threads
    ensures t in ss[n].threads && Rounds(ss, acts, t, n) + Stale(ss[n], t) <= WriteCount(ss[n])
    decreases n
  {
    hide Init, Next, Inv, Writes, WriteCount, Stale, GoesRound, Rounds;
    NoRounds(ss, acts, t);
    if n == 0 {
      NothingWritten(ss[0], t);
    } else {
      RoundsAreWrites(ss, acts, t, n - 1);
      RunInv(ss, acts, n - 1);
      assert Next(ss[n - 1], acts[n - 1], ss[n - 1 + 1]);
      RoundStep(ss[n - 1], acts[n - 1], ss[n], t);
      StepWrites(ss[n - 1], acts[n - 1], ss[n]);
      OneRound(ss, acts, t, n);
    }
  }

  lemma NoRounds(ss: seq<State>, acts: seq<Action>, t: Tid)
    requires |acts| < |ss|
    ensures Rounds(ss, acts, t, 0) == 0
  {
  }

  lemma OneRound(ss: seq<State>, acts: seq<Action>, t: Tid, n: nat)
    requires 0 < n <= |acts| < |ss|
    ensures Rounds(ss, acts, t, n) == Rounds(ss, acts, t, n - 1) + (if GoesRound(ss[n], acts[n - 1], t) then 1 else 0)
  {
  }

  // ----- How many accesses that makes -----

  /** A round of enqueue has at most 8 accesses, one of dequeue at most 12. */
  const ROUND := 12

  /** The accesses of this round at least; the round is over at ROUND. */
  function Level(l: Local): nat {
    match l
    case EnqReadTailCount(_) => 0
    case EnqReadTailPtr(_, _) => 1
    case EnqReadNextPtr(_, _) => 2
    case EnqReadNextCount(_, _, _) => 3
    case EnqCheckCount(_, _, _) => 4
    case EnqCheckPtr(_, _, _) => 5
    case EnqLink(_, _, _) => 6
    case EnqSwing(_, _, _) => 6
    case EnqLinkCount(_, _) => 7
    case EnqSwingCount(_, _) => 7
    case DeqReadHeadPtr => 0
    case DeqReadHeadCount(_) => 1
    case DeqReadTailCount(_) => 2
    case DeqReadTailPtr(_, _) => 3
    case DeqReadNextCount(_, _) => 4
    case DeqReadNextPtr(_, _, _) => 5
    case DeqCheckCount(_, _, _) => 6
    case DeqCheckPtr(_, _, _) => 7
    case DeqSwing(_, _, _) => 8
    case DeqReadValue(_, _) => 8
    case DeqCas(_, _, _) => 9
    case DeqSwingCount(_) => 9
    case DeqHeadCount(_, _, _) => 10
    case DeqFree(_, _) => 11
    case _ => ROUND
  }

  lemma EnqueueRises(sh: Shared, l: Local)
    requires Enqueuing(l)
    ensures Level(l) < ROUND && (AtTop(Access(sh, l).1) || Level(l) < Level(Access(sh, l).1))
  {
  }

  lemma DequeueRises(sh: Shared, l: Local)
    requires Running(l) && !Enqueuing(l)
    ensures Level(l) < ROUND && (AtTop(Access(sh, l).1) || Level(l) < Level(Access(sh, l).1))
  {
  }

  lemma LevelRises(sh: Shared, l: Local)
    requires Running(l)
    ensures Level(l) < ROUND && (AtTop(Access(sh, l).1) || Level(l) < Level(Access(sh, l).1))
  {
    hide Access, Level;
    if Enqueuing(l) {
      EnqueueRises(sh, l);
    } else {
      DequeueRises(sh, l);
    }
  }

  lemma LevelStep(s: State, a: Action, s': State, t: Tid)
    requires Next(s, a, s') && t in s.threads
    ensures t in s'.threads
    ensures (if a == Advance(t) then 1 else 0) + ROUND - Level(s'.threads[t])
            <= ROUND - Level(s.threads[t])
               + (if GoesRound(s', a, t) then ROUND else 0) + (if a.Invoke? && a.t == t then ROUND else 0)
  {
    hide Access, Enter, Level, AtTop;
    if a == Advance(t) {
      LevelRises(s.sh, s.threads[t]);
      TopLevel(s'.threads[t]);
    } else if a.t == t {
      EnterLevel(s.sh, a);
      TopLevel(s.threads[t]);
      TopLevel(s'.threads[t]);
    }
  }

  lemma TopLevel(l: Local)
    ensures Level(l) <= ROUND && (AtTop(l) ==> Level(l) == 0) && (l.Idle? || l.EnqDone? || l.DeqDone? ==> Level(l) == ROUND)
  {
  }

  lemma EnterLevel(sh: Shared, a: Action)
    ensures a.Invoke? ==> Level(Enter(sh, a.call).1) == 0
  {
  }

  /** Each access belongs to a round that began with a call or with going round again. */
  lemma {:induction false} AccessesAreRounds(ss: seq<State>, acts: seq<Action>, t: Tid, n: nat)
    requires IsRun(ss, acts) && n <= |acts| && t in ss[0].threads
    ensures t in ss[n].threads
    ensures Accesses(acts, t, n) + ROUND - Level(ss[n].threads[t]) <= ROUND * (Calls(acts, t, n) + Rounds(ss, acts, t, n))
    decreases n
  {
    hide Init, Next, GoesRound, Level;
    if n == 0 {
      NothingWritten(ss[0], t);
      TopLevel(Idle);
    } else {
      AccessesAreRounds(ss, acts, t, n - 1);
      assert Next(ss[n - 1], acts[n - 1], ss[n - 1 + 1]);
      LevelStep(ss[n - 1], acts[n - 1], ss[n], t);
    }
  }

  // ----- Enqueues pay for everything -----

  lemma {:induction false} NodesAreEnqueues(ss: seq<State>, acts: seq<Action>, n: nat)
    requires IsRun(ss, acts) && n <= |acts|
    ensures |ss[n].sh.nodes| == 1 + Enqueues(acts, n)
    decreases n
  {
    hide Init, Next;
    if n == 0 {
      OneNode(ss[0]);
    } else {
      NodesAreEnqueues(ss, acts, n - 1);
      assert Next(ss[n - 1], acts[n - 1], ss[n - 1 + 1]);
      NodesStep(ss[n - 1], acts[n - 1], ss[n]);
    }
  }

  lemma OneNode(s: State)
    requires Init(s)
    ensures |s.sh.nodes| == 1
  {
  }

  lemma NodesStep(s: State, a: Action, s': State)
    requires Next(s, a, s')
    ensures |s'.sh.nodes| == |s.sh.nodes| + (if a.Invoke? && a.call.Enqueue? then 1 else 0)
  {
  }

  lemma {:induction false} DistinctBelow(q: seq<Addr>, bound: nat)
    requires (forall i, j :: 0 <= i < j < |q| ==> q[i] != q[j]) && forall i :: 0 <= i < |q| ==> q[i] < bound
    ensures |q| <= bound
    decreases bound
  {
    assert q != [] ==> q[0] < bound;
    if bound > 0 && exists i :: 0 <= i < |q| && q[i] == bound - 1 {
      var i :| 0 <= i < |q| && q[i] == bound - 1;
      DistinctBelow(q[..i] + q[i + 1..], bound - 1);
    } else if bound > 0 {
      DistinctBelow(q, bound - 1);
    }
  }

  lemma ChainBelow(sh: Shared)
    requires ListOk(sh)
    ensures |sh.hist.chain| <= |sh.nodes|
  {
    var chain, pos := sh.hist.chain, sh.hist.pos;
    forall i | 0 <= i < |chain| ensures chain[i] < |sh.nodes| && chain[i] in pos && pos[chain[i]] == i {
      assert pos[chain[i]] == i;
    }
    DistinctBelow(chain, |sh.nodes|);
  }

  lemma WritesBound(s: State)
    requires ListOk(s.sh)
    ensures 0 <= s.sh.hist.hi <= |s.sh.hist.chain| - 1
    ensures WriteCount(s) <= 2 * (2 * (|s.sh.hist.chain| - 1) + s.sh.hist.hi)
  {
  }

  /**
   Lock-freedom. In every run, whatever the other threads do, a thread goes round its loop again at most four times
   for each node that was linked and twice for each that was taken: only calls that take effect hold up another. As
   the nodes linked are those of enqueues, no thread makes more accesses than the calls so far pay for.
   */
  lemma LockFree(ss: seq<State>, acts: seq<Action>, t: Tid, n: nat)
    requires IsRun(ss, acts) && n <= |acts| && t in ss[0].threads
    ensures var linked, taken := |ss[n].sh.hist.chain| - 1, ss[n].sh.hist.hi;
            && Rounds(ss, acts, t, n) <= 2 * (2 * linked + taken)
            && 0 <= taken <= linked <= Enqueues(acts, n)
            && Accesses(acts, t, n) <= ROUND * (Calls(acts, t, n) + 2 * (2 * linked + taken))
  {
    hide Init, Next, Inv, ListOk, Rounds, Accesses, Calls, Enqueues, WriteCount;
    RunInv(ss, acts, n);
    InvParts(ss[n]);
    RoundsAreWrites(ss, acts, t, n);
    WritesBound(ss[n]);
    NodesAreEnqueues(ss, acts, n);
    ChainBelow(ss[n].sh);
    AccessesAreRounds(ss, acts, t, n);
    TopLevel(ss[n].threads[t]);
  }

  // ----- One round -----

  /** Some other thread writes in one of the steps from i to j - 1. */
  ghost predicate WrittenByOther(ss: seq<State>, acts: seq<Action>, t: Tid, i: nat, j: nat)
    requires i <= j <= |acts| < |ss|
  {
    exists m :: i <= m < j && acts[m].t != t && Writes(ss[m], acts[m])
  }

  /** A thread that has changed the queue for good and has only to finish, or has moved the tail. */
  predicate Committed(l: Local) {
    Storing(l) || l.DeqFree? || l.EnqDone? || l.DeqDone?
  }

  /** t is in one round from step i to step j. */
  ghost predicate OneRoundFrom(ss: seq<State>, t: Tid, i: nat, j: nat)
    requires i <= j < |ss|
  {
    && (forall m :: i <= m <= j ==> t in ss[m].threads)
    && AtTop(ss[i].threads[t])
    && forall m :: i < m <= j ==> !AtTop(ss[m].threads[t]) && !ss[m].threads[t].Idle?
  }

  lemma CommittedStays(sh: Shared, l: Local)
    requires Committed(l) && Running(l)
    ensures Committed(Access(sh, l).1) || Access(sh, l).1.Fault? || (AtTop(Access(sh, l).1) && (l.EnqSwingCount? || l.DeqSwingCount?))
  {
  }

  lemma CommittedStep(s: State, a: Action, s': State, t: Tid)
    requires Inv(s) && Inv(s') && Next(s, a, s') && t in s.threads && Committed(s.threads[t])
    ensures t in s'.threads
    ensures Committed(s'.threads[t]) || s'.threads[t].Idle? || AtTop(s'.threads[t])
  {
    hide Inv, ListOk, Access, Committed, Enter;
    InvParts(s');
    if a == Advance(t) {
      CommittedStays(s.sh, s.threads[t]);
    } else if a.Invoke? && a.t == t {
      EnterAtTop(s.sh, a);
    }
  }

  /** While no other thread writes, a round goes on until it commits. */
  lemma CurrentStep(s: State, a: Action, s': State, t: Tid)
    requires Inv(s) && Next(s, a, s') && t in s.threads && Current(s.sh, s.threads[t])
    ensures t in s'.threads
    ensures Current(s'.sh, s'.threads[t]) || Committed(s'.threads[t]) || (a.t != t && Writes(s, a)) || AtTop(s'.threads[t])
    ensures a == Advance(t) && AtTop(s'.threads[t]) ==> Committed(s.threads[t])
  {
    hide Inv, ListOk, LocalOk, Access, Current, SamePointers, AtTop, Swaps, WriteCount, Enter, Storing;
    InvParts(s);
    StepWrites(s, a, s');
    TopIsCurrent(s'.sh, s'.threads[t]);
    var l := s.threads[t];
    if a == Advance(t) {
      if Swaps(s.sh, l) {
        SwapAdds(s.sh, l);
        StoringIsNotTop(s'.threads[t]);
      } else if !Storing(l) {
        GoesOn(s.sh, l);
        StillCurrent(s.sh, s'.sh, s'.threads[t]);
      } else {
        CommittedStays(s.sh, l);
        NoFaultNow(s, a, s', t);
      }
    } else if a.t == t {
      EnterAtTop(s.sh, a);
    } else if !Writes(s, a) {
      StillCurrent(s.sh, s'.sh, l);
    }
  }

  lemma StoringIsNotTop(l: Local)
    requires Storing(l)
    ensures !AtTop(l)
  {
  }

  lemma NoFaultNow(s: State, a: Action, s': State, t: Tid)
    requires Inv(s) && Next(s, a, s') && t in s.threads
    ensures t in s'.threads && !s'.threads[t].Fault?
  {
    hide Inv, ListOk, Access, Enter;
    NextInv(s, a, s');
    InvParts(s');
  }

  lemma RoundShorter(ss: seq<State>, t: Tid, i: nat, j: nat)
    requires i < j < |ss| && OneRoundFrom(ss, t, i, j)
    ensures OneRoundFrom(ss, t, i, j - 1)
    ensures t in ss[j].threads && !AtTop(ss[j].threads[t]) && !ss[j].threads[t].Idle?
  {
  }

  lemma {:induction false} RoundGoesOn(ss: seq<State>, acts: seq<Action>, t: Tid, i: nat, j: nat)
    requires IsRun(ss, acts) && i <= j <= |acts| && OneRoundFrom(ss, t, i, j)
    ensures t in ss[j].threads
    ensures WrittenByOther(ss, acts, t, i, j) || Committed(ss[j].threads[t]) || Current(ss[j].sh, ss[j].threads[t])
    decreases j
  {
    hide Init, Next, Inv, Committed, Current, Writes, AtTop;
    if i == j {
      TopIsCurrent(ss[j].sh, ss[j].threads[t]);
    } else {
      RoundShorter(ss, t, i, j);
      RoundGoesOn(ss, acts, t, i, j - 1);
      RunInv(ss, acts, j - 1);
      RunInv(ss, acts, j);
      var s, a := ss[j - 1], acts[j - 1];
      assert Next(s, a, ss[j - 1 + 1]);
      if Committed(s.threads[t]) {
        CommittedStep(s, a, ss[j], t);
      } else if Current(s.sh, s.threads[t]) {
        CurrentStep(s, a, ss[j], t);
      }
    }
  }

  /**
   A round that ends at the top of the loop again either has just moved the tail on, or was disturbed: since it
   began another thread swapped a pointer or stored a count.
   */
  lemma RetryHasCause(ss: seq<State>, acts: seq<Action>, t: Tid, i: nat, j: nat)
    requires IsRun(ss, acts) && i <= j < |acts| && OneRoundFrom(ss, t, i, j)
    requires GoesRound(ss[j + 1], acts[j], t)
    ensures t in ss[j].threads
    ensures ss[j].threads[t].EnqSwingCount? || ss[j].threads[t].DeqSwingCount? || WrittenByOther(ss, acts, t, i, j)
  {
    hide Init, Inv, Committed, Current, Writes, AtTop, Access, ListOk, LocalOk;
    RoundGoesOn(ss, acts, t, i, j);
    RunInv(ss, acts, j);
    assert Next(ss[j], acts[j], ss[j + 1]);
    if !WrittenByOther(ss, acts, t, i, j) {
      if !Committed(ss[j].threads[t]) {
        CurrentStep(ss[j], acts[j], ss[j + 1], t);
      }
      NoFaultNow(ss[j], acts[j], ss[j + 1], t);
      CommittedStays(ss[j].sh, ss[j].threads[t]);
      CommittedIsNotTop(ss[j + 1].threads[t]);
    }
  }

  lemma CommittedIsNotTop(l: Local)
    requires AtTop(l)
    ensures !Committed(l) && !l.Fault?
  {
  }
}
