/** Mutexes over whole runs: at most one holder, hand-off in the order of arrival, nothing lost by an interrupt. */
module SchedulerMutex {
  import opened Wrappers
  import opened Queues
  import opened Scheduler
  import opened SchedulerInvariant
  import opened SchedulerSteps
  import opened SchedulerEffects
  import opened SchedulerFrames
  import SQ = SleepQueue
  import IO = IoQueue

  // ----- Who waits where -----

  /** A step leaves the other threads waiting for the mutexes they waited for. */
  lemma OthersInLock(s: State, e: Event, t: Tid, m: nat)
    requires Inv(s) && Enabled(s, e) && t != s.current
    ensures ContOf(Next(s, e).0, t) == InLock(m) <==> ContOf(s, t) == InLock(m)
  {
    hide Inv, Next, Enabled, Change;
    var s' := Next(s, e).0;
    StepChange(s, e);
    assert ChangeOk(s, e, s', t);
    ChangeInLock(s, e, t, Norm(Th(s, t)), Norm(Th(s', t)), m);
  }

  lemma ChangeInLock(s: State, e: Event, t: Tid, th: Thread, th': Thread, m: nat)
    requires Change(s, e, t, th, th')
    ensures th'.cont == InLock(m) <==> th.cont == InLock(m)
  {
  }

  // ----- The program's view -----

  /** The mutexes that threads have locked and not unlocked, by what their calls returned. */
  function Track(held: set<(Tid, nat)>, s: State, e: Event): set<(Tid, nat)>
    requires Enabled(s, e)
  {
    var me, ok := s.current, Next(s, e).1 == Some(Ok(0));
    match e
    case Do(CLock(m)) => if ok then held + {(me, m)} else held
    case Do(CTrylock(m)) => if ok then held + {(me, m)} else held
    case Do(CUnlock(m)) => if ok then held - {(me, m)} else held
    case Resume =>
      if ok && ContOf(s, me).InLock? then held + {(me, ContOf(s, me).mutex)} else held
    case _ => held
  }

  /** A thread holds a mutex when it owns it, unless it was handed it and has not yet returned. */
  predicate HeldOk(held: set<(Tid, nat)>, s: State, t: Tid, m: nat) {
    (t, m) in held <==> Owner(s, m) == Some(t) && ContOf(s, t) != InLock(m)
  }

  /** What the current thread's lock, trylock, unlock or end of a lock does to the mutex. */
  lemma LockStep(s: State, e: Event, m: nat)
    requires Inv(s) && Enabled(s, e) && IsLockStep(s, e, m)
    ensures var (s', r) := Next(s, e);
            var me, o, o' := s.current, Owner(s, m), Owner(s', m);
            match e
            case Do(CUnlock(_)) =>
              && ContOf(s, me) != InLock(m) && ContOf(s', me) != InLock(m)
              && (o == Some(me) <==> r == Some(Ok(0))) && (o == Some(me) ==> o' != Some(me)) && (o != Some(me) ==> o' == o)
              && (o'.Some? && o' != o ==> ContOf(s, o'.value) == InLock(m))
            case Resume =>
              && o' == o && ContOf(s', me) != InLock(m)
              && (o == Some(me) ==> r == Some(Ok(0))) && (o != Some(me) ==> r == Some(Err(EINTR)))
            case _ =>
              && ContOf(s, me) != InLock(m)
              && (r == Some(Ok(0)) ==> o == None && o' == Some(me) && ContOf(s', me) != InLock(m))
              && (r != Some(Ok(0)) ==> o' == o) && (ContOf(s', me) == InLock(m) ==> o != Some(me))
  {
    hide Inv;
    match e
    case Do(CLock(_)) => LockCall(s, m);
    case Do(CTrylock(_)) => TrylockCall(s, m);
    case Do(CUnlock(_)) => UnlockCall(s, m);
    case Resume => LockEndCall(s, m);
  }

  lemma LockCall(s: State, m: nat)
    requires Calling(s)
    ensures var (s', r) := Lock(s, m);
            var me, o, o' := s.current, Owner(s, m), Owner(s', m);
            && ContOf(s, me) != InLock(m)
            && (r == Some(Ok(0)) ==> o == None && o' == Some(me) && ContOf(s', me) != InLock(m))
            && (r != Some(Ok(0)) ==> o' == o) && (ContOf(s', me) == InLock(m) ==> o != Some(me))
  {
    hide Inv, Schedule;
    CallingThread(s);
    ScheduleSame(PutMutex(Block(s, LockWait, InLock(m)), m, MutexOf(s, m).(waitq := MutexOf(s, m).waitq + [s.current])));
  }

  lemma TrylockCall(s: State, m: nat)
    requires Calling(s)
    ensures var (s', r) := Trylock(s, m);
            var me, o, o' := s.current, Owner(s, m), Owner(s', m);
            && ContOf(s, me) != InLock(m)
            && (r == Some(Ok(0)) ==> o == None && o' == Some(me) && ContOf(s', me) != InLock(m))
            && (r != Some(Ok(0)) ==> o' == o) && ContOf(s', me) != InLock(m)
  {
    hide Inv;
    CallingThread(s);
  }

  lemma UnlockCall(s: State, m: nat)
    requires Calling(s)
    ensures var (s', r) := Unlock(s, m);
            var me, o, o' := s.current, Owner(s, m), Owner(s', m);
            && ContOf(s, me) != InLock(m) && ContOf(s', me) != InLock(m)
            && (o == Some(me) <==> r == Some(Ok(0))) && (o == Some(me) ==> o' != Some(me)) && (o != Some(me) ==> o' == o)
            && (o'.Some? && o' != o ==> ContOf(s, o'.value) == InLock(m))
  {
    hide Inv, HandOff;
    CallingThread(s);
    InvLinks(s);
    if Owner(s, m) == Some(s.current) {
      UnlockedCalling(s, m);
      UnlockedConts(s, m);
      ReturnSame(HandOff(s, m, LockQ(s, m)), Ok(0));
      HandedOk(s, m);
    } else {
      ReturnSame(s, Err(EPERM));
    }
  }

  lemma LockEndCall(s: State, m: nat)
    requires Inv(s) && ContOf(s, s.current) == InLock(m)
    ensures var (s', r) := LockEnd(s, m);
            var me, o, o' := s.current, Owner(s, m), Owner(s', m);
            && o' == o && ContOf(s', me) != InLock(m)
            && (o == Some(me) ==> r == Some(Ok(0))) && (o != Some(me) ==> r == Some(Err(EINTR)))
  {
    ResumedThread(s);
    assert LockOk(s, s.current);
    hide Inv, Without;
  }

  /** What the program sees stays true to the owners. */
  lemma TrackKeeps(held: set<(Tid, nat)>, s: State, e: Event, t: Tid, m: nat)
    requires Inv(s) && Enabled(s, e) && HeldOk(held, s, t, m)
    ensures HeldOk(Track(held, s, e), Next(s, e).0, t, m)
  {
    hide Inv, Next, Enabled;
    if t != s.current {
      OthersInLock(s, e, t, m);
    }
    if IsLockStep(s, e, m) {
      LockStep(s, e, m);
    } else {
      StepSame(s, e, m);
    }
  }

  /** The holders after the first n steps of a run. */
  ghost function HeldAt(states: seq<State>, events: seq<Event>, n: nat): set<(Tid, nat)>
    requires IsRun(states, events) && n <= |events|
  {
    if n == 0 then {} else Track(HeldAt(states, events, n - 1), states[n - 1], events[n - 1])
  }

  lemma {:induction false} HeldKeeps(states: seq<State>, events: seq<Event>, n: nat, t: Tid, m: nat)
    requires IsRun(states, events) && n <= |events|
    ensures HeldOk(HeldAt(states, events, n), states[n], t, m)
  {
    hide Inv, Next, Enabled, HeldOk, Track;
    if n == 0 {
      InitHeld(states[0], t, m);
    } else {
      HeldKeeps(states, events, n - 1, t, m);
      RunKeeps(states, events, n - 1);
      assert Enabled(states[n - 1], events[n - 1]) && states[n - 1 + 1] == Next(states[n - 1], events[n - 1]).0;
      TrackKeeps(HeldAt(states, events, n - 1), states[n - 1], events[n - 1], t, m);
    }
  }

  lemma InitHeld(s: State, t: Tid, m: nat)
    requires s.mutexes == map[]
    ensures HeldOk({}, s, t, m)
  {
  }

  /** At any time of any run at most one thread holds a mutex, and the mutex names it as its owner. */
  lemma MutualExclusion(states: seq<State>, events: seq<Event>, n: nat, m: nat, t: Tid, u: Tid)
    requires IsRun(states, events) && n <= |events|
    requires (t, m) in HeldAt(states, events, n) && (u, m) in HeldAt(states, events, n)
    ensures t == u && Owner(states[n], m) == Some(t)
  {
    hide IsRun, HeldAt;
    HeldKeeps(states, events, n, t, m);
    HeldKeeps(states, events, n, u, m);
  }

  /**
   A thread that goes on in st_mutex_lock was handed the mutex or was interrupted. If it was handed it, the
   call succeeds, and an interrupt that came since stays pending; otherwise it fails with EINTR.
   */
  lemma LockReturns(s: State, m: nat)
    requires Inv(s) && ContOf(s, s.current) == InLock(m)
    ensures var (s', r) := LockEnd(s, m);
            if Owner(s, m) == Some(s.current)
            then r == Some(Ok(0)) && Th(s', s.current).interrupt == Th(s, s.current).interrupt
            else r == Some(Err(EINTR)) && Th(s, s.current).interrupt && !Th(s', s.current).interrupt
                 && Owner(s', m) == Owner(s, m)
  {
    ResumedThread(s);
    assert LockOk(s, s.current);
    hide Inv, Without;
  }

  /** A thread that still waits waits for an owner. */
  lemma WaiterHasOwner(s: State, t: Tid, m: nat)
    requires Inv(s) && ContOf(s, t) == InLock(m) && Th(s, t).state == LockWait
    ensures Owner(s, m).Some? && t in LockQ(s, m)
  {
    assert LockOk(s, t) && LockQOk(s, m, t);
  }

  // ----- First come, first served -----

  /** An unlock passes over a waiter only if that has been released already. */
  lemma HandsToFirst(s: State, m: nat, t: Tid)
    requires Inv(s) && ContOf(s, s.current).InProgram? && Owner(s, m) == Some(s.current)
    requires Th(s, t).state == LockWait && t in LockQ(s, m)
    ensures var o := Owner(Unlock(s, m).0, m);
            o.Some? && (o == Some(t) || Before(LockQ(s, m), o.value, t))
  {
    var q, s' := LockQ(s, m), HandOff(s, m, LockQ(s, m));
    UnlockedCalling(s, m);
    ReturnSame(s', Ok(0));
    HandOffEffect(s, m, q);
    InvLinks(s);
    hide Inv, HandOff, LockQ;
    var k :| 0 <= k < |q| && q[k] == t;
    assert Owner(s', m).Some?;
    var i :| 0 <= i < |q| && Owner(s', m) == Some(q[i]) && forall j :: 0 <= j < i ==> Th(s, q[j]).state != LockWait;
    assert i <= k;
  }

  /** The waiters of a mutex that are not running keep their places. */
  lemma KeepsOrder(s: State, e: Event, m: nat, t: Tid, u: Tid)
    requires Inv(s) && Enabled(s, e) && Before(LockQ(s, m), t, u) && t != s.current && u != s.current
    ensures Before(LockQ(Next(s, e).0, m), t, u)
  {
    hide Inv, Before, NoDup, Next, Enabled, LockQ, Without;
    InvLinks(s);
    if !IsLockStep(s, e, m) {
      StepSame(s, e, m);
      SameQueue(s, Next(s, e).0, m);
    } else if e.Resume? {
      WithoutOrder(LockQ(s, m), s.current, t, u);
      LockEndQueue(s, m);
      LockEndIs(s, e, m);
    } else {
      QueueAfter(s, e, m);
      AppendMembers(LockQ(s, m), s.current);
    }
  }

  lemma SameQueue(s: State, s': State, m: nat)
    requires SameMutex(s, s', m)
    ensures LockQ(s', m) == LockQ(s, m)
  {
  }

  lemma LockEndIs(s: State, e: Event, m: nat)
    requires Enabled(s, e) && e.Resume? && ContOf(s, s.current) == InLock(m)
    ensures Next(s, e) == LockEnd(s, m)
  {
    hide LockEnd;
  }

  lemma LockEndQueue(s: State, m: nat)
    ensures LockQ(LockEnd(s, m).0, m) == Without(LockQ(s, m), s.current)
  {
    hide Without;
  }

  lemma QueueAfter(s: State, e: Event, m: nat)
    requires Inv(s) && Enabled(s, e) && IsLockStep(s, e, m) && e.Do?
    ensures var q, q' := LockQ(s, m), LockQ(Next(s, e).0, m);
            q' == q || q' == q + [s.current]
    ensures s.current !in LockQ(s, m)
  {
    hide Inv, Schedule;
    CallingThread(s);
    match e.call
    case CLock(_) => LockQueue(s, m);
    case CTrylock(_) =>
    case CUnlock(_) => UnlockQueue(s, m);
  }

  lemma LockQueue(s: State, m: nat)
    ensures var q, q' := LockQ(s, m), LockQ(Lock(s, m).0, m);
            q' == q || q' == q + [s.current]
  {
    hide Schedule;
    ScheduleSame(PutMutex(Block(s, LockWait, InLock(m)), m, MutexOf(s, m).(waitq := MutexOf(s, m).waitq + [s.current])));
  }

  lemma UnlockQueue(s: State, m: nat)
    requires Calling(s)
    ensures LockQ(Unlock(s, m).0, m) == LockQ(s, m)
  {
    hide Inv, HandOff;
    if Owner(s, m) == Some(s.current) {
      UnlockedCalling(s, m);
      ReturnSame(HandOff(s, m, LockQ(s, m)), Ok(0));
      HandOffEffect(s, m, LockQ(s, m));
    } else {
      ReturnSame(s, Err(EPERM));
    }
  }

  /** Both threads wait for the mutex and neither has been released, from state i to state j. */
  ghost predicate BothWait(states: seq<State>, i: nat, j: nat, t: Tid, u: Tid) {
    forall k :: i <= k <= j < |states| ==> Th(states[k], t).state == LockWait && Th(states[k], u).state == LockWait
  }

  lemma {:induction false} StaysBefore(states: seq<State>, events: seq<Event>, i: nat, j: nat, m: nat, t: Tid, u: Tid)
    requires IsRun(states, events) && i <= j <= |events| && BothWait(states, i, j, t, u)
    requires Before(LockQ(states[i], m), t, u)
    ensures Before(LockQ(states[j], m), t, u)
    decreases j - i
  {
    hide Inv, Next, Enabled, Before;
    if i < j {
      BothWaitShorter(states, i, j, t, u);
      StaysBefore(states, events, i, j - 1, m, t, u);
      RunKeeps(states, events, j - 1);
      assert Enabled(states[j - 1], events[j - 1]) && states[j - 1 + 1] == Next(states[j - 1], events[j - 1]).0;
      assert i <= j - 1 <= j < |states|;
      NotCurrent(states[j - 1], t);
      NotCurrent(states[j - 1], u);
      KeepsOrder(states[j - 1], events[j - 1], m, t, u);
    }
  }

  lemma BothWaitShorter(states: seq<State>, i: nat, j: nat, t: Tid, u: Tid)
    requires BothWait(states, i, j, t, u) && i < j < |states|
    ensures BothWait(states, i, j - 1, t, u)
  {
  }

  lemma NotCurrent(s: State, t: Tid)
    requires Inv(s) && Th(s, t).state == LockWait
    ensures t != s.current
  {
    ResumedThread(s);
  }

  /**
   Of two threads that wait for a mutex, the one that came first is released first: while both still wait,
   no unlock hands the mutex to the later one.
   */
  lemma FirstComeFirstServed(states: seq<State>, events: seq<Event>, i: nat, j: nat, m: nat, t: Tid, u: Tid)
    requires IsRun(states, events) && i <= j < |events| && BothWait(states, i, j, t, u)
    requires Before(LockQ(states[i], m), t, u)
    requires events[j] == Do(CUnlock(m)) && Owner(states[j], m) == Some(states[j].current)
    ensures Owner(states[j + 1], m) != Some(u)
  {
    hide Inv, Next, BothWait;
    StaysBefore(states, events, i, j, m, t, u);
    RunKeeps(states, events, j);
    var s := states[j];
    assert Enabled(s, events[j]) && states[j + 1] == Next(s, events[j]).0;
    assert i <= j <= j < |states| && Th(s, t).state == LockWait by {
      WaitsAt(states, i, j, t, u);
    }
    HandsBefore(s, m, t, u);
  }

  lemma WaitsAt(states: seq<State>, i: nat, j: nat, t: Tid, u: Tid)
    requires BothWait(states, i, j, t, u) && i <= j < |states|
    ensures Th(states[j], t).state == LockWait
  {
  }

  lemma HandsBefore(s: State, m: nat, t: Tid, u: Tid)
    requires Inv(s) && Enabled(s, Do(CUnlock(m))) && Owner(s, m) == Some(s.current)
    requires Th(s, t).state == LockWait && Before(LockQ(s, m), t, u)
    ensures Owner(Next(s, Do(CUnlock(m))).0, m) != Some(u)
  {
    hide Inv, Unlock, LockQ;
    BeforeIn(LockQ(s, m), t, u);
    HandsToFirst(s, m, t);
    InvLinks(s);
    var o := Owner(Unlock(s, m).0, m);
    if o == Some(u) {
      NotBoth(LockQ(s, m), t, u);
    }
  }

  lemma BeforeIn(q: seq<Tid>, t: Tid, u: Tid)
    requires Before(q, t, u)
    ensures t in q && u in q
  {
  }

  lemma NotBoth(q: seq<Tid>, t: Tid, u: Tid)
    requires NoDup(q) && Before(q, t, u)
    ensures t != u && !Before(q, u, t)
  {
  }
}
