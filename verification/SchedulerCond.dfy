/** Condition waits over whole runs: each is released once, and what it returns says by what. */
module SchedulerCond {
  import opened Wrappers
  import opened Queues
  import opened Scheduler
  import opened SchedulerInvariant
  import opened SchedulerSteps
  import opened SchedulerEffects
  import opened SchedulerFrames
  import opened SchedulerPlaces
  import SQ = SleepQueue
  import IO = IoQueue

  // ----- One signal -----

  predicate Waiting(s: State, t: Tid, c: Cond) {
    Th(s, t).state == CondWait && ContOf(s, t) == InCondWait(c)
  }

  /** The first waiter in q that nothing has released, or the length of q. */
  function FirstWaiting(s: State, q: seq<Tid>): (i: nat)
    ensures i <= |q| && (i < |q| ==> Th(s, q[i]).state == CondWait)
    ensures forall j :: 0 <= j < i ==> Th(s, q[j]).state != CondWait
  {
    if q == [] || Th(s, q[0]).state == CondWait then 0 else 1 + FirstWaiting(s, q[1..])
  }

  lemma {:induction false} SignalIsWake(s: State, q: seq<Tid>)
    ensures Signal(s, q, false) == if FirstWaiting(s, q) < |q| then Wake(s, q[FirstWaiting(s, q)]) else s
    decreases q
  {
    hide Wake;
    if q != [] && Th(s, q[0]).state != CondWait {
      SignalIsWake(s, q[1..]);
    }
  }

  /**
   A signal releases the oldest thread that still waits, and no other; if none does, it does nothing. A
   thread that has timed out or was interrupted never takes it.
   */
  lemma SignalsOldest(s: State, r: Option<Tid>, c: Cond)
    requires Core(s, r)
    ensures var q, s' := CondQ(s, c), CondSignal(s, c, false);
            var i := FirstWaiting(s, q);
            if i == |q| then s' == s
            else Waiting(s, q[i], c) && Only(s, s', q[i]) && Th(s', q[i]) == Signalled(Th(s, q[i]))
                 && s'.runq == s.runq + [q[i]]
    ensures FirstWaiting(s, CondQ(s, c)) == |CondQ(s, c)| <==> forall t :: !Waiting(s, t, c)
  {
    var q := CondQ(s, c);
    var i := FirstWaiting(s, q);
    SignalIsWake(s, q);
    WaitersQueued(s, r, c);
    if i < |q| {
      CondWaitPlace(s, r, q[i]);
      hide Core, Wake;
      WakeKeeps(s, r, q[i]);
    }
  }

  lemma WaitersQueued(s: State, r: Option<Tid>, c: Cond)
    requires Core(s, r)
    ensures forall t :: t in CondQ(s, c) ==> ContOf(s, t) == InCondWait(c)
    ensures forall t :: Waiting(s, t, c) ==> t in CondQ(s, c)
  {
    hide QueuesOk, LocksOk, IoOk, LinkOk, ContOf;
    forall t ensures t in CondQ(s, c) <==> ContOf(s, t) == InCondWait(c) {
      assert CondOk(s, c, t);
    }
  }

  /** A broadcast releases every thread that still waits, in the order of the queue. */
  lemma {:induction false} BroadcastAll(s: State, r: Option<Tid>, q: seq<Tid>)
    requires Core(s, r) && NoDup(q)
    ensures var s' := Signal(s, q, true);
            forall t :: Th(s', t) == if t in q && Th(s, t).state == CondWait then Signalled(Th(s, t)) else Th(s, t)
    decreases q
  {
    hide Core, Wake;
    if q != [] {
      TailMembers(q);
      var s1 := if Th(s, q[0]).state == CondWait then Wake(s, q[0]) else s;
      if Th(s, q[0]).state == CondWait {
        CondWaitPlace(s, r, q[0]);
        WakeKeeps(s, r, q[0]);
      }
      BroadcastAll(s1, r, q[1..]);
    }
  }

  // ----- The order of the waiters -----

  /** Every step changes a wait queue by the current thread's coming and going only. */
  lemma StepConds(s: State, e: Event)
    requires Inv(s) && Enabled(s, e)
    ensures CondsStep(s, Next(s, e).0)
  {
    hide Inv, Next, Enabled, CondsStep, SameMutex;
    if m: nat :| IsLockStep(s, e, m) {
      StepSame(s, e, m + 1);
    } else {
      StepSame(s, e, 0);
    }
  }

  /** The waiters that are not running keep their places. */
  lemma KeepsOrder(s: State, e: Event, c: Cond, t: Tid, u: Tid)
    requires Inv(s) && Enabled(s, e) && Before(CondQ(s, c), t, u) && t != s.current && u != s.current
    ensures Before(CondQ(Next(s, e).0, c), t, u)
  {
    hide Inv, Next, Enabled, Before, NoDup, CondQ, Without;
    var q, q', me := CondQ(s, c), CondQ(Next(s, e).0, c), s.current;
    InvLinks(s);
    StepConds(s, e);
    assert QueueStep(q, q', me);
    WithoutOrder(q, me, t, u);
    WithoutMembers(q, me);
    BeforeAppend(q, me, t, u);
    BeforeAppend(Without(q, me), me, t, u);
  }

  lemma BeforeAppend(q: seq<Tid>, x: Tid, t: Tid, u: Tid)
    requires Before(q, t, u)
    ensures Before(q + [x], t, u)
  {
    var i, j :| 0 <= i < j < |q| && q[i] == t && q[j] == u;
    assert (q + [x])[i] == t && (q + [x])[j] == u;
  }

  // ----- One wait -----

  /** What may release a thread from a wait on a condition variable of the program. */
  predicate Releases(e: Event, t: Tid, c: nat) {
    match e
    case Do(CCondSignal(d, _)) => d == c
    case Do(CInterrupt(u)) => u == t
    case Idle(_, _) => true
    case _ => false
  }

  /** A wait ends by a signal, by a timeout, which is noted, or by an interrupt, which is noted. */
  lemma WaitEnds(s: State, e: Event, t: Tid, c: nat)
    requires Inv(s) && Enabled(s, e) && Waiting(s, t, User(c))
    ensures var th, th' := Th(s, t), Th(Next(s, e).0, t);
            if th'.state == CondWait then th' == th
            else Releases(e, t, c) && Active(th') && th'.cont == th.cont
                 && (th'.timedout <==> e.Idle?) && th'.interrupt == (th.interrupt || (e.Do? && e.call == CInterrupt(t)))
  {
    hide Inv, Next, Enabled, Core, Change;
    var s' := Next(s, e).0;
    ResumedThread(s);
    StepChange(s, e);
    InvCore(s);
    TimedoutActive(s, Some(s.current), t);
    assert ChangeOk(s, e, s', t);
    WaitChange(s, e, t, Norm(Th(s, t)), Norm(Th(s', t)), c);
  }

  lemma WaitChange(s: State, e: Event, t: Tid, th: Thread, th': Thread, c: nat)
    requires Change(s, e, t, th, th') && th.state == CondWait && th.cont == InCondWait(User(c)) && !th.timedout
    ensures th' == th
            || (Releases(e, t, c) && th'.state == Runnable && th'.cont == th.cont
                && (th'.timedout <==> e.Idle?)
                && th'.interrupt == (th.interrupt || (e.Do? && e.call == CInterrupt(t))))
  {
  }

  /** A released thread that has not gone on only can be given the processor, and be interrupted. */
  lemma ReleasedStays(s: State, e: Event, t: Tid, c: nat)
    requires Inv(s) && Enabled(s, e) && t != s.current
    requires ContOf(s, t) == InCondWait(User(c)) && Active(Th(s, t))
    ensures var th, th' := Th(s, t), Th(Next(s, e).0, t);
            && Active(th') && th'.cont == th.cont && th'.timedout == th.timedout
            && th'.interrupt == (th.interrupt || (e.Do? && e.call == CInterrupt(t)))
  {
    hide Inv, Next, Enabled, Change;
    var s' := Next(s, e).0;
    StepChange(s, e);
    ActiveAwake(s, t);
    assert ChangeOk(s, e, s', t);
    ReleasedChange(s, e, t, Norm(Th(s, t)), Norm(Th(s', t)), c);
  }

  lemma ActiveAwake(s: State, t: Tid)
    requires Inv(s) && Active(Th(s, t))
    ensures !Th(s, t).onSleepq
  {
    assert LinkOk(s, Some(s.current), t);
  }

  lemma ReleasedChange(s: State, e: Event, t: Tid, th: Thread, th': Thread, c: nat)
    requires Change(s, e, t, th, th') && th.state == Runnable && th.cont == InCondWait(User(c)) && !th.onSleepq
    ensures th'.state == Runnable && th'.cont == th.cont && th'.timedout == th.timedout
    ensures th'.interrupt == (th.interrupt || (e.Do? && e.call == CInterrupt(t)))
  {
  }

  /** t waits in state k, is released by step k, and has not returned from the wait in state n. */
  ghost predicate Released(states: seq<State>, k: nat, n: nat, t: Tid, c: nat)
    requires k < n < |states|
  {
    && Waiting(states[k], t, User(c)) && Th(states[k + 1], t).state != CondWait
    && forall j :: k < j <= n ==> ContOf(states[j], t) == InCondWait(User(c))
  }

  /** Whether an interrupt for t came among the steps from k on, before n. */
  predicate InterruptedIn(events: seq<Event>, k: nat, n: nat, t: Tid)
    requires k <= n <= |events|
  {
    exists j :: k <= j < n && events[j] == Do(CInterrupt(t))
  }

  lemma ReleasedShorter(states: seq<State>, k: nat, n: nat, t: Tid, c: nat)
    requires k + 1 < n < |states| && Released(states, k, n, t, c)
    ensures Released(states, k, n - 1, t, c)
    ensures ContOf(states[n - 1], t) == InCondWait(User(c)) && ContOf(states[n], t) == InCondWait(User(c))
  {
  }

  /** A thread in a wait that goes on returns from it. */
  lemma GoesOn(s: State, e: Event, t: Tid, c: nat)
    requires Inv(s) && Enabled(s, e) && t == s.current && ContOf(s, t) == InCondWait(User(c))
    ensures e == Resume && Next(s, e).1 == Some(CondResult(Th(s, t)))
    ensures ContOf(Next(s, e).0, t).InProgram? && !Th(Next(s, e).0, t).timedout
  {
    hide Inv, CondLeave;
    assert e == Resume by {
      ResumedThread(s);
    }
    CondLeaveKeeps(s, User(c));
    ReturnSame(CondLeave(s, User(c)), CondResult(Th(s, t)));
    CallingThread(CondLeave(s, User(c)));
    CondLeaveOnly(s, User(c));
  }

  /** Until it goes on, nothing but an interrupt happens to a released thread. */
  lemma {:induction false} ReleaseNoted(states: seq<State>, events: seq<Event>, k: nat, n: nat, t: Tid, c: nat)
    requires IsRun(states, events) && k < n <= |events| && Released(states, k, n, t, c)
    ensures var th := Th(states[n], t);
            && Releases(events[k], t, c) && Active(th)
            && (th.timedout <==> events[k].Idle?)
            && (th.interrupt <==> InterruptedIn(events, k, n, t))
    decreases n
  {
    hide IsRun, Inv, Next, Enabled, Active, Releases, ContOf, Th, Unflagged;
    RunStep(states, events, n - 1);
    if n == k + 1 {
      RunUnflagged(states, events, k, t);
      FirstRelease(states, events, k, t, c);
    } else {
      ReleasedShorter(states, k, n, t, c);
      ReleaseNoted(states, events, k, n - 1, t, c);
      NotGoneOn(states[n - 1], events[n - 1], t, c);
      ReleasedStays(states[n - 1], events[n - 1], t, c);
      InterruptedStep(events, k, n, t);
    }
  }

  lemma NotGoneOn(s: State, e: Event, t: Tid, c: nat)
    requires Inv(s) && Enabled(s, e) && ContOf(s, t) == InCondWait(User(c))
    requires ContOf(Next(s, e).0, t) == InCondWait(User(c))
    ensures t != s.current
  {
    hide Inv, Enabled, Next;
    if t == s.current {
      GoesOn(s, e, t, c);
    }
  }

  lemma FirstRelease(states: seq<State>, events: seq<Event>, k: nat, t: Tid, c: nat)
    requires k < |events| && |states| == |events| + 1 && Released(states, k, k + 1, t, c)
    requires Inv(states[k]) && Enabled(states[k], events[k]) && states[k + 1] == Next(states[k], events[k]).0
    requires Unflagged(states[k], t)
    ensures var th := Th(states[k + 1], t);
            && Releases(events[k], t, c) && Active(th)
            && (th.timedout <==> events[k].Idle?)
            && (th.interrupt <==> InterruptedIn(events, k, k + 1, t))
  {
    hide Inv, Next, Enabled, Active, Releases;
    WaitEnds(states[k], events[k], t, c);
  }

  lemma InterruptedStep(events: seq<Event>, k: nat, n: nat, t: Tid)
    requires k < n <= |events|
    ensures InterruptedIn(events, k, n, t) <==> InterruptedIn(events, k, n - 1, t) || events[n - 1] == Do(CInterrupt(t))
  {
  }

  /**
   A wait on a condition variable is released exactly once, by a signal on it, by the clock or by an
   interrupt. When the thread goes on, its call returns 0 exactly if it was a signal and no interrupt is
   pending, ETIME exactly if it was the clock and none is, and EINTR exactly if one is; and the mark of the
   timeout is gone.
   */
  lemma WaitReturns(states: seq<State>, events: seq<Event>, k: nat, n: nat, t: Tid, c: nat)
    requires IsRun(states, events) && k < n < |events| && Released(states, k, n, t, c) && states[n].current == t
    ensures var interrupted := InterruptedIn(events, k, n, t);
            && Releases(events[k], t, c) && events[n] == Resume && !Th(states[n + 1], t).timedout
            && Next(states[n], events[n]).1
               == Some(if interrupted then Err(EINTR) else if events[k].Idle? then Err(ETIME) else Ok(0))
  {
    hide Inv, Next, Enabled;
    RunStep(states, events, n);
    ReleaseNoted(states, events, k, n, t, c);
    assert ContOf(states[n], t) == InCondWait(User(c));
    GoesOn(states[n], events[n], t, c);
  }

  /** The mark of a timeout is never seen outside a wait. */
  lemma TimedoutOnlyInWait(s: State, t: Tid)
    requires Inv(s) && Th(s, t).timedout && !Dead(ContOf(s, t))
    ensures ContOf(s, t).InCondWait? && Active(Th(s, t))
  {
    assert LinkOk(s, Some(s.current), t);
  }
}
