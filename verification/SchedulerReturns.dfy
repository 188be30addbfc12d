/** What a call that waited returns, over whole runs: st_usleep, st_mutex_lock and st_thread_join. */
module SchedulerReturns {
  import opened Wrappers
  import opened Queues
  import opened Scheduler
  import opened SchedulerInvariant
  import opened SchedulerSteps
  import opened SchedulerEffects
  import opened SchedulerFrames
  import opened SchedulerPlaces
  import opened SchedulerCond
  import opened SchedulerMutex
  import opened SchedulerClock
  import opened SchedulerJoin
  import SQ = SleepQueue
  import IO = IoQueue

  // ----- From the wake-up to the processor -----

  /** t waits in state k, is woken by step k, and does not run before state n. */
  ghost predicate WokenAt(states: seq<State>, k: nat, n: nat, t: Tid)
    requires k < n < |states|
  {
    && IsWaiting(Th(states[k], t)) && !IsWaiting(Th(states[k + 1], t))
    && forall j :: k < j < n ==> states[j].current != t
  }

  /** A waiting thread is woken for one of these reasons, and keeps its place, or learns what is ready for it. */
  predicate WokenBy(s: State, e: Event, t: Tid, th: Thread, th': Thread) {
    && th'.interrupt == (th.interrupt || e == Do(CInterrupt(t)))
    && if e.Idle? then Notified(th, th') || (th.onSleepq && th' == TimedOut(th))
       else
         && th'.cont == th.cont
         && (th.state == LockWait ==> e == Do(CInterrupt(t)) || (e.Do? && e.call.CUnlock? && th.cont == InLock(e.call.mutex)))
         && (th.state == Sleeping || th.state == IoWait ==> e == Do(CInterrupt(t)))
  }

  lemma WakeReason(s: State, e: Event, t: Tid, th: Thread, th': Thread)
    requires Change(s, e, t, th, th') && IsWaiting(th) && !IsWaiting(th') && !Dead(th.cont)
    ensures WokenBy(s, e, t, th, th') && th'.state == Runnable
  {
  }

  lemma WakeStep(s: State, e: Event, t: Tid)
    requires Inv(s) && Enabled(s, e) && IsWaiting(Th(s, t)) && !IsWaiting(Th(Next(s, e).0, t))
    ensures WokenBy(s, e, t, Th(s, t), Norm(Th(Next(s, e).0, t))) && Active(Th(Next(s, e).0, t))
    ensures t != s.current && !Dead(ContOf(s, t)) && WaitCont(ContOf(s, t))
  {
    hide Inv, Next, Enabled, Change, WokenBy;
    ResumedThread(s);
    WaitingKnown(s, t);
    StepChange(s, e);
    assert ChangeOk(s, e, Next(s, e).0, t);
    WakeReason(s, e, t, Norm(Th(s, t)), Norm(Th(Next(s, e).0, t)));
  }

  lemma WaitingKnown(s: State, t: Tid)
    requires Inv(s) && IsWaiting(Th(s, t))
    ensures !Dead(ContOf(s, t)) && WaitCont(ContOf(s, t))
    ensures Th(s, t).state == Sleeping <==> ContOf(s, t).InUsleep?
    ensures Th(s, t).state == LockWait <==> ContOf(s, t).InLock?
    ensures Th(s, t).state == IoWait <==> ContOf(s, t).InPoll?
    ensures Th(s, t).state == IoWait ==> ContOf(s, t).onIoq
    ensures Th(s, t).state == Sleeping ==> Th(s, t).onSleepq
    ensures Th(s, t).state == LockWait ==> !Th(s, t).onSleepq
  {
    assert LinkOk(s, Some(s.current), t) && IoWaitOk(s, t);
  }

  lemma AwakeChange(s: State, e: Event, t: Tid, th: Thread, th': Thread)
    requires Change(s, e, t, th, th') && th.state == Runnable && !th.onSleepq && !Dead(th.cont)
    ensures th'.state == Runnable && th'.cont == th.cont
    ensures th'.interrupt == (th.interrupt || e == Do(CInterrupt(t)))
  {
  }

  /** Nothing but an interrupt happens to a thread that is awake and does not run. */
  lemma AwakeStays(s: State, e: Event, t: Tid)
    requires Inv(s) && Enabled(s, e) && Active(Th(s, t)) && !Dead(ContOf(s, t)) && t != s.current
    ensures var th, th' := Th(s, t), Th(Next(s, e).0, t);
            Active(th') && th'.cont == th.cont && th'.interrupt == (th.interrupt || e == Do(CInterrupt(t)))
  {
    hide Inv, Next, Enabled, Change;
    ActiveAwake(s, t);
    StepChange(s, e);
    assert ChangeOk(s, e, Next(s, e).0, t);
    AwakeChange(s, e, t, Norm(Th(s, t)), Norm(Th(Next(s, e).0, t)));
  }

  /** A thread that was woken keeps its place, and an interrupt is pending exactly if there was one. */
  lemma {:induction false} WokenNoted(states: seq<State>, events: seq<Event>, k: nat, n: nat, t: Tid)
    requires IsRun(states, events) && k < n <= |events| && WokenAt(states, k, n, t)
    ensures var th := Th(states[n], t);
            && Active(th) && !Dead(th.cont) && th.cont == ContOf(states[k + 1], t)
            && (th.interrupt <==> InterruptedIn(events, k, n, t))
    ensures WokenBy(states[k], events[k], t, Th(states[k], t), Norm(Th(states[k + 1], t)))
    decreases n
  {
    hide IsRun, Inv, Next, Enabled, Active, WokenBy, Unflagged, InterruptedIn, ContOf;
    RunStep(states, events, k);
    WakeStep(states[k], events[k], t);
    ContIs(states[k], t);
    if n == k + 1 {
      RunUnflagged(states, events, k, t);
      JustWoken(states[k], events[k], t, Th(states[k], t), Th(states[k + 1], t));
      InterruptedStep(events, k, n, t);
      NeverInterrupted(events, k, t);
      ContIs(states[n], t);
    } else {
      RunStep(states, events, n - 1);
      WokenNoted(states, events, k, n - 1, t);
      ContIs(states[n - 1], t);
      AwakeStays(states[n - 1], events[n - 1], t);
      InterruptedStep(events, k, n, t);
    }
  }

  lemma ContIs(s: State, t: Tid)
    ensures ContOf(s, t) == Th(s, t).cont
  {
  }

  lemma NeverInterrupted(events: seq<Event>, k: nat, t: Tid)
    requires k <= |events|
    ensures !InterruptedIn(events, k, k, t)
  {
  }

  lemma JustWoken(s: State, e: Event, t: Tid, th: Thread, th': Thread)
    requires WokenBy(s, e, t, th, Norm(th')) && th == Th(s, t) && Unflagged(s, t) && IsWaiting(th) && !Dead(th.cont)
    ensures th'.interrupt <==> e == Do(CInterrupt(t))
    ensures !Dead(th'.cont)
  {
  }

  // ----- st_usleep -----

  lemma TimerOf(s: State, t: Tid) returns (x: SQ.Timer)
    requires Inv(s) && Asleep(s, t)
    ensures x in Deadlines(s) && x.thread == t
  {
    assert LinkOk(s, Some(s.current), t);
    hide Inv, Links;
    var i := SQ.Index(s.sleep.sleepers, t);
    SQ.TimersThreads(s.sleep.sleepers, s.lastClock);
    x := Deadlines(s)[i];
  }

  /** The clock has come to the deadline of t. */
  ghost predicate DueAt(s: State, t: Tid, now: nat) {
    exists x :: x in Deadlines(s) && x.thread == t && x.deadline <= now
  }

  /** A thread that a round of the idle thread wakes, but not for its I/O, is due. */
  lemma WokenIsDue(s: State, e: Event, t: Tid)
    requires Inv(s) && Enabled(s, e) && e.Idle? && Asleep(s, t) && !Asleep(Next(s, e).0, t)
    requires Asleep(VpIdle(s, e.selected), t)
    ensures DueAt(s, t, e.now)
  {
    hide Inv, Next, Enabled, VpIdle, Asleep, Deadlines;
    var x := TimerOf(s, t);
    StepWakes(s, e, x);
  }

  lemma SleepersStay(s: State, r: Selected, t: Tid)
    requires Inv(s) && s.current == s.idle && Th(s, t).state != IoWait
    ensures Asleep(VpIdle(s, r), t) == Asleep(s, t)
  {
    hide Inv, VpIdle;
    VpIdleEffect(s, r);
    assert LookedOk(s, VpIdle(s, r), t);
  }

  lemma UsleepGoesOn(s: State, e: Event)
    requires Inv(s) && Enabled(s, e) && ContOf(s, s.current).InUsleep?
    ensures e == Resume && Next(s, e).1 == Some(if Th(s, s.current).interrupt then Err(EINTR) else Ok(0))
  {
    ResumedThread(s);
    hide Inv;
  }

  /**
   A sleep is ended once, by the clock at or after its deadline or by an interrupt. When the thread goes on,
   st_usleep returns 0 exactly if no interrupt is pending, and EINTR exactly if one is.
   */
  lemma UsleepReturns(states: seq<State>, events: seq<Event>, k: nat, n: nat, t: Tid)
    requires IsRun(states, events) && k < n < |events| && WokenAt(states, k, n, t) && states[n].current == t
    requires ContOf(states[k], t).InUsleep?
    ensures if events[k].Idle? then DueAt(states[k], t, events[k].now) else events[k] == Do(CInterrupt(t))
    ensures events[n] == Resume
    ensures Next(states[n], events[n]).1 == Some(if InterruptedIn(events, k, n, t) then Err(EINTR) else Ok(0))
  {
    hide IsRun, Inv, Next, Enabled, WokenBy, InterruptedIn, DueAt, Asleep;
    RunStep(states, events, k);
    RunStep(states, events, n);
    WaitingKnown(states[k], t);
    WokenNoted(states, events, k, n, t);
    SleeperWoken(states[k], events[k], t, Th(states[k], t), Th(states[k + 1], t));
    if events[k].Idle? {
      AsleepIs(states[k], t);
      AsleepIs(states[k + 1], t);
      IdleRuns(states[k], events[k]);
      SleepersStay(states[k], events[k].selected, t);
      WokenIsDue(states[k], events[k], t);
    }
    UsleepGoesOn(states[n], events[n]);
  }

  lemma AsleepIs(s: State, t: Tid)
    ensures Asleep(s, t) == Th(s, t).onSleepq
  {
  }

  lemma IdleRuns(s: State, e: Event)
    requires Enabled(s, e) && e.Idle?
    ensures s.current == s.idle && s.lastClock <= e.now
  {
  }

  lemma SleeperWoken(s: State, e: Event, t: Tid, th: Thread, th': Thread)
    requires WokenBy(s, e, t, th, Norm(th')) && th.state == Sleeping
    ensures th'.cont == th.cont
    ensures if e.Idle? then th.onSleepq && !th'.onSleepq else e == Do(CInterrupt(t))
  {
  }

  // ----- st_mutex_lock -----

  /** An unlock gives the mutex to a waiter exactly if it wakes it. */
  lemma UnlockHands(s: State, m: nat, t: Tid)
    requires Calling(s) && t != s.current && ContOf(s, t) == InLock(m)
    ensures var s' := Unlock(s, m).0;
            Owner(s', m) == Some(t)
            <==> Owner(s, m) == Some(t) || (Th(s, t).state == LockWait && Th(s', t).state != LockWait)
  {
    InvLinks(s);
    hide Inv, HandOff, LocksOk;
    if Owner(s, m) == Some(s.current) {
      UnlockedCalling(s, m);
      ReturnSame(HandOff(s, m, LockQ(s, m)), Ok(0));
      HandedOk(s, m);
    } else {
      ReturnSame(s, Err(EPERM));
    }
  }

  /** Only a hand-off makes a waiter the owner, and nothing takes the mutex from it. */
  lemma OwnerStays(s: State, e: Event, t: Tid, m: nat)
    requires Inv(s) && Enabled(s, e) && t != s.current && ContOf(s, t) == InLock(m)
    ensures var s' := Next(s, e).0;
            && ContOf(s', t) == InLock(m)
            && (Owner(s', m) == Some(t)
                <==> Owner(s, m) == Some(t)
                     || (e == Do(CUnlock(m)) && Th(s, t).state == LockWait && Th(s', t).state != LockWait))
  {
    hide Inv, Lock, Trylock, Unlock, LockEnd, Owner, ContOf;
    OthersInLock(s, e, t, m);
    if e == Do(CUnlock(m)) {
      UnlockIsCall(s, m);
      UnlockHands(s, m, t);
    } else if IsLockStep(s, e, m) {
      LockStep(s, e, m);
    } else {
      StepSame(s, e, m);
      OwnerIs(s, Next(s, e).0, m);
    }
  }

  lemma UnlockIsCall(s: State, m: nat)
    requires Inv(s) && Enabled(s, Do(CUnlock(m)))
    ensures Calling(s) && Next(s, Do(CUnlock(m))).0 == Unlock(s, m).0
  {
    hide Inv, Unlock;
  }

  lemma OwnerIs(s: State, s': State, m: nat)
    requires SameMutex(s, s', m)
    ensures Owner(s', m) == Owner(s, m)
  {
  }

  /** A thread in LOCK_WAIT has not been given the mutex. */
  predicate NotYet(s: State, t: Tid, m: nat) {
    ContOf(s, t) == InLock(m) && Th(s, t).state == LockWait ==> Owner(s, m) != Some(t)
  }

  lemma LocksInto(s: State, e: Event, m: nat)
    requires Inv(s) && Enabled(s, e) && ContOf(Next(s, e).0, s.current) == InLock(m)
    ensures e == Do(CLock(m)) && Owner(Next(s, e).0, m) != Some(s.current)
  {
    hide Inv, Lock, Goes, Owner, ContOf;
    MyPlace(s, e);
    WaitsBy(s, e, InLock(m));
    LockStep(s, e, m);
    LockWaits(s, m);
  }

  lemma LockWaits(s: State, m: nat)
    requires Inv(s) && Enabled(s, Do(CLock(m)))
    ensures Next(s, Do(CLock(m))) == Lock(s, m)
  {
    hide Inv, Lock;
  }

  lemma NotYetKept(s: State, e: Event, t: Tid, m: nat)
    requires Inv(s) && Enabled(s, e) && NotYet(s, t, m)
    ensures NotYet(Next(s, e).0, t, m)
  {
    hide Inv, Next, Enabled, Owner, Change;
    var s' := Next(s, e).0;
    if ContOf(s', t) == InLock(m) && Th(s', t).state == LockWait {
      if t == s.current {
        LocksInto(s, e, m);
      } else {
        OthersInLock(s, e, t, m);
        OwnerStays(s, e, t, m);
        StepChange(s, e);
        assert ChangeOk(s, e, s', t);
        StillWaiting(s, e, t, Norm(Th(s, t)), Norm(Th(s', t)));
      }
    }
  }

  lemma StillWaiting(s: State, e: Event, t: Tid, th: Thread, th': Thread)
    requires Change(s, e, t, th, th') && th'.state == LockWait
    ensures th.state == LockWait
  {
  }

  lemma {:induction false} RunNotYet(states: seq<State>, events: seq<Event>, n: nat, t: Tid, m: nat)
    requires IsRun(states, events) && n <= |events|
    ensures NotYet(states[n], t, m)
  {
    hide Inv, Next, Enabled, NotYet;
    if n == 0 {
      NobodyLocks(states, events, t, m);
    } else {
      RunNotYet(states, events, n - 1, t, m);
      RunStep(states, events, n - 1);
      NotYetKept(states[n - 1], events[n - 1], t, m);
    }
  }

  lemma NobodyLocks(states: seq<State>, events: seq<Event>, t: Tid, m: nat)
    requires IsRun(states, events)
    ensures NotYet(states[0], t, m)
  {
  }

  /** From the hand-off until it runs the waiter owns the mutex, and one that was interrupted instead does not. */
  lemma {:induction false} OwnerFrom(states: seq<State>, events: seq<Event>, k: nat, n: nat, t: Tid, m: nat)
    requires IsRun(states, events) && k < n <= |events| && WokenAt(states, k, n, t) && ContOf(states[k], t) == InLock(m)
    ensures ContOf(states[n], t) == InLock(m) && (Owner(states[n], m) == Some(t) <==> events[k] == Do(CUnlock(m)))
    decreases n
  {
    hide IsRun, Inv, Next, Enabled, Owner, ContOf, NotYet;
    RunStep(states, events, k);
    WakeStep(states[k], events[k], t);
    WaitingKnown(states[k], t);
    if n == k + 1 {
      RunNotYet(states, events, k, t, m);
      OwnerStays(states[k], events[k], t, m);
      NotOwner(states[k], t, m);
    } else {
      RunStep(states, events, n - 1);
      OwnerFrom(states, events, k, n - 1, t, m);
      WokenNoted(states, events, k, n - 1, t);
      OwnerStays(states[n - 1], events[n - 1], t, m);
    }
  }

  lemma NotOwner(s: State, t: Tid, m: nat)
    requires NotYet(s, t, m) && ContOf(s, t) == InLock(m) && Th(s, t).state == LockWait
    ensures Owner(s, m) != Some(t)
  {
  }

  lemma LockGoesOn(s: State, e: Event, m: nat)
    requires Inv(s) && Enabled(s, e) && ContOf(s, s.current) == InLock(m)
    ensures e == Resume && Next(s, e) == LockEnd(s, m)
  {
    ResumedThread(s);
    hide Inv, LockEnd;
  }

  /**
   A wait for a mutex is ended once, by an unlock that hands the mutex over or by an interrupt. A thread that was
   handed it keeps it until it goes on, whatever happens in between: st_mutex_lock then returns 0, and an
   interrupt that came since stays pending. One that was interrupted first is not handed it: it gets EINTR.
   */
  lemma LockWaitReturns(states: seq<State>, events: seq<Event>, k: nat, n: nat, t: Tid, m: nat)
    requires IsRun(states, events) && k < n < |events| && WokenAt(states, k, n, t) && states[n].current == t
    requires ContOf(states[k], t) == InLock(m)
    ensures var handed := events[k] == Do(CUnlock(m));
            && (handed || events[k] == Do(CInterrupt(t))) && events[n] == Resume
            && Next(states[n], events[n]).1 == Some(if handed then Ok(0) else Err(EINTR))
            && (Owner(states[n + 1], m) == Some(t) <==> handed)
            && (Th(states[n + 1], t).interrupt <==> handed && InterruptedIn(events, k, n, t))
  {
    hide IsRun, Inv, Next, Enabled, WokenBy, InterruptedIn, Owner;
    RunStep(states, events, k);
    RunStep(states, events, n);
    WaitingKnown(states[k], t);
    WokenNoted(states, events, k, n, t);
    OwnerFrom(states, events, k, n, t, m);
    LockerWoken(states[k], events[k], t, m, Th(states[k], t), Th(states[k + 1], t));
    LockGoesOn(states[n], events[n], m);
    LockReturns(states[n], m);
    LockStep(states[n], Resume, m);
  }

  lemma LockerWoken(s: State, e: Event, t: Tid, m: nat, th: Thread, th': Thread)
    requires WokenBy(s, e, t, th, Norm(th')) && th.state == LockWait && th.cont == InLock(m) && !th.onSleepq
    ensures e == Do(CInterrupt(t)) || e == Do(CUnlock(m))
  {
  }

  // ----- st_thread_join -----

  /** A joiner is woken by the exit of the thread that it waits for, or by an interrupt. */
  lemma JoinerWoken(s: State, e: Event, t: Tid, u: Tid, th: Thread, th': Thread)
    requires Change(s, e, t, th, th') && th.state == CondWait && th.cont == InCondWait(Term(u)) && !th.onSleepq
    requires th'.state != CondWait
    ensures e == Do(CInterrupt(t)) || (e.Do? && e.call.CExit? && s.current == u)
  {
  }

  lemma JoinerWakes(s: State, e: Event, t: Tid, u: Tid)
    requires Inv(s) && Enabled(s, e) && IsWaiting(Th(s, t)) && !IsWaiting(Th(Next(s, e).0, t))
    requires ContOf(s, t) == InCondWait(Term(u))
    ensures e == Do(CInterrupt(t)) || (e.Do? && e.call.CExit? && s.current == u)
    ensures Th(s, t).state == CondWait && t in CondQ(s, Term(u))
  {
    hide Next, Enabled, Change;
    assert LinkOk(s, Some(s.current), t) && CondOk(s, Term(u), t);
    hide Inv;
    ResumedThread(s);
    StepChange(s, e);
    assert ChangeOk(s, e, Next(s, e).0, t);
    JoinerWoken(s, e, t, u, Norm(Th(s, t)), Norm(Th(Next(s, e).0, t)));
  }

  /** u, not finished in state n, was not finished before, so no join of it came too late. */
  lemma {:induction false} FreshBefore(states: seq<State>, events: seq<Event>, n: nat, u: Tid)
    requires IsRun(states, events) && n <= |events| && !Finished(Th(states[n], u))
    ensures forall i :: 0 <= i < n ==> JoinsFresh(states[i], events[i], u)
  {
    hide IsRun, Inv, Next, Enabled, Finished;
    RunLength(states, events);
    forall i | 0 <= i < n ensures JoinsFresh(states[i], events[i], u) {
      if Finished(Th(states[i], u)) {
        StaysFinished(states, events, i, n, u);
      }
    }
  }

  /** Who takes a step is not finished before, unless it has come to its exit. */
  lemma ExitingNow(s: State, e: Event, u: Tid)
    requires Inv(s) && Enabled(s, e) && e.Do? && e.call.CExit? && s.current == u && Th(s, u).joinable
    ensures !Finished(Th(s, u))
    ensures var th := Th(Next(s, e).0, u);
            th.state == Zombie && th.cont == InExit && th.retval == e.call.retval && !Finished(th)
  {
    hide Inv, Exit;
    ExitPlace(s, e.call.retval);
  }

  /** A joiner in the queue keeps its thread from being joined by another. */
  lemma ZombieStays(s: State, e: Event, t: Tid, u: Tid)
    requires Inv(s) && Enabled(s, e) && TermOk(s, u) && !Finished(Th(s, u)) && ContOf(s, u).InExit?
    requires t != s.current && ContOf(s, t) == InCondWait(Term(u)) && ContOf(Next(s, e).0, t) == InCondWait(Term(u))
    ensures TermOk(Next(s, e).0, u) && !Finished(Th(Next(s, e).0, u))
    ensures ContOf(Next(s, e).0, u).InExit? && Th(Next(s, e).0, u).retval == Th(s, u).retval
  {
    hide Inv, Next, Enabled, TermOk, Finished, CondQ, Change;
    var s' := Next(s, e).0;
    TermKeeps(s, e, u);
    NextKeeps(s, e);
    StillQueued(s', t, u);
    if Finished(Th(s', u)) {
      FinishedEmpty(s, e, u);
    }
    NotRunning(s, u);
    StepChange(s, e);
    assert ChangeOk(s, e, s', u);
    ExitKept(s, e, u, Norm(Th(s, u)), Norm(Th(s', u)));
  }

  lemma StillQueued(s: State, t: Tid, u: Tid)
    requires Inv(s) && ContOf(s, t) == InCondWait(Term(u))
    ensures CondQ(s, Term(u)) != []
  {
    assert CondOk(s, Term(u), t);
  }

  lemma NotRunning(s: State, u: Tid)
    requires Inv(s) && ContOf(s, u).InExit? && !Finished(Th(s, u))
    ensures u != s.current
  {
    ResumedThread(s);
  }

  lemma ExitKept(s: State, e: Event, u: Tid, th: Thread, th': Thread)
    requires Change(s, e, u, th, th') && th.cont.InExit?
    ensures th'.retval == th.retval && th'.cont == th.cont
  {
  }

  lemma {:induction false} ZombieKept(states: seq<State>, events: seq<Event>, k: nat, n: nat, t: Tid, u: Tid)
    requires IsRun(states, events) && k < n <= |events| && WokenAt(states, k, n, t)
    requires ContOf(states[k], t) == InCondWait(Term(u)) && events[k].Do? && events[k].call.CExit? && states[k].current == u
    ensures TermOk(states[n], u) && !Finished(Th(states[n], u)) && ContOf(states[n], u).InExit?
    ensures Th(states[n], u).retval == events[k].call.retval && ContOf(states[n], t) == InCondWait(Term(u))
    decreases n
  {
    hide IsRun, Inv, Next, Enabled, TermOk, Finished, ContOf;
    RunStep(states, events, k);
    if n == k + 1 {
      ExitsNow(states, events, k, t, u);
      WokenNoted(states, events, k, n, t);
      PlaceKept(states, events, k, t);
      ContIs(states[n], t);
    } else {
      RunStep(states, events, n - 1);
      ZombieKept(states, events, k, n - 1, t, u);
      WokenNoted(states, events, k, n, t);
      WokenNoted(states, events, k, n - 1, t);
      ContIs(states[n], t);
      ContIs(states[n - 1], t);
      ZombieStays(states[n - 1], events[n - 1], t, u);
    }
  }

  lemma PlaceKept(states: seq<State>, events: seq<Event>, k: nat, t: Tid)
    requires IsRun(states, events) && k < |events| && WokenAt(states, k, k + 1, t) && ContOf(states[k], t).InCondWait?
    ensures ContOf(states[k + 1], t) == ContOf(states[k], t)
  {
    hide IsRun, Inv, Next, Enabled, WokenBy;
    RunStep(states, events, k);
    WakeStep(states[k], events[k], t);
    SamePlaceWoken(states[k], events[k], t, Th(states[k], t), Th(states[k + 1], t));
  }

  lemma SamePlaceWoken(s: State, e: Event, t: Tid, th: Thread, th': Thread)
    requires WokenBy(s, e, t, th, Norm(th')) && th.cont.InCondWait?
    ensures th'.cont == th.cont
  {
  }

  /** The state in which u has just exited. */
  lemma ExitsNow(states: seq<State>, events: seq<Event>, k: nat, t: Tid, u: Tid)
    requires IsRun(states, events) && k < |events| && WokenAt(states, k, k + 1, t)
    requires ContOf(states[k], t) == InCondWait(Term(u)) && events[k].Do? && events[k].call.CExit? && states[k].current == u
    ensures TermOk(states[k + 1], u) && !Finished(Th(states[k + 1], u)) && ContOf(states[k + 1], u).InExit?
    ensures Th(states[k + 1], u).retval == events[k].call.retval
  {
    hide IsRun, Inv, Next, Enabled, TermOk, CondQ, Finished;
    RunStep(states, events, k);
    CallingUnfinished(states[k], events[k]);
    FreshBefore(states, events, k, u);
    RunTerm(states, events, k, u);
    StillQueued(states[k], t, u);
    TermEmpty(states[k], u);
    ExitingNow(states[k], events[k], u);
    TermKeeps(states[k], events[k], u);
  }

  lemma CallingUnfinished(s: State, e: Event)
    requires Enabled(s, e) && e.Do?
    ensures !Finished(Th(s, s.current))
  {
  }

  lemma JoinGoesOn(s: State, e: Event, u: Tid)
    requires Inv(s) && Enabled(s, e) && ContOf(s, s.current) == InCondWait(Term(u))
    ensures e == Resume
    ensures Th(s, s.current).interrupt ==> Next(s, e).1 == Some(Err(EINTR))
    ensures !Th(s, s.current).interrupt && Th(s, u).state == Zombie ==> Next(s, e).1 == Some(Ok(Th(s, u).retval))
  {
    ResumedThread(s);
    hide Inv, CondLeave, Joined;
    CondLeaveKeeps(s, Term(u));
    CondLeaveOnly(s, Term(u));
    ReturnSame(CondLeave(s, Term(u)), Err(EINTR));
    NoTimeout(s, Term(u));
    if Th(s, u).state == Zombie {
      JoinedZombie(s, u);
    }
  }

  lemma NoTimeout(s: State, c: Cond)
    requires Inv(s) && ContOf(s, s.current) == InCondWait(c) && c.Term?
    ensures !Th(s, s.current).timedout
  {
    assert LinkOk(s, Some(s.current), s.current);
  }

  lemma JoinedZombie(s: State, u: Tid)
    requires Inv(s) && ContOf(s, s.current) == InCondWait(Term(u)) && Th(s, u).state == Zombie
    ensures var s1 := CondLeave(s, Term(u));
            Th(s1, u).state == Zombie && Joined(s1, u).1 == Some(Ok(Th(s, u).retval))
  {
    hide Inv, CondLeave;
    ResumedThread(s);
    CondLeaveKeeps(s, Term(u));
    CondLeaveOnly(s, Term(u));
    JoinedFinishes(CondLeave(s, Term(u)), u);
  }

  /**
   A wait for another thread is ended once, by its exit or by an interrupt. When the joiner goes on, st_thread_join
   fails with EINTR exactly if an interrupt came at or after that; otherwise it returns the value of that exit.
   */
  lemma JoinReturns(states: seq<State>, events: seq<Event>, k: nat, n: nat, t: Tid, u: Tid)
    requires IsRun(states, events) && k < n < |events| && WokenAt(states, k, n, t) && states[n].current == t
    requires ContOf(states[k], t) == InCondWait(Term(u))
    ensures events[n] == Resume
    ensures if InterruptedIn(events, k, n, t) then Next(states[n], events[n]).1 == Some(Err(EINTR))
            else && events[k].Do? && events[k].call.CExit? && states[k].current == u
                 && Next(states[n], events[n]).1 == Some(Ok(events[k].call.retval))
  {
    hide IsRun, Inv, Next, Enabled, TermOk, Finished, InterruptedIn, WokenBy, CondQ;
    RunStep(states, events, k);
    RunStep(states, events, n);
    JoinerWakes(states[k], events[k], t, u);
    PlaceKept(states, events, k, t);
    WokenNoted(states, events, k, n, t);
    JoinGoesOn(states[n], events[n], u);
    if events[k] == Do(CInterrupt(t)) {
      InterruptedFirst(events, k, n, t);
    } else {
      ZombieKept(states, events, k, n, t, u);
      ZombieFound(states[n], t, u);
    }
  }

  lemma InterruptedFirst(events: seq<Event>, k: nat, n: nat, t: Tid)
    requires k < n <= |events| && events[k] == Do(CInterrupt(t))
    ensures InterruptedIn(events, k, n, t)
  {
  }

  lemma ZombieFound(s: State, t: Tid, u: Tid)
    requires Inv(s) && TermOk(s, u) && ContOf(s, t) == InCondWait(Term(u)) && Active(Th(s, t))
    ensures !Th(s, t).interrupt ==> Th(s, u).state == Zombie
  {
    assert CondOk(s, Term(u), t);
  }
}
