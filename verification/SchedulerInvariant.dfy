/** What every run of the scheduler keeps. */
module SchedulerInvariant {
  import opened Wrappers
  import opened Queues
  import opened Scheduler
  import SQ = SleepQueue
  import IO = IoQueue

  // ----- The invariant -----

  predicate Active(th: Thread) {
    th.state == Running || th.state == Runnable
  }

  /** A thread that is neither running nor runnable is in the state of the place where it waits. */
  predicate Waits(th: Thread) {
    && (th.timedout ==> th.cont.InCondWait? && th.cont.cond.User? && Active(th))
    && match th.cont
       case InProgram => th.state == Running
       case InUsleep => Active(th) || (th.state == Sleeping && th.onSleepq)
       case InCondWait(c) => (Active(th) || th.state == CondWait) && (c.Term? ==> !th.onSleepq)
       case InLock(_) => Active(th) || th.state == LockWait
       case InPoll(_, _, _) => Active(th) || th.state == IoWait
       case InExit => Active(th) || th.state == Zombie
       case _ => Active(th)
  }

  /**
   How a thread's state, flags and place go with the queues its links may be on: it is on the run queue
   exactly when it is runnable and not the idle thread, on the sleep queue exactly when its flag says so, on
   the zombie queue exactly when it is a zombie; so it is on at most one of them.
   */
  predicate Links(th: Thread, onRun: bool, onSleep: bool, onZombie: bool, running: bool, isIdle: bool) {
    && (isIdle <==> th.cont.IdleLoop?)
    && if Dead(th.cont) then th.state == Running && !th.onSleepq && !onRun && !onSleep && !onZombie && !running
       else
         && (running <==> th.state == Running)
         && (onRun <==> th.state == Runnable && !isIdle)
         && (onZombie <==> th.state == Zombie)
         && (onSleep <==> th.onSleepq)
         && (onSleep ==> th.state in {IoWait, CondWait, Sleeping})
         && Waits(th)
  }

  predicate LinkOk(s: State, r: Option<Tid>, t: Tid) {
    Links(Th(s, t), t in s.runq, SQ.Has(s.sleep.sleepers, t), t in s.zombieq, r == Some(t), t == s.idle)
  }

  ghost predicate QueuesOk(s: State) {
    NoDup(s.runq) && NoDup(s.zombieq) && SQ.Valid(s.sleep) && SQ.Once(s.sleep.sleepers)
  }

  /** A wait queue holds exactly the threads that wait there. */
  predicate CondOk(s: State, c: Cond, t: Tid) {
    t in CondQ(s, c) <==> ContOf(s, t) == InCondWait(c)
  }

  ghost predicate CondsOk(s: State) {
    (forall c, t :: CondOk(s, c, t)) && forall c :: NoDup(CondQ(s, c))
  }

  predicate LockQOk(s: State, m: nat, t: Tid) {
    t in LockQ(s, m) <==> ContOf(s, t) == InLock(m)
  }

  /** A thread that waits for a mutex waits for an owner; one that goes on owns it or was interrupted. */
  predicate LockOk(s: State, t: Tid) {
    ContOf(s, t).InLock? ==>
      var owner := Owner(s, ContOf(s, t).mutex);
      if Th(s, t).state == LockWait then owner.Some? else owner == Some(t) || Th(s, t).interrupt
  }

  ghost predicate LocksOk(s: State) {
    && (forall m, t :: LockQOk(s, m, t))
    && (forall m :: NoDup(LockQ(s, m)))
    && (forall t :: LockOk(s, t))
  }

  /** A thread's request is on the I/O queue exactly when the thread's own copy says so. */
  predicate PollOk(s: State, t: Tid) {
    IO.Queued(s.io.queue, t) <==> ContOf(s, t).InPoll? && ContOf(s, t).onIoq
  }

  ghost predicate IoOk(s: State) {
    IO.Injective(s.fds) && IO.Exact(s.fds, s.io) && forall t :: PollOk(s, t)
  }

  /** With r running, or while no thread is. */
  ghost predicate Core(s: State, r: Option<Tid>) {
    && QueuesOk(s) && (forall t :: LinkOk(s, r, t)) && CondsOk(s) && LocksOk(s) && IoOk(s) && !s.fault
  }

  predicate IoWaitOk(s: State, t: Tid) {
    Th(s, t).state == IoWait ==> ContOf(s, t).InPoll? && ContOf(s, t).onIoq
  }

  /** The idle thread runs only when no other thread can. */
  ghost predicate Inv(s: State) {
    && Core(s, Some(s.current))
    && (s.current == s.idle ==> s.runq == [])
    && (forall t :: IoWaitOk(s, t))
  }

  // ----- Frames -----

  function WaitPlace(k: Cont): Cont {
    if k.InCondWait? || k.InLock? then k else InProgram
  }

  /** Nobody but t changes, and t waits where it did. */
  ghost predicate Only(s: State, s': State, t: Tid) {
    forall u :: u != t ==> Th(s', u) == Th(s, u)
  }

  ghost predicate SamePlaces(s: State, s': State) {
    forall t :: WaitPlace(ContOf(s', t)) == WaitPlace(ContOf(s, t))
  }

  lemma CondsFrame(s: State, s': State)
    requires CondsOk(s) && s'.conds == s.conds && SamePlaces(s, s')
    ensures CondsOk(s')
  {
    hide ContOf;
    forall c, t ensures CondOk(s', c, t) {
      assert CondOk(s, c, t);
      assert WaitPlace(ContOf(s', t)) == WaitPlace(ContOf(s, t));
      assert CondQ(s', c) == CondQ(s, c);
    }
    forall c ensures NoDup(CondQ(s', c)) {
      assert CondQ(s', c) == CondQ(s, c);
    }
  }

  lemma LockQsFrame(s: State, s': State)
    requires LocksOk(s) && SamePlaces(s, s') && forall m :: LockQ(s', m) == LockQ(s, m)
    requires forall t :: LockOk(s', t)
    ensures LocksOk(s')
  {
    hide ContOf, LockQ, LockOk;
    forall m, t ensures LockQOk(s', m, t) {
      assert LockQOk(s, m, t);
      assert WaitPlace(ContOf(s', t)) == WaitPlace(ContOf(s, t));
    }
  }

  lemma LocksFrame(s: State, s': State, t: Tid)
    requires LocksOk(s) && SamePlaces(s, s') && s'.mutexes == s.mutexes && Only(s, s', t) && LockOk(s', t)
    ensures LocksOk(s')
  {
    forall u ensures LockOk(s', u) {
      assert LockOk(s, u);
    }
    forall m ensures LockQ(s', m) == LockQ(s, m) {
    }
    LockQsFrame(s, s');
  }

  lemma IoFrame(s: State, s': State)
    requires IoOk(s) && s'.io == s.io && s'.fds == s.fds
    requires forall t :: (ContOf(s', t).InPoll? && ContOf(s', t).onIoq) == (ContOf(s, t).InPoll? && ContOf(s, t).onIoq)
    ensures IoOk(s')
  {
    hide ContOf, IO.Exact, IO.Injective;
    forall t ensures PollOk(s', t) {
      assert PollOk(s, t);
    }
  }

  /** Only the queue membership of t changes. */
  ghost predicate SameQueues(s: State, s': State, t: Tid) {
    && s'.idle == s.idle
    && forall u :: u != t ==>
         && (u in s'.runq <==> u in s.runq) && (u in s'.zombieq <==> u in s.zombieq)
         && (SQ.Has(s'.sleep.sleepers, u) <==> SQ.Has(s.sleep.sleepers, u))
  }

  lemma LinksFrame(s: State, r: Option<Tid>, s': State, r': Option<Tid>, t: Tid)
    requires (forall u :: LinkOk(s, r, u)) && Only(s, s', t) && SameQueues(s, s', t) && LinkOk(s', r', t)
    requires forall u :: u != t ==> (r' == Some(u) <==> r == Some(u))
    ensures forall u :: LinkOk(s', r', u)
  {
    hide Links, Th, SQ.Has;
    forall u ensures LinkOk(s', r', u) {
      assert LinkOk(s, r, u);
    }
  }

  // ----- Waking a thread -----

  predicate IsWaiting(th: Thread) {
    th.state in {IoWait, LockWait, CondWait, Sleeping}
  }

  /** What a wake-up leaves as it was. */
  predicate SameRest(s: State, s': State) {
    && s'.conds == s.conds && s'.mutexes == s.mutexes && s'.io == s.io && s'.fds == s.fds
    && s'.zombieq == s.zombieq && s'.idle == s.idle && s'.current == s.current && s'.lastClock == s.lastClock
  }

  /** The thread is runnable, off the sleep queue and last on the run queue; perhaps it has timed out. */
  ghost predicate Woken(s: State, s': State, t: Tid, timedout: bool) {
    && SameRest(s, s') && Only(s, s', t) && s'.runq == s.runq + [t]
    && Th(s', t) == Th(s, t).(state := Runnable, onSleepq := false, timedout := timedout)
    && s'.fault == s.fault
    && SQ.Valid(s'.sleep) && SQ.Once(s'.sleep.sleepers)
    && forall u :: SQ.Has(s'.sleep.sleepers, u) <==> SQ.Has(s.sleep.sleepers, u) && u != t
  }

  lemma DelSleepQEffect(s: State, t: Tid)
    requires QueuesOk(s) && SQ.Has(s.sleep.sleepers, t) && Th(s, t).onSleepq
    ensures var s' := DelSleepQ(s, t);
            && SameRest(s, s') && Only(s, s', t) && s'.runq == s.runq && s'.fault == s.fault
            && Th(s', t) == Th(s, t).(onSleepq := false)
            && SQ.Valid(s'.sleep) && SQ.Once(s'.sleep.sleepers)
            && forall u :: SQ.Has(s'.sleep.sleepers, u) <==> SQ.Has(s.sleep.sleepers, u) && u != t
  {
    hide SQ.Del, SQ.Valid, SQ.Has, SQ.Once;
    SQ.DelRefines(s.sleep, t, s.lastClock);
    SQ.DelThreads(s.sleep, t);
  }

  lemma MakeRunnableEffect(s: State, t: Tid)
    ensures var s' := MakeRunnable(s, t);
            && SameRest(s, s') && Only(s, s', t) && s'.runq == s.runq + [t] && s'.fault == s.fault
            && s'.sleep == s.sleep && Th(s', t) == Th(s, t).(state := Runnable)
  {
  }

  lemma WakeEffect(s: State, r: Option<Tid>, t: Tid)
    requires QueuesOk(s) && LinkOk(s, r, t) && IsWaiting(Th(s, t))
    ensures Woken(s, Wake(s, t), t, false)
    ensures t !in s.runq
  {
    hide SQ.Del, SQ.Valid, SQ.Has, SQ.Once, DelSleepQ, MakeRunnable;
    if Th(s, t).onSleepq {
      DelSleepQEffect(s, t);
      MakeRunnableEffect(DelSleepQ(s, t), t);
    } else {
      MakeRunnableEffect(s, t);
    }
  }

  lemma WokenLinks(s: State, r: Option<Tid>, s': State, t: Tid, timedout: bool)
    requires QueuesOk(s) && (forall u :: LinkOk(s, r, u)) && IsWaiting(Th(s, t)) && Woken(s, s', t, timedout)
    requires timedout ==> ContOf(s, t).InCondWait? && ContOf(s, t).cond.User?
    ensures QueuesOk(s') && forall u :: LinkOk(s', r, u)
  {
    hide SQ.Valid, SQ.Has, SQ.Once, Th;
    assert LinkOk(s, r, t);
    AppendMembers(s.runq, t);
    LinksFrame(s, r, s', r, t);
  }

  /** Waking a waiting thread keeps the invariant. */
  lemma WokenKeeps(s: State, r: Option<Tid>, s': State, t: Tid, timedout: bool)
    requires Core(s, r) && IsWaiting(Th(s, t)) && Woken(s, s', t, timedout)
    requires timedout ==> ContOf(s, t).InCondWait? && ContOf(s, t).cond.User?
    requires ContOf(s, t).InLock? ==> Owner(s, ContOf(s, t).mutex) == Some(t) || Th(s, t).interrupt
    ensures Core(s', r)
  {
    hide SQ.Valid, SQ.Has, SQ.Once, NoDup, Links, CondsOk, LocksOk, IoOk, QueuesOk;
    WokenLinks(s, r, s', t, timedout);
    assert forall u :: ContOf(s', u) == ContOf(s, u);
    CondsFrame(s, s');
    LocksFrame(s, s', t);
    IoFrame(s, s');
  }

  lemma WakeKeeps(s: State, r: Option<Tid>, t: Tid)
    requires Core(s, r) && IsWaiting(Th(s, t))
    requires ContOf(s, t).InLock? ==> Owner(s, ContOf(s, t).mutex) == Some(t) || Th(s, t).interrupt
    ensures Core(Wake(s, t), r) && Woken(s, Wake(s, t), t, false)
  {
    hide QueuesOk, CondsOk, LocksOk, IoOk, Wake, Woken, Links, Owner, ContOf, Th;
    assert LinkOk(s, r, t);
    WakeEffect(s, r, t);
    WokenKeeps(s, r, Wake(s, t), t, false);
  }

  // ----- Switching -----

  /** The next thread is runnable, as the scheduler asserts, and is the idle thread only if no other is. */
  lemma ScheduleKeeps(s: State)
    requires Core(s, None)
    ensures var s' := Schedule(s);
            && Core(s', Some(s'.current)) && (s'.current == s'.idle ==> s'.runq == [])
            && Only(s, s', s'.current) && Th(s', s'.current) == Th(s, s'.current).(state := Running)
            && Th(s, s'.current).state == Runnable
            && SameRest(s, s'.(current := s.current)) && s'.sleep == s.sleep
            && s'.current == (if s.runq == [] then s.idle else s.runq[0])
            && s'.runq == (if s.runq == [] then [] else s.runq[1..])
  {
    hide SQ.Valid, SQ.Has, SQ.Once, NoDup, Links, CondsOk, LocksOk, IoOk, QueuesOk;
    var s' := Schedule(s);
    ScheduleLinks(s);
    assert forall u :: ContOf(s', u) == ContOf(s, u);
    CondsFrame(s, s');
    assert LockOk(s, s'.current) by {
      LocksAt(s, s'.current);
    }
    LocksFrame(s, s', s'.current);
    IoFrame(s, s');
  }

  lemma LocksAt(s: State, t: Tid)
    requires LocksOk(s)
    ensures LockOk(s, t)
  {
  }

  lemma ScheduleLinks(s: State)
    requires QueuesOk(s) && (forall u :: LinkOk(s, None, u)) && !s.fault
    ensures var s' := Schedule(s);
            && QueuesOk(s') && (forall u :: LinkOk(s', Some(s'.current), u)) && !s'.fault
            && Th(s, s'.current).state == Runnable && (s'.current == s'.idle ==> s'.runq == [])
  {
    hide SQ.Valid, SQ.Has, SQ.Once;
    var s' := Schedule(s);
    var t := s'.current;
    assert LinkOk(s, None, t);
    if s.runq != [] {
      TailMembers(s.runq);
      assert t in s.runq;
    }
    LinksFrame(s, None, s', Some(t), t);
  }
}
