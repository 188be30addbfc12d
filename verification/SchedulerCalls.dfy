/** What each call of the library does and returns, by the state in which it is made. */
module SchedulerCalls {
  import opened Wrappers
  import opened Queues
  import opened Scheduler
  import opened SchedulerInvariant
  import opened SchedulerSteps
  import opened SchedulerEffects
  import SQ = SleepQueue
  import IO = IoQueue

  // ----- Staying and switching -----

  /** Only the current thread has changed, to th. */
  ghost predicate Stays(s: State, s': State, th: Thread) {
    && Only(s, s', s.current) && Th(s', s.current) == th
    && s'.current == s.current && s'.idle == s.idle && s'.runq == s.runq && s'.zombieq == s.zombieq
    && s'.sleep == s.sleep && s'.lastClock == s.lastClock && s'.fds == s.fds && s'.fault == s.fault
  }

  /** The current thread has become th, and the first runnable thread runs, or the idle thread if there is none. */
  ghost predicate Switches(s: State, s': State, th: Thread) {
    var me, t := s.current, if s.runq == [] then s.idle else s.runq[0];
    && t != me && s'.current == t && s'.runq == (if s.runq == [] then [] else s.runq[1..])
    && Th(s', me) == th && Th(s', t) == Th(s, t).(state := Running)
    && (forall u :: u != me && u != t ==> Th(s', u) == Th(s, u))
    && s'.idle == s.idle && s'.lastClock == s.lastClock && s'.fds == s.fds
  }

  /** Nothing but wait queues, mutexes and I/O, of which one is named by its place. */
  predicate SameShared(s: State, s': State) {
    s'.conds == s.conds && s'.mutexes == s.mutexes && s'.io == s.io
  }

  lemma SwitchIs(s: State, s2: State, th: Thread)
    requires Only(s, s2, s.current) && Th(s2, s.current) == th
    requires s2.runq == s.runq && s2.idle == s.idle && s2.lastClock == s.lastClock && s2.fds == s.fds
    requires s.current !in s.runq && s.current != s.idle
    ensures Switches(s, Schedule(s2), th)
    ensures SameShared(s2, Schedule(s2)) && Schedule(s2).zombieq == s2.zombieq && Schedule(s2).sleep == s2.sleep
  {
  }

  /** A call that waits, from where it sets its timer: s1 has everything but the timer. */
  lemma WaitIs(s: State, s1: State, timeout: Option<nat>, th: Thread)
    requires Calling(s) && Fits(timeout)
    requires Only(s, s1, s.current) && s1.current == s.current && s.current in s1.threads
    requires s1.runq == s.runq && s1.idle == s.idle && s1.lastClock == s.lastClock && s1.fds == s.fds
    requires s1.sleep == s.sleep && s1.zombieq == s.zombieq && !Th(s1, s.current).onSleepq
    requires th == Th(s1, s.current).(onSleepq := timeout.Some?)
    ensures var s' := Schedule(Timed(s1, s.current, timeout));
            Switches(s, s', th) && SameShared(s1, s') && s'.zombieq == s.zombieq
            && (timeout.None? ==> s'.sleep == s.sleep)
  {
    hide Inv, Timed, Schedule, SQ.Has, SQ.Valid, SQ.Once;
    CallingThread(s);
    CallingQueues(s, s1);
    TimedEffect(s1, s.current, timeout);
    var s2 := Timed(s1, s.current, timeout);
    NoTimer(s1, s.current);
    OnlyTwice(s, s1, s2, s.current);
    SwitchIs(s, s2, th);
  }

  lemma CallingQueues(s: State, s1: State)
    requires Calling(s) && s1.runq == s.runq && s1.zombieq == s.zombieq && s1.sleep == s.sleep
    ensures QueuesOk(s1)
  {
  }

  lemma NoTimer(s: State, t: Tid)
    ensures Timed(s, t, None) == s
  {
  }

  // ----- The start of a call that may wait -----

  /** The call fails because of an interrupt, which it takes. */
  ghost predicate FailsByInterrupt(s: State, s': State, r: Option<Result>) {
    && r == Some(Err(EINTR))
    && Stays(s, s', Th(s, s.current).(interrupt := false)) && SameShared(s, s')
  }

  lemma TakesInterrupt(s: State)
    requires Calling(s)
    ensures var (s', r) := Return(TakeInterrupt(s), Err(EINTR)); FailsByInterrupt(s, s', r)
  {
    hide *;
    CallingThread(s);
    InTheProgram(s);
    Unflags(s);
  }

  lemma InTheProgram(s: State)
    requires Calling(s)
    ensures ContOf(s, s.current).InProgram?
  {
  }

  lemma Unflags(s: State)
    requires s.current in s.threads && ContOf(s, s.current).InProgram?
    ensures var (s', r) := Return(TakeInterrupt(s), Err(EINTR)); FailsByInterrupt(s, s', r)
  {
  }

  /** st_usleep fails exactly if an interrupt is pending; otherwise it sleeps. */
  lemma UsleepCall(s: State, usecs: nat)
    requires Inv(s) && Enabled(s, Do(CUsleep(usecs)))
    ensures var (s', r) := Next(s, Do(CUsleep(usecs)));
            var th := Th(s, s.current);
            if th.interrupt then FailsByInterrupt(s, s', r)
            else r == None && Switches(s, s', th.(state := Sleeping, cont := InUsleep, onSleepq := true))
                 && SameShared(s, s') && s'.zombieq == s.zombieq
  {
    hide Inv, Schedule, Timed, Return, Switches, FailsByInterrupt;
    CallingThread(s);
    if Th(s, s.current).interrupt {
      TakesInterrupt(s);
    } else {
      WaitIs(s, Block(s, Sleeping, InUsleep), Some(usecs), Th(s, s.current).(state := Sleeping, cont := InUsleep, onSleepq := true));
    }
  }

  /** st_cond_timedwait fails exactly if an interrupt is pending; otherwise it waits, last on the queue. */
  lemma CondWaitCall(s: State, c: nat, timeout: Option<nat>)
    requires Inv(s) && Enabled(s, Do(CCondWait(c, timeout)))
    ensures var (s', r) := Next(s, Do(CCondWait(c, timeout)));
            var th := Th(s, s.current);
            if th.interrupt then FailsByInterrupt(s, s', r)
            else
              && r == None
              && Switches(s, s', th.(state := CondWait, cont := InCondWait(User(c)), onSleepq := timeout.Some?))
              && s'.conds == s.conds[User(c) := CondQ(s, User(c)) + [s.current]]
              && s'.mutexes == s.mutexes && s'.io == s.io && s'.zombieq == s.zombieq
              && (timeout.None? ==> s'.sleep == s.sleep)
  {
    hide Inv, Schedule, Timed, Return, Switches, FailsByInterrupt, CondQ;
    CallingThread(s);
    if Th(s, s.current).interrupt {
      TakesInterrupt(s);
    } else {
      WaitIs(s, Block(s, CondWait, InCondWait(User(c))).(conds := s.conds[User(c) := CondQ(s, User(c)) + [s.current]]),
             timeout, Th(s, s.current).(state := CondWait, cont := InCondWait(User(c)), onSleepq := timeout.Some?));
    }
  }

  lemma Registers(s: State, pds: seq<IO.PollFd>)
    requires Calling(s) && IO.Legal(s.fds, pds)
    ensures var io := IO.Register(s.fds, s.io, IO.Request(s.current, pds));
            && io.queue == s.io.queue + [IO.Request(s.current, pds)] && IO.Counts(s.fds, io)
            && forall fd, e :: IO.Count(io.interest.counts, IO.Key(fd, e))
                               == IO.Count(s.io.interest.counts, IO.Key(fd, e)) + IO.AskedIn(pds, fd, e)
  {
    hide *;
    CallingThread(s);
    CallingIo(s);
    IO.RegisterKeeps(s.fds, s.io, IO.Request(s.current, pds));
  }

  lemma CallingIo(s: State)
    requires Calling(s)
    ensures IO.Injective(s.fds) && IO.Exact(s.fds, s.io)
  {
  }

  /** _st_poll fails exactly if an interrupt is pending; otherwise it waits, its request last on the I/O queue. */
  lemma PollCall(s: State, pds: seq<IO.PollFd>, timeout: Option<nat>)
    requires Inv(s) && Enabled(s, Do(CPoll(pds, timeout)))
    ensures IO.Legal(s.fds, pds)
    ensures var (s', r) := Next(s, Do(CPoll(pds, timeout)));
            var th := Th(s, s.current);
            if th.interrupt then FailsByInterrupt(s, s', r)
            else
              && r == None
              && Switches(s, s', th.(state := IoWait, cont := InPoll(pds, true, []), onSleepq := timeout.Some?))
              && s'.io.queue == s.io.queue + [IO.Request(s.current, pds)] && IO.Counts(s.fds, s'.io)
              && (forall fd, e :: IO.Count(s'.io.interest.counts, IO.Key(fd, e))
                                  == IO.Count(s.io.interest.counts, IO.Key(fd, e)) + IO.AskedIn(pds, fd, e))
              && s'.conds == s.conds && s'.mutexes == s.mutexes && s'.zombieq == s.zombieq
              && (timeout.None? ==> s'.sleep == s.sleep)
  {
    hide Inv, Schedule, Timed, Return, Switches, FailsByInterrupt, IO.Register, IO.Legal, IO.Counts, IO.AskedIn, IO.Count;
    CallingThread(s);
    Registers(s, pds);
    if Th(s, s.current).interrupt {
      TakesInterrupt(s);
    } else {
      WaitIs(s, Block(s, IoWait, InPoll(pds, true, [])).(io := IO.Register(s.fds, s.io, IO.Request(s.current, pds))),
             timeout, Th(s, s.current).(state := IoWait, cont := InPoll(pds, true, []), onSleepq := timeout.Some?));
    }
  }

  // ----- Mutexes -----

  /** Of mutex m the owner is o and the queue is q; other mutexes are as they were. */
  ghost predicate MutexBecomes(s: State, s': State, m: nat, o: Option<Tid>, q: seq<Tid>) {
    Owner(s', m) == o && LockQ(s', m) == q && forall n :: n != m ==> MutexOf(s', n) == MutexOf(s, n)
  }

  /**
   st_mutex_lock fails with EINTR exactly if an interrupt is pending. Otherwise it takes a mutex without an owner
   and returns 0, fails with EDEADLK if the caller is the owner, and waits, last on the queue, if another thread is.
   */
  lemma LockCall(s: State, m: nat)
    requires Inv(s) && Enabled(s, Do(CLock(m)))
    ensures var (s', r) := Next(s, Do(CLock(m)));
            var me, th := s.current, Th(s, s.current);
            if th.interrupt then FailsByInterrupt(s, s', r)
            else
              && s'.conds == s.conds && s'.io == s.io
              && match Owner(s, m)
                 case None => r == Some(Ok(0)) && Stays(s, s', th) && MutexBecomes(s, s', m, Some(me), LockQ(s, m))
                 case Some(o) =>
                   if o == me then r == Some(Err(EDEADLK)) && s' == s
                   else
                     && r == None && Switches(s, s', th.(state := LockWait, cont := InLock(m)))
                     && MutexBecomes(s, s', m, Some(o), LockQ(s, m) + [me])
                     && s'.sleep == s.sleep && s'.zombieq == s.zombieq
  {
    hide Inv, Schedule, Switches, FailsByInterrupt, Stays;
    CallingThread(s);
    if Th(s, s.current).interrupt {
      TakesInterrupt(s);
    } else if Owner(s, m) == None {
      OwnsNow(s, m);
    } else if Owner(s, m) == Some(s.current) {
      ReturnSame(s, Err(EDEADLK));
    } else {
      var s1 := PutMutex(Block(s, LockWait, InLock(m)), m, MutexOf(s, m).(waitq := LockQ(s, m) + [s.current]));
      SwitchIs(s, s1, Th(s, s.current).(state := LockWait, cont := InLock(m)));
    }
  }

  lemma OwnsNow(s: State, m: nat)
    requires Calling(s) && Owner(s, m) == None
    ensures var (s', r) := Return(PutMutex(s, m, MutexOf(s, m).(owner := Some(s.current))), Ok(0));
            && r == Some(Ok(0)) && Stays(s, s', Th(s, s.current))
            && MutexBecomes(s, s', m, Some(s.current), LockQ(s, m)) && s'.conds == s.conds && s'.io == s.io
  {
    hide Inv, Return;
    OwnKeeps(s, m);
  }

  /** st_mutex_trylock takes the mutex exactly if it has no owner, and fails with EBUSY otherwise. */
  lemma TrylockCall(s: State, m: nat)
    requires Inv(s) && Enabled(s, Do(CTrylock(m)))
    ensures var (s', r) := Next(s, Do(CTrylock(m)));
            if Owner(s, m) == None then
              && r == Some(Ok(0)) && Stays(s, s', Th(s, s.current))
              && MutexBecomes(s, s', m, Some(s.current), LockQ(s, m)) && s'.conds == s.conds && s'.io == s.io
            else r == Some(Err(EBUSY)) && s' == s
  {
    hide Inv, Stays, MutexBecomes;
    if Owner(s, m) == None {
      OwnsNow(s, m);
    } else {
      ReturnSame(s, Err(EBUSY));
    }
  }

  /** The first thread of q in LOCK_WAIT, or none. */
  ghost predicate FirstLocker(s: State, q: seq<Tid>, o: Option<Tid>) {
    if o == None then forall i :: 0 <= i < |q| ==> Th(s, q[i]).state != LockWait
    else exists i :: 0 <= i < |q| && q[i] == o.value && Th(s, q[i]).state == LockWait
                     && forall j :: 0 <= j < i ==> Th(s, q[j]).state != LockWait
  }

  /**
   st_mutex_unlock fails with EPERM exactly if the caller is not the owner; otherwise the first waiter owns the
   mutex and is runnable, or nobody owns it.
   */
  lemma UnlockCall(s: State, m: nat)
    requires Inv(s) && Enabled(s, Do(CUnlock(m)))
    ensures var (s', r) := Next(s, Do(CUnlock(m)));
            if Owner(s, m) != Some(s.current) then r == Some(Err(EPERM)) && s' == s
            else
              var o := Owner(s', m);
              && r == Some(Ok(0)) && FirstLocker(s, LockQ(s, m), o) && MutexBecomes(s, s', m, o, LockQ(s, m))
              && s'.current == s.current && s'.conds == s.conds && s'.io == s.io && s'.sleep == s.sleep
              && if o == None then s'.threads == s.threads && s'.runq == s.runq
                 else Only(s, s', o.value) && Th(s', o.value) == Th(s, o.value).(state := Runnable)
                      && s'.runq == s.runq + [o.value]
  {
    hide Inv, HandOff, FirstLocker, MutexBecomes;
    if Owner(s, m) != Some(s.current) {
      ReturnSame(s, Err(EPERM));
    } else {
      UnlockedCalling(s, m);
      ReturnSame(HandOff(s, m, LockQ(s, m)), Ok(0));
      Handed(s, m);
      HandOffRest(s, m, LockQ(s, m));
    }
  }

  lemma Handed(s: State, m: nat)
    ensures var s' := HandOff(s, m, LockQ(s, m));
            var o := Owner(s', m);
            && FirstLocker(s, LockQ(s, m), o) && MutexBecomes(s, s', m, o, LockQ(s, m)) && s'.conds == s.conds
            && if o == None then s'.threads == s.threads
               else Only(s, s', o.value) && Th(s', o.value) == Th(s, o.value).(state := Runnable)
  {
    hide HandOff, LockQ;
    var q, s' := LockQ(s, m), HandOff(s, m, LockQ(s, m));
    HandOffEffect(s, m, q);
    if Owner(s', m).Some? {
      var i :| 0 <= i < |q| && Owner(s', m) == Some(q[i]) && Th(s, q[i]).state == LockWait
               && (forall j :: 0 <= j < i ==> Th(s, q[j]).state != LockWait)
               && Only(s, s', q[i]) && Th(s', q[i]) == Th(s, q[i]).(state := Runnable);
      assert q[i] == Owner(s', m).value;
    }
  }

  lemma {:induction false} HandOffRest(s: State, m: nat, q: seq<Tid>)
    ensures var s' := HandOff(s, m, q);
            && s'.current == s.current && s'.io == s.io && s'.sleep == s.sleep
            && s'.runq == if Owner(s', m).Some? then s.runq + [Owner(s', m).value] else s.runq
    decreases q
  {
    if q != [] && Th(s, q[0]).state != LockWait {
      HandOffRest(s, m, q[1..]);
    }
  }

  // ----- Condition variables and other threads -----

  /** The threads of q in COND_WAIT, in their order. */
  function StillWaiting(s: State, q: seq<Tid>): seq<Tid> {
    if q == [] then [] else (if Th(s, q[0]).state == CondWait then [q[0]] else []) + StillWaiting(s, q[1..])
  }

  /** The threads in `woken` have been released by a signal, and are runnable in that order. */
  ghost predicate Releases(s: State, s': State, woken: seq<Tid>) {
    && s'.runq == s.runq + woken
    && (forall t :: Th(s', t) == if t in woken then Th(s, t).(state := Runnable, onSleepq := false) else Th(s, t))
    && (forall t :: SQ.Has(s'.sleep.sleepers, t) <==> SQ.Has(s.sleep.sleepers, t) && t !in woken)
    && SameRest(s, s')
  }

  lemma ReleasesNone(s: State)
    ensures Releases(s, s, [])
  {
  }

  lemma ReleasesMore(s: State, s1: State, s2: State, t: Tid, woken: seq<Tid>)
    requires Woken(s, s1, t, false) && Releases(s1, s2, woken) && !Th(s, t).timedout
    ensures Releases(s, s2, [t] + woken)
  {
    hide SQ.Has, SQ.Valid, SQ.Once;
    assert (s.runq + [t]) + woken == s.runq + ([t] + woken);
  }

  lemma {:induction false} SignalReleases(s: State, r: Option<Tid>, q: seq<Tid>, broadcast: bool)
    requires Core(s, r) && NoDup(q)
    ensures var waiting := StillWaiting(s, q);
            Releases(s, Signal(s, q, broadcast), if broadcast || waiting == [] then waiting else waiting[..1])
    decreases q
  {
    hide Core, Wake, Releases, Woken;
    ReleasesNone(s);
    if q != [] {
      TailMembers(q);
      assert [] + StillWaiting(s, q[1..]) == StillWaiting(s, q[1..]);
      if Th(s, q[0]).state == CondWait {
        CondWaitPlace(s, r, q[0]);
        TimedoutActive(s, r, q[0]);
        WakeKeeps(s, r, q[0]);
        var s1, rest := Wake(s, q[0]), StillWaiting(s, q[1..]);
        OthersStillWait(s, s1, q[0], q[1..]);
        if broadcast {
          SignalReleases(s1, r, q[1..], true);
          ReleasesMore(s, s1, Signal(s1, q[1..], true), q[0], rest);
        } else {
          ReleasesNone(s1);
          ReleasesMore(s, s1, s1, q[0], []);
          assert ([q[0]] + rest)[..1] == [q[0]] + [];
        }
      } else {
        SignalReleases(s, r, q[1..], broadcast);
      }
    }
  }

  lemma {:induction false} OthersStillWait(s: State, s1: State, t: Tid, q: seq<Tid>)
    requires Woken(s, s1, t, false) && t !in q
    ensures StillWaiting(s1, q) == StillWaiting(s, q)
  {
    hide Woken;
    WokenOnly(s, s1, t);
    if q != [] {
      OthersStillWait(s, s1, t, q[1..]);
    }
  }

  lemma WokenOnly(s: State, s1: State, t: Tid)
    requires Woken(s, s1, t, false)
    ensures Only(s, s1, t)
  {
  }

  /** A signal releases the first thread that still waits, a broadcast all of them; both return 0. */
  lemma SignalCall(s: State, c: nat, broadcast: bool)
    requires Inv(s) && Enabled(s, Do(CCondSignal(c, broadcast)))
    ensures var (s', r) := Next(s, Do(CCondSignal(c, broadcast)));
            var waiting := StillWaiting(s, CondQ(s, User(c)));
            && r == Some(Ok(0))
            && Releases(s, s', if broadcast || waiting == [] then waiting else waiting[..1])
  {
    hide Inv, Core, Signal, Releases, StillWaiting, NoDup;
    InvCore(s);
    CondNoDup(s, User(c));
    SignalCallKeeps(s, User(c), broadcast);
    SignalReleases(s, Some(s.current), CondQ(s, User(c)), broadcast);
    ReturnSame(CondSignal(s, User(c), broadcast), Ok(0));
  }

  lemma CondNoDup(s: State, c: Cond)
    requires Inv(s)
    ensures NoDup(CondQ(s, c))
  {
    InvLinks(s);
  }

  /**
   st_thread_interrupt leaves a zombie alone, marks any other thread, and makes one that waits runnable, off the
   sleep queue; it leaves the thread in its wait queue.
   */
  lemma InterruptCall(s: State, t: Tid)
    requires Inv(s) && Enabled(s, Do(CInterrupt(t)))
    ensures var (s', r) := Next(s, Do(CInterrupt(t)));
            var th := Th(s, t);
            && r == Some(Ok(0)) && SameRest(s, s') && Only(s, s', t)
            && if th.state == Zombie then s' == s
               else if th.state in {Running, Runnable} then
                 Th(s', t) == th.(interrupt := true) && s'.runq == s.runq && s'.sleep == s.sleep
               else
                 && Th(s', t) == th.(interrupt := true, state := Runnable, onSleepq := false)
                 && s'.runq == s.runq + [t]
                 && forall u :: SQ.Has(s'.sleep.sleepers, u) <==> SQ.Has(s.sleep.sleepers, u) && u != t
  {
    hide Inv, Core, Wake, Flagged, Return, Woken;
    InvCore(s);
    InterruptIsCall(s, Do(CInterrupt(t)));
    InterruptCallKeeps(s, t);
    ReturnSame(Interrupt(s, t), Ok(0));
    InterruptIs(s, t);
    FlagKeeps(s, Some(s.current), t);
    FlagEffect(s, t);
    TimedoutActive(s, Some(s.current), t);
    if IsWaiting(Th(s, t)) {
      WakeKeeps(Flagged(s, t), Some(s.current), t);
      WokenAfterFlag(s, Flagged(s, t), Wake(Flagged(s, t), t), t);
    }
  }

  lemma WokenAfterFlag(s: State, s1: State, s2: State, t: Tid)
    requires SameRest(s, s1) && Only(s, s1, t) && s1.runq == s.runq && s1.sleep == s.sleep
    requires Th(s1, t) == Th(s, t).(interrupt := true) && !Th(s, t).timedout && Woken(s1, s2, t, false)
    ensures SameRest(s, s2) && Only(s, s2, t) && s2.runq == s.runq + [t]
    ensures Th(s2, t) == Th(s, t).(interrupt := true, state := Runnable, onSleepq := false)
    ensures forall u :: SQ.Has(s2.sleep.sleepers, u) <==> SQ.Has(s.sleep.sleepers, u) && u != t
  {
    hide SQ.Has, SQ.Valid, SQ.Once;
  }

  /** A thread that is created is runnable, after all others, and has no flag set. */
  lemma CreateCall(s: State, t: Tid, joinable: bool)
    requires Inv(s) && Enabled(s, Do(CCreate(t, joinable)))
    ensures var (s', r) := Next(s, Do(CCreate(t, joinable)));
            && r == Some(Ok(t)) && Only(s, s', t) && s'.runq == s.runq + [t] && SameRest(s, s') && s'.sleep == s.sleep
            && Th(s', t) == Thread(Runnable, Begin, false, false, false, joinable, 0)
  {
    hide Inv;
    CreateKeeps(s, t, joinable);
    ReturnSame(Create(s, t, joinable), Ok(t));
  }

  // ----- Exit and join -----

  /** The signal of an exit, to the first thread that waits for it. */
  function FirstJoiner(s: State): seq<Tid> {
    var waiting := StillWaiting(s, CondQ(s, Term(s.current)));
    if waiting == [] then [] else waiting[..1]
  }

  /**
   A thread that exits keeps its value. If it can be joined it is a zombie, last on that queue, and the thread that
   waits for it is runnable; otherwise it is gone. In either case another thread runs.
   */
  lemma ExitCall(s: State, retval: int) returns (s2: State)
    requires Inv(s) && Enabled(s, Do(CExit(retval)))
    ensures var (s', r) := Next(s, Do(CExit(retval)));
            var th := Th(s, s.current);
            && r == None && s2.current == s.current && Switches(s2, s', Th(s2, s.current)) && SameShared(s, s')
            && s'.zombieq == s2.zombieq && s'.sleep == s2.sleep
            && if th.joinable then
                 && Releases(s.(threads := s.threads[s.current := th.(retval := retval, state := Zombie, cont := InExit)],
                                zombieq := s.zombieq + [s.current]), s2, FirstJoiner(s))
               else s2 == s.(threads := s.threads[s.current := th.(retval := retval, cont := Gone)])
  {
    hide Inv, Core, Schedule, Signal, Switches, Releases, StillWaiting, NoDup, CondQ;
    CallingThread(s);
    ExitIs(s, retval);
    if Th(s, s.current).joinable {
      var s1 := Dying(s, retval);
      DyingKeeps(s, retval);
      s2 := CondSignal(s1, Term(s.current), false);
      CondNoDup(s, Term(s.current));
      DyingQueue(s, retval);
      SignalReleases(s1, None, CondQ(s1, Term(s.current)), false);
      ReleasedRest(s1, s2, FirstJoiner(s));
      NotAJoiner(s);
      SwitchIs(s2, s2, Th(s2, s.current));
    } else {
      s2 := Put(s, s.current, Th(s, s.current).(retval := retval, cont := Gone));
      SwitchIs(s2, s2, Th(s2, s.current));
    }
  }

  lemma ReleasedRest(s: State, s': State, woken: seq<Tid>)
    requires Releases(s, s', woken)
    ensures SameRest(s, s') && s'.runq == s.runq + woken
  {
  }

  lemma NotAJoiner(s: State)
    requires Calling(s)
    ensures s.current !in FirstJoiner(s)
  {
    CallingThread(s);
    hide Inv, CondQ;
    StillInQueue(s, CondQ(s, Term(s.current)));
  }

  lemma {:induction false} StillInQueue(s: State, q: seq<Tid>)
    ensures forall t :: t in StillWaiting(s, q) ==> t in q && Th(s, t).state == CondWait
  {
    if q != [] {
      StillInQueue(s, q[1..]);
    }
  }

  lemma DyingQueue(s: State, retval: int)
    requires Calling(s)
    ensures var s1, c := Dying(s, retval), Term(s.current);
            CondQ(s1, c) == CondQ(s, c) && StillWaiting(s1, CondQ(s1, c)) == StillWaiting(s, CondQ(s, c))
  {
    CallingThread(s);
    hide Inv;
    SameStillWaiting(s, Dying(s, retval), CondQ(s, Term(s.current)));
  }

  lemma {:induction false} SameStillWaiting(s: State, s1: State, q: seq<Tid>)
    requires forall t :: t in q ==> Th(s1, t) == Th(s, t)
    ensures StillWaiting(s1, q) == StillWaiting(s, q)
  {
    if q != [] {
      SameStillWaiting(s, s1, q[1..]);
    }
  }

  /** t is off the zombie queue and runnable again, to clean up. */
  ghost predicate IsJoined(s: State, s': State, t: Tid) {
    && Only(s, s', t) && Th(s', t) == Th(s, t).(state := Runnable)
    && s'.zombieq == Without(s.zombieq, t) && s'.runq == s.runq + [t]
    && s'.current == s.current && s'.conds == s.conds && s'.mutexes == s.mutexes && s'.io == s.io && s'.sleep == s.sleep
  }

  lemma JoinedIs(s: State, t: Tid)
    requires Calling(s) && Th(s, t).state == Zombie
    ensures IsJoined(s, Joined(s, t).0, t) && Joined(s, t).1 == Some(Ok(Th(s, t).retval))
  {
    hide *;
    CallingThread(s);
    InTheProgram(s);
    JoinedParts(s, t);
  }

  lemma JoinedParts(s: State, t: Tid)
    requires s.current in s.threads && ContOf(s, s.current).InProgram? && Th(s, t).state == Zombie
    requires Th(s, s.current).state == Running
    ensures IsJoined(s, Joined(s, t).0, t) && Joined(s, t).1 == Some(Ok(Th(s, t).retval))
  {
    hide Without;
  }

  /** The current thread waits for t to exit, last in its queue. */
  ghost predicate WaitsForExit(s: State, s': State, r: Option<Result>, t: Tid) {
    var th := Th(s, s.current);
    if th.interrupt then FailsByInterrupt(s, s', r)
    else
      && r == None && Switches(s, s', th.(state := CondWait, cont := InCondWait(Term(t))))
      && s'.conds == s.conds[Term(t) := CondQ(s, Term(t)) + [s.current]]
      && s'.mutexes == s.mutexes && s'.io == s.io && s'.zombieq == s.zombieq && s'.sleep == s.sleep
  }

  lemma WaitForExit(s: State, t: Tid)
    requires Calling(s)
    ensures WaitsForExit(s, CondTimedwait(s, Term(t), None).0, CondTimedwait(s, Term(t), None).1, t)
  {
    hide Inv, Schedule, Timed, Return, Switches, FailsByInterrupt, CondQ;
    CallingThread(s);
    if Th(s, s.current).interrupt {
      TakesInterrupt(s);
    } else {
      WaitIs(s, Block(s, CondWait, InCondWait(Term(t))).(conds := s.conds[Term(t) := CondQ(s, Term(t)) + [s.current]]),
             None, Th(s, s.current).(state := CondWait, cont := InCondWait(Term(t))));
    }
  }

  /**
   st_thread_join fails with EINVAL on a thread that cannot be joined or that another thread waits for, with EDEADLK on
   the caller; it returns the value of a zombie, and waits for any other thread.
   */
  lemma JoinCall(s: State, t: Tid)
    requires Inv(s) && Enabled(s, Do(CJoin(t)))
    ensures var (s', r) := Next(s, Do(CJoin(t)));
            if !Th(s, t).joinable then r == Some(Err(EINVAL)) && s' == s
            else if t == s.current then r == Some(Err(EDEADLK)) && s' == s
            else if CondQ(s, Term(t)) != [] then r == Some(Err(EINVAL)) && s' == s
            else if Th(s, t).state == Zombie then r == Some(Ok(Th(s, t).retval)) && IsJoined(s, s', t)
            else WaitsForExit(s, s', r, t)
  {
    hide Inv, Joined, CondTimedwait, Return, IsJoined, WaitsForExit, CondQ;
    ReturnSame(s, Err(EINVAL));
    ReturnSame(s, Err(EDEADLK));
    WaitForExit(s, t);
    if Th(s, t).state == Zombie {
      JoinedIs(s, t);
    }
  }

  // ----- The end of a call that waited -----

  /** A thread begins in the program. */
  lemma BeginResumes(s: State)
    requires Inv(s) && Enabled(s, Resume) && ContOf(s, s.current) == Begin
    ensures var (s', r) := Next(s, Resume);
            r == None && Stays(s, s', Th(s, s.current).(cont := InProgram)) && SameShared(s, s')
  {
    hide Inv;
  }

  /** st_usleep fails exactly if an interrupt is pending, and takes it; otherwise it returns 0. */
  lemma UsleepResumes(s: State)
    requires Inv(s) && Enabled(s, Resume) && ContOf(s, s.current) == InUsleep
    ensures var (s', r) := Next(s, Resume);
            var th := Th(s, s.current);
            && r == Some(if th.interrupt then Err(EINTR) else Ok(0))
            && Stays(s, s', th.(interrupt := false, cont := InProgram)) && SameShared(s, s')
  {
    hide Inv;
  }

  /** The wait is over: the thread leaves the queue and its flags are taken; an interrupt hides a timeout. */
  lemma CondWaitResumes(s: State, c: nat)
    requires Inv(s) && Enabled(s, Resume) && ContOf(s, s.current) == InCondWait(User(c))
    ensures var (s', r) := Next(s, Resume);
            var th, q := Th(s, s.current), CondQ(s, User(c));
            && r == Some(if th.interrupt then Err(EINTR) else if th.timedout then Err(ETIME) else Ok(0))
            && Stays(s, s', th.(interrupt := false, timedout := false, cont := InProgram))
            && s'.conds == s.conds[User(c) := Without(q, s.current)] && s'.mutexes == s.mutexes && s'.io == s.io
  {
    hide Inv, Without;
  }

  /** A thread that was given the mutex returns 0 and keeps its interrupt; another fails and takes it. */
  lemma LockResumes(s: State, m: nat)
    requires Inv(s) && Enabled(s, Resume) && ContOf(s, s.current) == InLock(m)
    ensures var (s', r) := Next(s, Resume);
            var me, th := s.current, Th(s, s.current);
            && MutexBecomes(s, s', m, Owner(s, m), Without(LockQ(s, m), me)) && s'.conds == s.conds && s'.io == s.io
            && if Owner(s, m) == Some(me) then r == Some(Ok(0)) && Stays(s, s', th.(cont := InProgram))
               else r == Some(Err(EINTR)) && Stays(s, s', th.(interrupt := false, cont := InProgram))
  {
    assert LockOk(s, s.current);
    ResumedThread(s);
    hide Inv, Without;
    LockEndParts(s, m);
  }

  lemma LockEndParts(s: State, m: nat)
    requires Interrupted(s) || Owner(s, m) == Some(s.current)
    ensures var (s', r) := LockEnd(s, m);
            var me, th := s.current, Th(s, s.current);
            && MutexBecomes(s, s', m, Owner(s, m), Without(LockQ(s, m), me)) && s'.conds == s.conds && s'.io == s.io
            && if Owner(s, m) == Some(me) then r == Some(Ok(0)) && Stays(s, s', th.(cont := InProgram))
               else r == Some(Err(EINTR)) && Stays(s, s', th.(interrupt := false, cont := InProgram))
  {
    hide Without;
  }

  /** A thread that was joined gives up its termination variable and is gone. */
  lemma ExitResumes(s: State)
    requires Inv(s) && Enabled(s, Resume) && ContOf(s, s.current) == InExit
    ensures var (s', r) := Next(s, Resume);
            && r == None && Switches(s, s', Th(s, s.current).(joinable := false, cont := Gone))
            && SameShared(s, s') && s'.zombieq == s.zombieq && s'.sleep == s.sleep
  {
    ResumedThread(s);
    hide Inv, Schedule, Switches;
    SwitchIs(s, Put(s, s.current, Th(s, s.current).(joinable := false, cont := Gone)),
             Th(s, s.current).(joinable := false, cont := Gone));
  }

  /** A thread that waited for an exit fails if it was interrupted, joins a zombie, and waits again otherwise. */
  lemma JoinResumes(s: State, t: Tid) returns (s1: State)
    requires Inv(s) && Enabled(s, Resume) && ContOf(s, s.current) == InCondWait(Term(t))
    ensures var th := Th(s, s.current);
            && Stays(s, s1, th.(interrupt := false, timedout := false, cont := InProgram))
            && s1.conds == s.conds[Term(t) := Without(CondQ(s, Term(t)), s.current)]
            && s1.mutexes == s.mutexes && s1.io == s.io
    ensures var (s', r) := Next(s, Resume);
            if Th(s, s.current).interrupt then r == Some(Err(EINTR)) && s' == s1
            else if Th(s, t).state == Zombie then r == Some(Ok(Th(s, t).retval)) && IsJoined(s1, s', t)
            else WaitsForExit(s1, s', r, t)
  {
    hide Inv, Joined, CondTimedwait, Return, IsJoined, WaitsForExit, Without, CondQ, CondLeave;
    s1 := CondLeave(s, Term(t));
    ResumedThread(s);
    NoTimeoutInJoin(s, t);
    CondLeaveKeeps(s, Term(t));
    CondLeaveParts(s, Term(t));
    CallingThread(s1);
    ReturnSame(s1, Err(EINTR));
    WaitForExit(s1, t);
    if Th(s1, t).state == Zombie {
      JoinedIs(s1, t);
    }
  }

  lemma CondLeaveParts(s: State, c: Cond)
    ensures var s1 := CondLeave(s, c);
            && Stays(s, s1, Th(s, s.current).(interrupt := false, timedout := false, cont := InProgram))
            && s1.conds == s.conds[c := Without(CondQ(s, c), s.current)] && s1.mutexes == s.mutexes && s1.io == s.io
  {
    hide Without;
  }

  lemma NoTimeoutInJoin(s: State, t: Tid)
    requires Inv(s) && ContOf(s, s.current) == InCondWait(Term(t))
    ensures !Th(s, s.current).timedout
  {
    assert LinkOk(s, Some(s.current), s.current);
  }
}
