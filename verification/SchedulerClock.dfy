/** Timers over whole runs: a thread that sleeps with a deadline, and what ends its sleep. */
module SchedulerClock {
  import opened Wrappers
  import opened Queues
  import opened Scheduler
  import opened SchedulerInvariant
  import opened SchedulerSteps
  import opened SchedulerEffects
  import opened SchedulerTheorems
  import SQ = SleepQueue
  import IO = IoQueue

  /** The deadlines of the threads that sleep. */
  function Deadlines(s: State): seq<SQ.Timer> {
    SQ.Timers(s.sleep.sleepers, s.lastClock)
  }

  predicate Asleep(s: State, t: Tid) {
    Th(s, t).onSleepq
  }

  /** Whoever still sleeps has the deadline it had. */
  ghost predicate Kept(s: State, s': State) {
    forall x :: x in Deadlines(s) && Asleep(s', x.thread) ==> x in Deadlines(s')
  }

  ghost predicate OnlyWakes(s: State, s': State) {
    forall t :: Asleep(s', t) ==> Asleep(s, t)
  }

  predicate SameTimers(s: State, s': State) {
    s'.sleep == s.sleep && s'.lastClock == s.lastClock
  }

  lemma KeptSame(s: State, s': State)
    requires SameTimers(s, s')
    ensures Kept(s, s')
  {
  }

  lemma KeptThen(s: State, s1: State, s2: State)
    requires Kept(s, s1) && Kept(s1, s2) && OnlyWakes(s1, s2)
    ensures Kept(s, s2)
  {
    hide Deadlines, Asleep;
  }

  lemma ThenSame(s: State, s1: State, s2: State)
    requires Kept(s, s1) && SameTimers(s1, s2) && OnlyWakes(s1, s2)
    ensures Kept(s, s2)
  {
    hide Asleep;
    KeptSame(s1, s2);
    KeptThen(s, s1, s2);
  }

  lemma OnlyWakesThen(s: State, s1: State, s2: State)
    requires OnlyWakes(s, s1) && OnlyWakes(s1, s2)
    ensures OnlyWakes(s, s2)
  {
  }

  // ----- Waking -----

  lemma WakeSleep(s: State, t: Tid)
    requires SQ.Valid(s.sleep) && (Asleep(s, t) ==> SQ.Has(s.sleep.sleepers, t))
    ensures Wake(s, t).sleep == if Asleep(s, t) then SQ.Del(s.sleep, t) else s.sleep
    ensures Wake(s, t).lastClock == s.lastClock
  {
    hide SQ.Valid, SQ.Has, SQ.Del;
  }

  lemma WakeTimers(s: State, r: Option<Tid>, t: Tid)
    requires Core(s, r) && IsWaiting(Th(s, t))
    ensures Kept(s, Wake(s, t)) && OnlyWakes(s, Wake(s, t))
  {
    assert LinkOk(s, r, t);
    var s' := Wake(s, t);
    WakeEffect(s, r, t);
    hide Core, Wake, SQ.Valid, SQ.Has, SQ.Once, SQ.Timers, SQ.Remove, SQ.Distinct;
    WakeSleep(s, t);
    if Asleep(s, t) {
      SQ.DelRefines(s.sleep, t, s.lastClock);
      SQ.OnceDistinct(s.sleep.sleepers, s.lastClock);
      SQ.RemoveKeeps(Deadlines(s), t);
    }
  }

  lemma {:induction false} SignalTimers(s: State, r: Option<Tid>, q: seq<Tid>, broadcast: bool)
    requires Core(s, r)
    ensures Kept(s, Signal(s, q, broadcast)) && OnlyWakes(s, Signal(s, q, broadcast))
    decreases q
  {
    hide Core, Wake, Kept, OnlyWakes;
    KeptSame(s, s);
    AwakeSame(s);
    if q != [] {
      if Th(s, q[0]).state == CondWait {
        CondWaitPlace(s, r, q[0]);
        WakeTimers(s, r, q[0]);
        if broadcast {
          WakeKeeps(s, r, q[0]);
          var s1 := Wake(s, q[0]);
          SignalTimers(s1, r, q[1..], true);
          KeptThen(s, s1, Signal(s1, q[1..], true));
          OnlyWakesThen(s, s1, Signal(s1, q[1..], true));
        }
      } else {
        SignalTimers(s, r, q[1..], broadcast);
      }
    }
  }

  lemma AwakeSame(s: State)
    ensures OnlyWakes(s, s)
  {
  }

  lemma {:induction false} WakeAllTimers(s: State, r: Option<Tid>, notified: seq<IO.Request>)
    requires Core(s, r) && IO.OnePerThread(notified)
    requires forall q :: q in notified ==> Th(s, q.thread).state == IoWait
    ensures Kept(s, WakeAll(s, notified)) && OnlyWakes(s, WakeAll(s, notified))
    decreases notified
  {
    hide Core, Wake, Kept, OnlyWakes, IO.OnePerThread;
    KeptSame(s, s);
    AwakeSame(s);
    if notified != [] {
      WakeAllStep(s, r, notified);
      WakeTimers(s, r, notified[0].thread);
      var s1 := Wake(s, notified[0].thread);
      WakeAllTimers(s1, r, notified[1..]);
      KeptThen(s, s1, WakeAll(s1, notified[1..]));
      OnlyWakesThen(s, s1, WakeAll(s1, notified[1..]));
    }
  }

  // ----- Going to sleep -----

  lemma TimedTimers(s: State, t: Tid, timeout: Option<nat>)
    requires SQ.Valid(s.sleep) && Fits(timeout)
    ensures Kept(s, Timed(s, t, timeout))
    ensures timeout.Some? ==> SQ.Timer(t, s.lastClock + timeout.value) in Deadlines(Timed(s, t, timeout))
    ensures timeout.Some? ==> Asleep(Timed(s, t, timeout), t)
  {
    hide SQ.Add, SQ.Valid, SQ.Has, SQ.Once, SQ.Timers, SQ.Insert;
    if timeout.Some? {
      SQ.AddRefines(s.sleep, t, timeout.value, s.lastClock);
      var x := SQ.Timer(t, s.lastClock + timeout.value);
      SQ.InsertKeeps(Deadlines(s), x);
      InsertHas(Deadlines(s), SQ.Insert(Deadlines(s), x), x);
    } else {
      KeptSame(s, s);
    }
  }

  lemma InsertHas(timers: seq<SQ.Timer>, timers': seq<SQ.Timer>, x: SQ.Timer)
    requires multiset(timers') == multiset(timers) + multiset{x}
    ensures x in timers' && forall y :: y in timers ==> y in timers'
  {
    assert x in multiset(timers');
    forall y | y in timers ensures y in timers' {
      assert y in multiset(timers');
    }
  }

  // ----- Every call -----

  lemma ScheduleTimers(s: State)
    ensures SameTimers(s, Schedule(s)) && forall t :: Asleep(Schedule(s), t) == Asleep(s, t)
  {
  }

  lemma Switched(s: State, s1: State)
    requires Kept(s, s1)
    ensures Kept(s, Schedule(s1))
  {
    hide Kept, SameTimers, Schedule, Asleep;
    ScheduleTimers(s1);
    ThenSame(s, s1, Schedule(s1));
  }

  /** A call that waits, perhaps for a limited time: s1 is the state in which the timer is set. */
  lemma WaitTimers(s: State, s1: State, timeout: Option<nat>)
    requires Calling(s) && SameTimers(s, s1) && s1.current == s.current && Fits(timeout)
    ensures Kept(s, Schedule(Timed(s1, s1.current, timeout)))
    ensures var s' := Schedule(Timed(s1, s1.current, timeout));
            timeout.Some? ==>
              SQ.Timer(s.current, s.lastClock + timeout.value) in Deadlines(s') && Asleep(s', s.current)
  {
    hide Inv, Kept, Schedule, Timed, Asleep, SQ.Has, SQ.Valid, SQ.Once, SQ.Timers;
    NotAsleep(s);
    var s2 := Timed(s1, s1.current, timeout);
    TimedTimers(s1, s1.current, timeout);
    SameKept(s, s1, s2);
    Switched(s, s2);
    ScheduleTimers(s2);
  }

  lemma SameKept(s: State, s1: State, s2: State)
    requires SameTimers(s, s1) && Kept(s1, s2)
    ensures Kept(s, s2)
  {
  }

  lemma NotAsleep(s: State)
    requires Calling(s)
    ensures SQ.Valid(s.sleep) && !Asleep(s, s.current)
  {
    assert LinkOk(s, Some(s.current), s.current);
  }

  lemma ReturnTimers(s: State, s1: State, r: Result)
    requires Kept(s, s1)
    ensures Kept(s, Return(s1, r).0)
  {
    hide Kept;
    ReturnedAwake(s1, r);
    ThenSame(s, s1, Return(s1, r).0);
  }

  lemma ReturnedAwake(s: State, r: Result)
    ensures SameTimers(s, Return(s, r).0) && OnlyWakes(s, Return(s, r).0)
  {
  }

  /** How long a call is to wait at most. */
  function Limit(call: Call): Option<nat> {
    match call
    case CUsleep(usecs) => Some(usecs)
    case CCondWait(_, timeout) => timeout
    case CPoll(_, timeout) => timeout
    case _ => None
  }

  predicate MayWait(call: Call) {
    call.CUsleep? || call.CCondWait? || call.CPoll?
  }

  /** Such a call up to where it sets its timer. */
  function Begun(s: State, call: Call): State
    requires MayWait(call) && CallOk(s, call)
  {
    match call
    case CUsleep(_) => Block(s, Sleeping, InUsleep)
    case CCondWait(c, _) =>
      Block(s, CondWait, InCondWait(User(c))).(conds := s.conds[User(c) := CondQ(s, User(c)) + [s.current]])
    case CPoll(pds, _) =>
      Block(s, IoWait, InPoll(pds, true, [])).(io := IO.Register(s.fds, s.io, IO.Request(s.current, pds)))
  }

  lemma WaitIs(s: State, call: Call)
    requires MayWait(call) && CallOk(s, call)
    ensures Perform(s, call) == if Interrupted(s) then Return(TakeInterrupt(s), Err(EINTR))
                                else (Schedule(Timed(Begun(s, call), s.current, Limit(call))), None)
    ensures SameTimers(s, Begun(s, call)) && Begun(s, call).current == s.current && Fits(Limit(call))
  {
    hide Schedule, Timed, IO.Register, IO.Legal;
  }

  /**
   A call with a time limit that does not return at once sets a timer for the last reading of the clock plus
   that limit. No limit of st_usleep means none: -1 is the longest time of the type.
   */
  lemma SetsTimer(s: State, call: Call)
    requires Calling(s) && CallOk(s, call) && Limit(call).Some?
    ensures var (s', r) := Perform(s, call);
            if Interrupted(s) then r == Some(Err(EINTR)) && !Asleep(s', s.current)
            else r == None && Asleep(s', s.current)
                 && SQ.Timer(s.current, s.lastClock + Limit(call).value) in Deadlines(s')
  {
    hide Inv, Perform, Schedule, Timed, CallOk, Begun, SameTimers, Deadlines;
    WaitIs(s, call);
    NotAsleep(s);
    if Interrupted(s) {
      InterruptedAwake(s);
    } else {
      WaitTimers(s, Begun(s, call), Limit(call));
    }
  }

  lemma InterruptedAwake(s: State)
    ensures Asleep(Return(TakeInterrupt(s), Err(EINTR)).0, s.current) == Asleep(s, s.current)
    ensures SameTimers(s, TakeInterrupt(s))
  {
  }

  lemma WaitingTimers(s: State, call: Call)
    requires Calling(s) && CallOk(s, call) && MayWait(call)
    ensures Kept(s, Perform(s, call).0)
  {
    hide Inv, Perform, Schedule, Timed, CallOk, Begun, SameTimers, Kept, TakeInterrupt;
    WaitIs(s, call);
    if Interrupted(s) {
      InterruptedAwake(s);
      KeptSame(s, TakeInterrupt(s));
      ReturnTimers(s, TakeInterrupt(s), Err(EINTR));
    } else {
      WaitTimers(s, Begun(s, call), Limit(call));
    }
  }

  lemma JoinTimers(s: State, t: Tid)
    ensures SameTimers(s, Join(s, t).0)
  {
    hide Without;
  }

  lemma {:induction false} HandOffTimers(s: State, m: nat, q: seq<Tid>)
    ensures SameTimers(s, HandOff(s, m, q))
    decreases q
  {
    if q != [] {
      HandOffTimers(s, m, q[1..]);
    }
  }

  lemma InterruptTimers(s: State, t: Tid)
    requires Calling(s) && !Dead(ContOf(s, t))
    ensures Kept(s, Interrupt(s, t))
  {
    hide Inv, Core, Wake, Kept, Flagged, SameTimers;
    InvCore(s);
    InterruptIs(s, t);
    FlagKeeps(s, Some(s.current), t);
    FlaggedTimers(s, t);
    if IsWaiting(Th(s, t)) {
      WakeTimers(Flagged(s, t), Some(s.current), t);
      SameKept(s, Flagged(s, t), Wake(Flagged(s, t), t));
    } else {
      KeptSame(s, Flagged(s, t));
      KeptSame(s, s);
    }
  }

  lemma FlaggedTimers(s: State, t: Tid)
    ensures SameTimers(s, Flagged(s, t)) && SameTimers(s, s) && IsWaiting(Th(Flagged(s, t), t)) == IsWaiting(Th(s, t))
  {
  }

  lemma ExitTimers(s: State, retval: int)
    requires Calling(s)
    ensures Kept(s, Exit(s, retval))
  {
    hide Inv, Core, Signal, Kept, Schedule, SomeWoken;
    hide Exit;
    ExitIs(s, retval);
    if Th(s, s.current).joinable {
      DyingKeeps(s, retval);
      var s1 := Dying(s, retval);
      SignalTimers(s1, None, CondQ(s1, Term(s.current)), false);
      SameKept(s, s1, CondSignal(s1, Term(s.current), false));
      Switched(s, CondSignal(s1, Term(s.current), false));
    } else {
      var s1 := Put(s, s.current, Th(s, s.current).(retval := retval, cont := Gone));
      KeptSame(s, s1);
      Switched(s, s1);
    }
  }

  lemma CallTimers(s: State, call: Call)
    requires Calling(s) && CallOk(s, call)
    ensures Kept(s, Perform(s, call).0)
  {
    hide Inv, Kept, Usleep, CondTimedwait, CondSignal, HandOff, Poll, Interrupt, Exit, Join, Schedule;
    KeptSame(s, s);
    match call
    case CUsleep(_) => WaitingTimers(s, call);
    case CCondWait(_, _) => WaitingTimers(s, call);
    case CPoll(_, _) => WaitingTimers(s, call);
    case CCondSignal(c, broadcast) =>
      SignalCallTimers(s, User(c), broadcast);
      ReturnTimers(s, CondSignal(s, User(c), broadcast), Ok(0));
    case CLock(m) => LockTimers(s, m);
    case CUnlock(m) => UnlockTimers(s, m);
    case CTrylock(m) => KeptSame(s, Trylock(s, m).0);
    case CInterrupt(t) =>
      InterruptTimers(s, t);
      ReturnTimers(s, Interrupt(s, t), Ok(0));
    case CCreate(t, joinable) => KeptSame(s, Return(Create(s, t, joinable), Ok(t)).0);
    case CExit(retval) => ExitTimers(s, retval);
    case CJoin(t) =>
      JoinTimers(s, t);
      KeptSame(s, Join(s, t).0);
  }

  lemma SignalCallTimers(s: State, c: Cond, broadcast: bool)
    requires Calling(s)
    ensures Kept(s, CondSignal(s, c, broadcast))
  {
    hide Inv, Core, Signal, Kept;
    InvCore(s);
    SignalTimers(s, Some(s.current), CondQ(s, c), broadcast);
  }

  lemma LockTimers(s: State, m: nat)
    ensures Kept(s, Lock(s, m).0)
  {
    assert SameTimers(s, Lock(s, m).0);
    KeptSame(s, Lock(s, m).0);
  }

  lemma UnlockTimers(s: State, m: nat)
    ensures Kept(s, Unlock(s, m).0)
  {
    hide HandOff, Kept;
    HandOffTimers(s, m, LockQ(s, m));
    KeptSame(s, Unlock(s, m).0);
  }

  lemma GoOnTimers(s: State)
    ensures Kept(s, GoOn(s).0)
  {
    hide Kept, UsleepEnd, CondEnd, LockEnd, PollEnd, ExitEnd, SameTimers;
    BeginTimers(s);
    UsleepEndIs(s);
    match ContOf(s, s.current)
    case InCondWait(c) =>
      CondEndTimers(s, c);
      KeptSame(s, CondEnd(s, c).0);
    case InLock(m) =>
      LockEndTimers(s, m);
      KeptSame(s, LockEnd(s, m).0);
    case InPoll(_, _, _) =>
      PollEndTimers(s);
      KeptSame(s, PollEnd(s).0);
    case InExit =>
      ExitEndTimers(s);
      KeptSame(s, ExitEnd(s));
    case _ =>
      KeptSame(s, GoOn(s).0);
  }

  lemma BeginTimers(s: State)
    ensures SameTimers(s, s) && forall th :: SameTimers(s, Put(s, s.current, th))
  {
  }

  lemma CondEndTimers(s: State, c: Cond)
    ensures SameTimers(s, CondEnd(s, c).0)
  {
    hide Without;
  }

  lemma LockEndTimers(s: State, m: nat)
    ensures SameTimers(s, LockEnd(s, m).0)
  {
    hide Without;
  }

  lemma PollEndTimers(s: State)
    requires ContOf(s, s.current).InPoll?
    ensures SameTimers(s, PollEnd(s).0)
  {
    hide IO.Release, CanRelease, CountReady;
  }

  lemma ExitEndTimers(s: State)
    ensures SameTimers(s, ExitEnd(s))
  {
  }

  // ----- A round of the idle thread -----

  lemma FoundTimers(s: State, ready: set<IO.Key>)
    requires Inv(s) && s.current == s.idle
    ensures Kept(s, VpIdle(s, Found(ready))) && OnlyWakes(s, VpIdle(s, Found(ready)))
  {
    hide *;
    MarkedKeeps(s, ready);
    var (io, notified) := IO.Notify(s.fds, s.io, ready);
    var s1 := s.(io := io, threads := Mark(s, notified, ready));
    WakeAllTimers(s1, Some(s.idle), notified);
    MarkTimers(s, s1, notified);
    SameKept(s, s1, WakeAll(s1, notified));
    OnlyWakesThen(s, s1, WakeAll(s1, notified));
  }

  lemma MarkTimers(s: State, s1: State, notified: seq<IO.Request>)
    requires s1.sleep == s.sleep && s1.lastClock == s.lastClock && forall t :: MarkedOk(s, s1, notified, t)
    ensures SameTimers(s, s1) && OnlyWakes(s, s1)
  {
    hide IO.Queued;
    forall t ensures Asleep(s1, t) ==> Asleep(s, t) {
      assert MarkedOk(s, s1, notified, t);
    }
  }

  lemma LookTimers(s: State, r: Selected)
    requires Inv(s) && s.current == s.idle
    ensures Kept(s, VpIdle(s, r)) && OnlyWakes(s, VpIdle(s, r))
  {
    hide Inv, Kept;
    if r.Found? {
      FoundTimers(s, r.ready);
    } else {
      KeptSame(s, VpIdle(s, r));
    }
  }

  lemma CheckedClock(s: State, now: nat)
    requires Core(s, Some(s.idle)) && IoWaits(s) && s.lastClock <= now
    ensures CheckClock(s, now).lastClock == now
    ensures SQ.Distinct(Deadlines(s))
  {
    hide *;
    ClockSet(s, Some(s.idle), now);
    CheckClockIs(s, now);
    ExpireKeeps(s.(lastClock := now), Some(s.idle), now - s.lastClock);
    CoreTimers(s, Some(s.idle));
  }

  lemma CoreTimers(s: State, r: Option<Tid>)
    requires Core(s, r)
    ensures SQ.Distinct(Deadlines(s)) && forall x :: x in Deadlines(s) ==> Asleep(s, x.thread)
  {
    hide SQ.Has, SQ.Valid, SQ.Once, SQ.Timers, CondsOk, LocksOk, IoOk;
    SQ.OnceDistinct(s.sleep.sleepers, s.lastClock);
    forall x | x in Deadlines(s) ensures Asleep(s, x.thread) {
      assert LinkOk(s, r, x.thread);
    }
  }

  lemma IdleAwake(s: State)
    requires Inv(s)
    ensures !Asleep(s, s.idle) && !Asleep(s, s.current)
  {
    assert LinkOk(s, Some(s.current), s.idle) && LinkOk(s, Some(s.current), s.current);
  }

  lemma RoundSleeps(s: State, r: Selected, now: nat)
    requires !IdleRound(s, r, now).fault
    ensures var s2, s' := CheckClock(VpIdle(s, r), now), IdleRound(s, r, now);
            && SameTimers(s2, s') && (forall t :: Asleep(s', t) == Asleep(s2, t))
            && forall t :: t != s.idle ==> Norm(Th(s', t)) == Norm(Th(s2, t))
  {
    hide CheckClock, VpIdle, Schedule, Norm;
    RoundIs(s, r, now);
    ScheduleTimers(Round(s, r, now));
    ScheduleNorm(Round(s, r, now));
    var s', s3 := IdleRound(s, r, now), Round(s, r, now);
    forall t | t != s.idle ensures Norm(Th(s', t)) == Norm(Th(CheckClock(VpIdle(s, r), now), t)) {
      assert SameNorm(s3, s', t) && Th(s3, t) == Th(CheckClock(VpIdle(s, r), now), t);
    }
  }

  lemma Checked(s: State, s1: State, s2: State, s': State, now: nat, x: SQ.Timer)
    requires Kept(s, s1) && OnlyWakes(s, s1) && x in Deadlines(s) && x.thread != s.idle
    requires SQ.Distinct(Deadlines(s1)) && s2.lastClock == now && SQ.Timers(s2.sleep.sleepers, now) == SQ.NotDue(Deadlines(s1), now)
    requires forall t :: t in SQ.Threads(SQ.Due(Deadlines(s1), now)) ==> Th(s2, t) == TimedOut(Th(s1, t))
    requires forall t :: t !in SQ.Threads(SQ.Due(Deadlines(s1), now)) ==> Th(s2, t) == Th(s1, t)
    requires SameTimers(s2, s') && (forall t :: Asleep(s', t) == Asleep(s2, t))
    requires forall t :: t != s.idle ==> Norm(Th(s', t)) == Norm(Th(s2, t))
    ensures Asleep(s', x.thread) <==> Asleep(s1, x.thread) && now < x.deadline
    ensures Asleep(s', x.thread) ==> x in Deadlines(s')
    ensures !Asleep(s', x.thread) && Asleep(s1, x.thread) ==> Norm(Th(s', x.thread)) == TimedOut(Th(s1, x.thread))
  {
    hide SQ.Timers, SQ.Due, SQ.NotDue, SQ.Threads, SQ.Distinct;
    if Asleep(s1, x.thread) {
      SQ.DueByDeadline(Deadlines(s1), now, x);
    }
  }

  /** In a round of the idle thread, of those that I/O does not wake, exactly the threads that are due go on. */
  lemma RoundTimers(s: State, r: Selected, now: nat, x: SQ.Timer)
    requires Inv(s) && s.current == s.idle && s.lastClock <= now && x in Deadlines(s)
    ensures var s1, s' := VpIdle(s, r), IdleRound(s, r, now);
            && (Asleep(s', x.thread) <==> Asleep(s1, x.thread) && now < x.deadline)
            && (Asleep(s', x.thread) ==> x in Deadlines(s'))
            && (!Asleep(s', x.thread) && Asleep(s1, x.thread) ==> Norm(Th(s', x.thread)) == TimedOut(Th(s1, x.thread)))
  {
    hide *;
    var s1 := VpIdle(s, r);
    LookTimers(s, r);
    VpIdleKeeps(s, r);
    ClockWakesDue(s, r, now);
    DeadlinesAre(s1);
    CheckedClock(s1, now);
    IdleRoundKeeps(s, r, now);
    NoFault(IdleRound(s, r, now));
    InvCore(s);
    CoreTimers(s, Some(s.current));
    IdleAwake(s);
    RoundSleeps(s, r, now);
    Checked(s, s1, CheckClock(s1, now), IdleRound(s, r, now), now, x);
  }

  lemma DeadlinesAre(s: State)
    ensures Deadlines(s) == SQ.Timers(s.sleep.sleepers, s.lastClock)
  {
  }

  // ----- Over a run -----

  lemma StepTimers(s: State, e: Event, x: SQ.Timer)
    requires Inv(s) && Enabled(s, e) && x in Deadlines(s) && Asleep(Next(s, e).0, x.thread)
    ensures x in Deadlines(Next(s, e).0) && (e.Idle? ==> e.now < x.deadline)
  {
    hide Inv, Perform, GoOn, IdleRound, VpIdle, CallOk, Deadlines, Asleep;
    match e
    case Do(call) => CallTimers(s, call);
    case Resume => GoOnTimers(s);
    case Idle(r, now) => RoundTimers(s, r, now, x);
  }

  ghost predicate Sleeps(states: seq<State>, k: nat, n: nat, t: Tid)
    requires k <= n < |states|
  {
    forall m :: k <= m <= n ==> Asleep(states[m], t)
  }

  lemma SleepsShorter(states: seq<State>, k: nat, n: nat, t: Tid)
    requires k < n < |states| && Sleeps(states, k, n, t)
    ensures Sleeps(states, k, n - 1, t) && Asleep(states[n], t)
  {
  }

  /** A thread that sleeps keeps its deadline, and no clock check that has been is at or after it. */
  lemma {:induction false} DeadlineKept(states: seq<State>, events: seq<Event>, k: nat, n: nat, x: SQ.Timer)
    requires IsRun(states, events) && k <= n <= |events| && x in Deadlines(states[k]) && Sleeps(states, k, n, x.thread)
    ensures x in Deadlines(states[n]) && states[n].lastClock <= x.deadline
    ensures forall j :: k <= j < n && events[j].Idle? ==> events[j].now < x.deadline
    decreases n
  {
    hide IsRun, Inv, Next, Enabled, Sleeps, Asleep;
    if k < n {
      RunStep(states, events, n - 1);
      SleepsShorter(states, k, n, x.thread);
      DeadlineKept(states, events, k, n - 1, x);
      StepTimers(states[n - 1], events[n - 1], x);
    }
    RunLength(states, events);
    SQ.TimersSorted(states[n].sleep.sleepers, states[n].lastClock);
  }

  /** What ends the sleep of t: an interrupt, a signal, its I/O, or a clock check at or after the deadline. */
  predicate Ends(s: State, e: Event, x: SQ.Timer) {
    match e
    case Do(CInterrupt(t)) => t == x.thread
    case Do(CCondSignal(c, _)) => ContOf(s, x.thread) == InCondWait(User(c))
    case Idle(r, now) => x.deadline <= now || !Asleep(VpIdle(s, r), x.thread)
    case _ => false
  }

  lemma AwakeBy(s: State, e: Event, t: Tid, th: Thread, th': Thread, x: SQ.Timer)
    requires Change(s, e, t, th, th') && th.onSleepq && !th'.onSleepq && t == x.thread && !e.Idle?
    requires th.cont == ContOf(s, t) && !Dead(th.cont) && !(th.cont.InCondWait? && th.cont.cond.Term?)
    ensures Ends(s, e, x)
  {
  }

  lemma NoTermSleep(s: State, t: Tid)
    requires Inv(s) && Asleep(s, t)
    ensures !(ContOf(s, t).InCondWait? && ContOf(s, t).cond.Term?) && !Dead(ContOf(s, t)) && t != s.current
  {
    assert LinkOk(s, Some(s.current), t);
  }

  lemma StepWakes(s: State, e: Event, x: SQ.Timer)
    requires Inv(s) && Enabled(s, e) && x in Deadlines(s) && !Asleep(Next(s, e).0, x.thread)
    ensures Ends(s, e, x)
    ensures e.Idle? && Asleep(VpIdle(s, e.selected), x.thread) ==>
              Norm(Th(Next(s, e).0, x.thread)) == TimedOut(Th(VpIdle(s, e.selected), x.thread))
  {
    hide Inv, Perform, GoOn, IdleRound, VpIdle, CallOk, Deadlines, Change, Core;
    InvCore(s);
    CoreTimers(s, Some(s.current));
    NoTermSleep(s, x.thread);
    if e.Idle? {
      RoundTimers(s, e.selected, e.now, x);
    } else {
      StepChange(s, e);
      assert ChangeOk(s, e, Next(s, e).0, x.thread);
      AwakeBy(s, e, x.thread, Norm(Th(s, x.thread)), Norm(Th(Next(s, e).0, x.thread)), x);
    }
  }

  /**
   The sleep of a thread with a deadline ends by an interrupt, by a signal on what it waits for, by its I/O, or
   by the first clock check at or after the deadline; and if it is by that, as a timeout.
   */
  lemma SleepEnds(states: seq<State>, events: seq<Event>, k: nat, n: nat, x: SQ.Timer)
    requires IsRun(states, events) && k <= n < |events| && x in Deadlines(states[k])
    requires Sleeps(states, k, n, x.thread) && !Asleep(states[n + 1], x.thread)
    ensures Ends(states[n], events[n], x)
    ensures forall j :: k <= j < n && events[j].Idle? ==> events[j].now < x.deadline
    ensures events[n].Idle? && Asleep(VpIdle(states[n], events[n].selected), x.thread) ==>
              Norm(Th(states[n + 1], x.thread)) == TimedOut(Th(VpIdle(states[n], events[n].selected), x.thread))
  {
    hide IsRun, Inv, Next, Enabled, Sleeps, Asleep, Ends, VpIdle, Deadlines;
    RunStep(states, events, n);
    DeadlineKept(states, events, k, n, x);
    StepWakes(states[n], events[n], x);
  }

  // ----- The time that select may wait -----

  /** The limit for select is up exactly when the first deadline comes: a thread is due from then on and not before. */
  lemma FirstDeadline(s: State, now: nat)
    requires s.lastClock <= now
    ensures SelectTimeout(s) == None <==> Deadlines(s) == []
    ensures (exists x :: x in Deadlines(s) && x.deadline <= now)
            <==> SelectTimeout(s).Some? && s.lastClock + SelectTimeout(s).value <= now
  {
    if s.sleep.sleepers != [] {
      SQ.TimersSorted(s.sleep.sleepers, s.lastClock);
      FirstTimer(s.sleep.sleepers, s.lastClock);
      var first := Deadlines(s)[0];
      assert first in Deadlines(s);
      hide SQ.Timers;
      forall x | x in Deadlines(s) ensures first.deadline <= x.deadline {
        var i :| 0 <= i < |Deadlines(s)| && Deadlines(s)[i] == x;
      }
    }
  }

  lemma FirstTimer(sleepers: seq<SQ.Sleeper>, base: nat)
    requires sleepers != []
    ensures SQ.Timers(sleepers, base)[0].deadline == base + sleepers[0].sleep
  {
  }
}
