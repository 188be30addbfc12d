/** What the steps of the scheduler leave as it was: mutexes and wait queues. */
module SchedulerFrames {
  import opened Wrappers
  import opened Queues
  import opened Scheduler
  import opened SchedulerInvariant
  import opened SchedulerSteps
  import opened SchedulerEffects
  import SQ = SleepQueue
  import IO = IoQueue

  // ----- What a step does to a mutex -----

  predicate IsLockStep(s: State, e: Event, m: nat) {
    match e
    case Do(CLock(n)) => n == m
    case Do(CTrylock(n)) => n == m
    case Do(CUnlock(n)) => n == m
    case Resume => ContOf(s, s.current) == InLock(m)
    case _ => false
  }

  /** A step that is not about a mutex leaves it, and its waiters. */
  predicate SameMutex(s: State, s': State, m: nat) {
    MutexOf(s', m) == MutexOf(s, m) && (ContOf(s', s.current) == InLock(m) <==> ContOf(s, s.current) == InLock(m))
  }

  /** A wait queue changes when the current thread comes or goes. */
  predicate QueueStep(q: seq<Tid>, q': seq<Tid>, me: Tid) {
    q' == q || q' == q + [me] || q' == Without(q, me) || q' == Without(q, me) + [me]
  }

  ghost predicate CondsStep(s: State, s': State) {
    forall c :: QueueStep(CondQ(s, c), CondQ(s', c), s.current)
  }

  /** Whether the current thread can be joined. */
  predicate SameJoinable(s: State, s': State) {
    Th(s', s.current).joinable == Th(s, s.current).joinable
  }

  lemma NoCondStep(s: State, s': State)
    requires s'.conds == s.conds
    ensures CondsStep(s, s')
  {
    assert forall c :: CondQ(s', c) == CondQ(s, c);
  }

  lemma OneCondStep(s: State, s': State, c: Cond, q: seq<Tid>)
    requires s'.conds == s.conds[c := q] && QueueStep(CondQ(s, c), q, s.current)
    ensures CondsStep(s, s')
  {
    hide Without;
    assert forall d :: d != c ==> CondQ(s', d) == CondQ(s, d);
  }

  lemma TimedSame(s: State, timeout: Option<nat>)
    requires s.current in s.threads
    ensures var s' := Timed(s, s.current, timeout);
            && s'.mutexes == s.mutexes && s'.conds == s.conds
            && ContOf(s', s.current) == ContOf(s, s.current) && s'.current == s.current && SameJoinable(s, s')
  {
    hide SQ.Add, SQ.Valid;
  }

  lemma ScheduleSame(s: State)
    ensures Schedule(s).mutexes == s.mutexes && Schedule(s).conds == s.conds
    ensures forall t :: ContOf(Schedule(s), t) == ContOf(s, t)
    ensures SameJoinable(s, Schedule(s))
  {
  }

  lemma CallSame(s: State, call: Call, m: nat)
    requires Calling(s) && CallOk(s, call) && !IsLockStep(s, Do(call), m)
    requires call.CUsleep? || call.CCondWait? || call.CPoll? || call.CLock? || call.CTrylock?
    ensures SameMutex(s, Perform(s, call).0, m) && CondsStep(s, Perform(s, call).0)
  {
    hide Inv, Schedule, Timed, IO.Register, IO.Legal, CondsStep, Usleep, Poll, CondTimedwait, Lock, SameMutex;
    CallingThread(s);
    match call
    case CUsleep(usecs) => UsleepSame(s, usecs, m);
    case CCondWait(c, timeout) => CondWaitSame(s, User(c), timeout, m);
    case CPoll(pds, timeout) => PollSame(s, pds, timeout, m);
    case CLock(n) => LockSame(s, n, m);
    case CTrylock(n) => TrylockSame(s, n, m);
  }

  lemma UsleepSame(s: State, usecs: nat, m: nat)
    requires s.current in s.threads && ContOf(s, s.current).InProgram?
    ensures SameMutex(s, Usleep(s, usecs).0, m) && CondsStep(s, Usleep(s, usecs).0)
  {
    hide Schedule, Timed, CondsStep;
    TimedSame(Block(s, Sleeping, InUsleep), Some(usecs));
    ScheduleSame(Timed(Block(s, Sleeping, InUsleep), s.current, Some(usecs)));
    NoCondStep(s, Usleep(s, usecs).0);
  }

  lemma PollSame(s: State, pds: seq<IO.PollFd>, timeout: Option<nat>, m: nat)
    requires s.current in s.threads && ContOf(s, s.current).InProgram? && IO.Legal(s.fds, pds)
    ensures SameMutex(s, Poll(s, pds, timeout).0, m) && CondsStep(s, Poll(s, pds, timeout).0)
  {
    hide Schedule, Timed, IO.Register, IO.Legal, CondsStep;
    var s1 := Block(s, IoWait, InPoll(pds, true, [])).(io := IO.Register(s.fds, s.io, IO.Request(s.current, pds)));
    TimedSame(s1, timeout);
    ScheduleSame(Timed(s1, s.current, timeout));
    NoCondStep(s, Poll(s, pds, timeout).0);
  }

  lemma TrylockSame(s: State, n: nat, m: nat)
    requires s.current in s.threads && ContOf(s, s.current).InProgram? && n != m
    ensures SameMutex(s, Trylock(s, n).0, m) && CondsStep(s, Trylock(s, n).0)
  {
    hide CondsStep;
    NoCondStep(s, Trylock(s, n).0);
  }

  lemma CondWaitSame(s: State, c: Cond, timeout: Option<nat>, m: nat)
    requires s.current in s.threads && ContOf(s, s.current).InProgram?
    ensures SameMutex(s, CondTimedwait(s, c, timeout).0, m) && CondsStep(s, CondTimedwait(s, c, timeout).0)
  {
    hide Schedule, Timed, CondsStep;
    var s', q := CondTimedwait(s, c, timeout).0, CondQ(s, c) + [s.current];
    var s1 := Block(s, CondWait, InCondWait(c)).(conds := s.conds[c := q]);
    TimedSame(s1, timeout);
    ScheduleSame(Timed(s1, s.current, timeout));
    if Interrupted(s) {
      NoCondStep(s, s');
    } else {
      OneCondStep(s, s', c, q);
    }
  }

  lemma LockSame(s: State, n: nat, m: nat)
    requires s.current in s.threads && ContOf(s, s.current).InProgram? && n != m
    ensures SameMutex(s, Lock(s, n).0, m) && CondsStep(s, Lock(s, n).0)
  {
    hide Schedule, CondsStep, MutexOf, PutMutex;
    var x := MutexOf(s, n);
    var s1, s2 := x.(owner := Some(s.current)), x.(waitq := x.waitq + [s.current]);
    PutOther(s, n, m, s1);
    PutOther(Block(s, LockWait, InLock(n)), n, m, s2);
    SameMutexes(s, Block(s, LockWait, InLock(n)), m);
    SameMutexes(s, TakeInterrupt(s), m);
    ScheduleSame(PutMutex(Block(s, LockWait, InLock(n)), n, s2));
    SameMutexes(PutMutex(Block(s, LockWait, InLock(n)), n, s2), Lock(s, n).0, m);
    SameMutexes(PutMutex(s, n, s1), Lock(s, n).0, m);
    SameMutexes(s, Lock(s, n).0, m);
    NoCondStep(s, Lock(s, n).0);
  }

  lemma PutOther(s: State, n: nat, m: nat, x: Mutex)
    requires n != m
    ensures var s' := PutMutex(s, n, x);
            MutexOf(s', m) == MutexOf(s, m) && s'.threads == s.threads && s'.conds == s.conds && s'.current == s.current
  {
  }

  lemma SameMutexes(s: State, s': State, m: nat)
    ensures s'.mutexes == s.mutexes ==> MutexOf(s', m) == MutexOf(s, m)
  {
  }

  /** The calls about other threads. */
  lemma OtherCallSame(s: State, call: Call, m: nat)
    requires Calling(s) && CallOk(s, call) && !IsLockStep(s, Do(call), m)
    requires call.CCondSignal? || call.CUnlock? || call.CInterrupt? || call.CCreate? || call.CExit? || call.CJoin?
    ensures SameMutex(s, Perform(s, call).0, m) && CondsStep(s, Perform(s, call).0)
  {
    hide Inv, CondSignal, HandOff, Interrupt, Exit, Join, Core, Th, CondsStep;
    InvCore(s);
    match call
    case CCondSignal(c, broadcast) =>
      SignalSame(s, Some(s.current), User(c), broadcast);
      SignalCallKeeps(s, User(c), broadcast);
      ReturnSame(CondSignal(s, User(c), broadcast), Ok(0));
      NoCondStep(s, CondSignal(s, User(c), broadcast));
    case CUnlock(n) => UnlockSame(s, n, m);
    case CInterrupt(t) =>
      InterruptEffect(s, Some(s.current), t);
      InterruptCallKeeps(s, t);
      InterruptKeepsConts(s, t);
      ReturnSame(Interrupt(s, t), Ok(0));
      NoCondStep(s, Interrupt(s, t));
    case CCreate(t, joinable) =>
      CreateKeeps(s, t, joinable);
      ReturnSame(Create(s, t, joinable), Ok(t));
      NoCondStep(s, Create(s, t, joinable));
    case CExit(retval) => ExitSame(s, retval, m);
    case CJoin(t) => JoinSame(s, t, m);
  }

  lemma SignalSame(s: State, r: Option<Tid>, c: Cond, broadcast: bool)
    requires Core(s, r)
    ensures CondSignal(s, c, broadcast).mutexes == s.mutexes && CondSignal(s, c, broadcast).conds == s.conds
    ensures forall t :: ContOf(CondSignal(s, c, broadcast), t) == ContOf(s, t)
  {
    hide Signal, Core;
    SignalKeeps(s, r, CondQ(s, c), broadcast);
  }

  lemma InterruptKeepsConts(s: State, t: Tid)
    requires Inv(s) && !Dead(ContOf(s, t))
    ensures forall u :: ContOf(Interrupt(s, t), u) == ContOf(s, u)
  {
    hide Core, Interrupt;
    InvCore(s);
    InvLinks(s);
    InterruptKeeps(s, Some(s.current), t);
  }

  lemma UnlockSame(s: State, n: nat, m: nat)
    requires Calling(s) && n != m
    ensures SameMutex(s, Unlock(s, n).0, m) && CondsStep(s, Unlock(s, n).0)
  {
    hide Inv, HandOff, CondsStep;
    CallingThread(s);
    if Owner(s, n) == Some(s.current) {
      UnlockedCalling(s, n);
      HandOffEffect(s, n, LockQ(s, n));
      ReturnSame(HandOff(s, n, LockQ(s, n)), Ok(0));
      UnlockedConts(s, n);
    } else {
      ReturnSame(s, Err(EPERM));
    }
    NoCondStep(s, Unlock(s, n).0);
  }

  lemma UnlockedConts(s: State, n: nat)
    requires Calling(s) && Owner(s, n) == Some(s.current)
    ensures forall t :: ContOf(HandOff(s, n, LockQ(s, n)), t) == ContOf(s, t)
    ensures HandOff(s, n, LockQ(s, n)).current == s.current
  {
    hide Core, HandOff;
    CallingThread(s);
    InvLinks(s);
    InvCore(s);
    HandOffKeeps(s, Some(s.current), s.current, n, LockQ(s, n));
  }

  lemma ExitSame(s: State, retval: int, m: nat)
    requires Calling(s)
    ensures SameMutex(s, Exit(s, retval), m) && CondsStep(s, Exit(s, retval))
  {
    hide Inv, Core, Schedule, Exit, CondSignal, CondsStep, SomeWoken;
    CallingThread(s);
    ExitIs(s, retval);
    if Th(s, s.current).joinable {
      DyingKeeps(s, retval);
      SignalSame(Dying(s, retval), None, Term(s.current), false);
      ScheduleSame(CondSignal(Dying(s, retval), Term(s.current), false));
    } else {
      ScheduleSame(Put(s, s.current, Th(s, s.current).(retval := retval, cont := Gone)));
    }
    NoCondStep(s, Exit(s, retval));
  }

  lemma JoinSame(s: State, t: Tid, m: nat)
    requires Calling(s)
    ensures SameMutex(s, Join(s, t).0, m) && CondsStep(s, Join(s, t).0)
  {
    hide Inv, CondTimedwait, CondsStep, Joined;
    CallingThread(s);
    CondWaitSame(s, Term(t), None, m);
    if Th(s, t).state == Zombie {
      JoinedEffect(s, t);
      JoinedPlace(s, t);
      NoCondStep(s, Joined(s, t).0);
    }
    ReturnSame(s, Err(EINVAL));
    ReturnSame(s, Err(EDEADLK));
    NoCondStep(s, s);
  }

  lemma JoinedPlace(s: State, t: Tid)
    requires Calling(s) && Th(s, t).state == Zombie
    ensures ContOf(Joined(s, t).0, s.current).InProgram? && SameJoinable(s, Joined(s, t).0)
  {
    hide Inv, Joined;
    JoinedEffect(s, t);
    CallingThread(s);
  }

  lemma ResumeSame(s: State, m: nat)
    requires Inv(s) && s.current != s.idle && !ContOf(s, s.current).InProgram? && ContOf(s, s.current) != InLock(m)
    ensures SameMutex(s, GoOn(s).0, m) && CondsStep(s, GoOn(s).0)
  {
    hide Inv, Schedule, CondEnd, PollEnd, LockEnd, ExitEnd, Without, CondsStep, UsleepEnd;
    ResumedThread(s);
    match ContOf(s, s.current)
    case Begin => NoCondStep(s, GoOn(s).0);
    case InUsleep =>
      UsleepEndIs(s);
      NoCondStep(s, UsleepEnd(s).0);
    case InCondWait(c) => CondEndSame(s, c, m);
    case InLock(n) => LockEndSame(s, n, m);
    case InPoll(_, _, _) => PollEndSame(s, m);
    case InExit =>
      ExitEndIs(s);
      ScheduleSame(Put(s, s.current, Th(s, s.current).(joinable := false, cont := Gone)));
      NoCondStep(s, ExitEnd(s));
    case _ => NoCondStep(s, s);
  }

  lemma LockEndSame(s: State, n: nat, m: nat)
    requires ContOf(s, s.current) == InLock(n) && n != m
    ensures SameMutex(s, LockEnd(s, n).0, m) && CondsStep(s, LockEnd(s, n).0)
  {
    hide Without, CondsStep;
    NoCondStep(s, LockEnd(s, n).0);
  }

  lemma PollEndSame(s: State, m: nat)
    requires ContOf(s, s.current).InPoll?
    ensures SameMutex(s, PollEnd(s).0, m) && CondsStep(s, PollEnd(s).0)
  {
    hide IO.Release, CanRelease, CountReady, CondsStep;
    NoCondStep(s, PollEnd(s).0);
  }

  lemma CondEndSame(s: State, c: Cond, m: nat)
    requires Inv(s) && ContOf(s, s.current) == InCondWait(c)
    ensures SameMutex(s, CondEnd(s, c).0, m) && CondsStep(s, CondEnd(s, c).0)
  {
    hide Inv, Without, CondTimedwait, Joined, CondsStep, CondQ;
    var s1, q := CondLeave(s, c), Without(CondQ(s, c), s.current);
    CondLeaveKeeps(s, c);
    CondLeaveOnly(s, c);
    CallingThread(s1);
    OneCondStep(s, s1, c, q);
    CondWaitAgain(s, s1, c, m);
    if c.Term? && Th(s1, c.thread).state == Zombie {
      JoinedEffect(s1, c.thread);
      JoinedPlace(s1, c.thread);
      OneCondStep(s, Joined(s1, c.thread).0, c, q);
    }
    ReturnSame(s1, CondResult(Th(s, s.current)));
  }

  lemma CondWaitAgain(s: State, s1: State, c: Cond, m: nat)
    requires s1.current == s.current && s1.conds == s.conds[c := Without(CondQ(s, c), s.current)]
    requires s.current in s1.threads && ContOf(s1, s.current).InProgram?
    ensures SameMutex(s1, CondTimedwait(s1, c, None).0, m) && CondsStep(s, CondTimedwait(s1, c, None).0)
  {
    hide Schedule, Timed, CondsStep, Without;
    var s', q := CondTimedwait(s1, c, None).0, CondQ(s1, c) + [s.current];
    assert CondQ(s1, c) == Without(CondQ(s, c), s.current);
    var s2 := Block(s1, CondWait, InCondWait(c)).(conds := s1.conds[c := q]);
    TimedSame(s2, None);
    ScheduleSame(Timed(s2, s.current, None));
    if Interrupted(s1) {
      OneCondStep(s, s', c, Without(CondQ(s, c), s.current));
    } else {
      assert s.conds[c := Without(CondQ(s, c), s.current)][c := q] == s.conds[c := q];
      OneCondStep(s, s', c, q);
    }
  }

  lemma IdleSame(s: State, r: Selected, now: nat, m: nat)
    requires Inv(s) && s.current == s.idle && s.lastClock <= now
    ensures SameMutex(s, IdleRound(s, r, now), m) && CondsStep(s, IdleRound(s, r, now))
  {
    hide *;
    var s1, woken := RoundEffect(s, r, now);
    IdleThread(s);
    ScheduleSame(Round(s, r, now));
    IdleConts(s, r, now);
    IdleKeepsMutex(s, IdleRound(s, r, now), m);
    NoCondStep(s, IdleRound(s, r, now));
  }

  lemma IdleKeepsMutex(s: State, s': State, m: nat)
    requires s'.mutexes == s.mutexes && ContOf(s, s.current).IdleLoop? && ContOf(s', s.current).IdleLoop?
    ensures SameMutex(s, s', m)
  {
  }

  lemma IdleConts(s: State, r: Selected, now: nat)
    requires Inv(s) && s.current == s.idle && s.lastClock <= now
    ensures ContOf(IdleRound(s, r, now), s.idle).IdleLoop?
  {
    hide IdleRound;
    IdleRoundKeeps(s, r, now);
    VpIdleKeeps(s, r);
    IdleRoundIdle(s, r, now);
    assert LinkOk(IdleRound(s, r, now), Some(IdleRound(s, r, now).current), s.idle);
  }

  lemma IdleRoundIdle(s: State, r: Selected, now: nat)
    requires Inv(s) && s.current == s.idle && s.lastClock <= now
    ensures IdleRound(s, r, now).idle == s.idle
  {
    hide *;
    var s1 := VpIdle(s, r).(lastClock := now);
    VpIdleKeeps(s, r);
    ClockSet(VpIdle(s, r), Some(s.idle), now);
    CoreSleep(s1, Some(s.idle));
    ExpireKeeps(s1, Some(s.idle), now - s.lastClock);
    SameIdle(s1, Expire(s1, now - s.lastClock), SQ.Expire(s1.sleep, now - s.lastClock).0);
    CheckClockIs(VpIdle(s, r), now);
    RoundIdle(s, r, now);
  }

  lemma RoundIdle(s: State, r: Selected, now: nat)
    ensures IdleRound(s, r, now).idle == CheckClock(VpIdle(s, r), now).idle
  {
    hide CheckClock, VpIdle;
  }

  /** A step that is not about a mutex leaves it. */
  lemma StepSame(s: State, e: Event, m: nat)
    requires Inv(s) && Enabled(s, e) && !IsLockStep(s, e, m)
    ensures SameMutex(s, Next(s, e).0, m) && CondsStep(s, Next(s, e).0)
  {
    hide Inv, SameMutex, CondsStep, Perform, GoOn, IdleRound, CallOk;
    match e
    case Do(call) =>
      if call.CUsleep? || call.CCondWait? || call.CPoll? || call.CLock? || call.CTrylock? {
        CallSame(s, call, m);
      } else {
        OtherCallSame(s, call, m);
      }
    case Resume => ResumeSame(s, m);
    case Idle(r, now) => IdleSame(s, r, now, m);
  }
}
