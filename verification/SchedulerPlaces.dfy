/** Where each step leaves the thread that takes it. */
module SchedulerPlaces {
  import opened Wrappers
  import opened Queues
  import opened Scheduler
  import opened SchedulerInvariant
  import opened SchedulerSteps
  import opened SchedulerEffects
  import opened SchedulerFrames
  import SQ = SleepQueue
  import IO = IoQueue

  // ----- Where the current thread goes -----

  /** The places where a step may leave the thread that takes it. */
  predicate Goes(s: State, e: Event, k: Cont) {
    match e
    case Do(CUsleep(_)) => k.InProgram? || k.InUsleep?
    case Do(CCondWait(c, _)) => k.InProgram? || k == InCondWait(User(c))
    case Do(CLock(m)) => k.InProgram? || k == InLock(m)
    case Do(CPoll(_, _)) => k.InProgram? || k.InPoll?
    case Do(CExit(_)) => k == if Th(s, s.current).joinable then InExit else Gone
    case Do(CJoin(t)) =>
      k.InProgram?
      || (k == InCondWait(Term(t)) && Th(s, t).joinable && CondQ(s, Term(t)) == [] && Th(s, t).state != Zombie
          && t != s.current)
    case Do(_) => k.InProgram?
    case Resume => GoesOnTo(s, k)
    case Idle(_, _) => k.IdleLoop?
  }

  predicate GoesOnTo(s: State, k: Cont) {
    match ContOf(s, s.current)
    case InExit => k.Gone?
    case InCondWait(Term(t)) =>
      k.InProgram?
      || (k == InCondWait(Term(t)) && CondResult(Th(s, s.current)).Ok? && Th(s, t).state != Zombie)
    case _ => k.InProgram?
  }

  lemma TrylockPlace(s: State, m: nat)
    requires s.current in s.threads && ContOf(s, s.current).InProgram?
    ensures Goes(s, Do(CTrylock(m)), ContOf(Trylock(s, m).0, s.current)) && SameJoinable(s, Trylock(s, m).0)
  {
  }

  lemma MyCallPlace(s: State, call: Call)
    requires Calling(s) && CallOk(s, call)
    requires call.CUsleep? || call.CCondWait? || call.CPoll? || call.CLock? || call.CTrylock?
    ensures Goes(s, Do(call), ContOf(Perform(s, call).0, s.current)) && SameJoinable(s, Perform(s, call).0)
  {
    hide Inv, Usleep, CondTimedwait, Poll, Lock, Trylock, IO.Legal, SameJoinable, Goes, Th;
    CallingThread(s);
    match call
    case CUsleep(usecs) => UsleepPlace(s, usecs);
    case CCondWait(c, timeout) => CondCallPlace(s, c, timeout);
    case CPoll(pds, timeout) => PollPlace(s, pds, timeout);
    case CLock(m) => LockPlaceAfter(s, m);
    case CTrylock(m) => TrylockPlace(s, m);
  }

  lemma CondCallPlace(s: State, c: nat, timeout: Option<nat>)
    requires s.current in s.threads
    ensures Goes(s, Do(CCondWait(c, timeout)), ContOf(CondTimedwait(s, User(c), timeout).0, s.current))
    ensures SameJoinable(s, CondTimedwait(s, User(c), timeout).0)
  {
    hide CondTimedwait;
    BlockedPlace(s, User(c), timeout);
  }

  lemma UsleepPlace(s: State, usecs: nat)
    requires s.current in s.threads
    ensures Goes(s, Do(CUsleep(usecs)), ContOf(Usleep(s, usecs).0, s.current)) && SameJoinable(s, Usleep(s, usecs).0)
  {
    hide Schedule, Timed;
    TimedSame(Block(s, Sleeping, InUsleep), Some(usecs));
    ScheduleSame(Timed(Block(s, Sleeping, InUsleep), s.current, Some(usecs)));
  }

  lemma PollPlace(s: State, pds: seq<IO.PollFd>, timeout: Option<nat>)
    requires s.current in s.threads && IO.Legal(s.fds, pds)
    ensures Goes(s, Do(CPoll(pds, timeout)), ContOf(Poll(s, pds, timeout).0, s.current))
    ensures SameJoinable(s, Poll(s, pds, timeout).0)
  {
    hide Schedule, Timed, IO.Register, IO.Legal;
    var s1 := Block(s, IoWait, InPoll(pds, true, [])).(io := IO.Register(s.fds, s.io, IO.Request(s.current, pds)));
    TimedSame(s1, timeout);
    ScheduleSame(Timed(s1, s.current, timeout));
  }

  lemma LockPlaceAfter(s: State, m: nat)
    requires s.current in s.threads && ContOf(s, s.current).InProgram?
    ensures Goes(s, Do(CLock(m)), ContOf(Lock(s, m).0, s.current)) && SameJoinable(s, Lock(s, m).0)
  {
    hide Schedule, Goes;
    var s1 := PutMutex(Block(s, LockWait, InLock(m)), m, MutexOf(s, m).(waitq := MutexOf(s, m).waitq + [s.current]));
    ScheduleSame(s1);
    assert ContOf(s1, s.current) == InLock(m) && SameJoinable(s, s1);
    LockGoes(s, m);
  }

  lemma LockGoes(s: State, m: nat)
    ensures forall k: Cont :: k.InProgram? || k == InLock(m) ==> Goes(s, Do(CLock(m)), k)
  {
  }

  lemma BlockedPlace(s: State, c: Cond, timeout: Option<nat>)
    requires s.current in s.threads
    ensures ContOf(CondTimedwait(s, c, timeout).0, s.current)
         == if Interrupted(s) then InProgram else InCondWait(c)
    ensures SameJoinable(s, CondTimedwait(s, c, timeout).0)
  {
    hide Schedule, Timed;
    var s1 := Block(s, CondWait, InCondWait(c)).(conds := s.conds[c := CondQ(s, c) + [s.current]]);
    TimedSame(s1, timeout);
    ScheduleSame(Timed(s1, s.current, timeout));
  }

  lemma MyOtherPlace(s: State, call: Call)
    requires Calling(s) && CallOk(s, call)
    requires call.CCondSignal? || call.CUnlock? || call.CInterrupt? || call.CCreate? || call.CExit? || call.CJoin?
    ensures Goes(s, Do(call), ContOf(Perform(s, call).0, s.current)) && SameJoinable(s, Perform(s, call).0)
  {
    hide Inv, CondSignal, HandOff, Interrupt, Exit, Join, Core, Th;
    InvCore(s);
    match call
    case CCondSignal(c, broadcast) =>
      SignalCallKeeps(s, User(c), broadcast);
      SignalSame(s, Some(s.current), User(c), broadcast);
      SignalMyself(s, User(c), broadcast);
      ReturnSame(CondSignal(s, User(c), broadcast), Ok(0));
    case CUnlock(m) => UnlockPlace(s, m);
    case CInterrupt(t) =>
      InterruptCallKeeps(s, t);
      InterruptKeepsConts(s, t);
      InterruptMyself(s, t);
      ReturnSame(Interrupt(s, t), Ok(0));
    case CCreate(t, joinable) =>
      CallingThread(s);
      CreateMyself(s, t, joinable);
      CreateKeeps(s, t, joinable);
      ReturnSame(Create(s, t, joinable), Ok(t));
    case CExit(retval) => ExitPlace(s, retval);
    case CJoin(t) => JoinPlace(s, t);
  }

  lemma SignalMyself(s: State, c: Cond, broadcast: bool)
    requires Calling(s)
    ensures SameJoinable(s, CondSignal(s, c, broadcast))
  {
    hide Inv, Core, Signal;
    InvCore(s);
    SignalKeeps(s, Some(s.current), CondQ(s, c), broadcast);
  }

  lemma InterruptMyself(s: State, t: Tid)
    requires Calling(s) && !Dead(ContOf(s, t))
    ensures SameJoinable(s, Interrupt(s, t))
  {
    hide Inv, Core, Interrupt;
    InvCore(s);
    InterruptEffect(s, Some(s.current), t);
  }

  lemma CreateMyself(s: State, t: Tid, joinable: bool)
    requires t !in s.threads && s.current in s.threads
    ensures SameJoinable(s, Create(s, t, joinable))
  {
  }

  lemma UnlockMyself(s: State, m: nat)
    requires Calling(s) && Owner(s, m) == Some(s.current)
    ensures SameJoinable(s, HandOff(s, m, LockQ(s, m)))
  {
    hide Inv, HandOff, Owner;
    InvLinks(s);
    HandedOk(s, m);
  }

  lemma UnlockPlace(s: State, m: nat)
    requires Calling(s)
    ensures ContOf(Unlock(s, m).0, s.current).InProgram? && SameJoinable(s, Unlock(s, m).0)
  {
    hide Inv, HandOff;
    if Owner(s, m) == Some(s.current) {
      UnlockedCalling(s, m);
      UnlockedConts(s, m);
      UnlockMyself(s, m);
      ReturnSame(HandOff(s, m, LockQ(s, m)), Ok(0));
    } else {
      ReturnSame(s, Err(EPERM));
    }
  }

  lemma DyingItself(s: State, retval: int)
    requires Calling(s) && Th(s, s.current).joinable
    ensures var s1 := Dying(s, retval);
            var s2 := CondSignal(s1, Term(s.current), false);
            Th(s2, s.current) == Th(s1, s.current) && s2.current == s.current
  {
    hide Inv, Core, CondSignal;
    DyingKeeps(s, retval);
  }

  lemma ScheduledThread(s: State, t: Tid)
    requires !Schedule(s).fault
    ensures var th, th' := Th(s, t), Th(Schedule(s), t);
            && th'.cont == th.cont && th'.retval == th.retval && th'.joinable == th.joinable
            && th'.interrupt == th.interrupt && (!Active(th) ==> th'.state == th.state)
  {
    hide Schedule;
    ScheduleNorm(s);
    assert SameNorm(s, Schedule(s), t);
  }

  lemma ExitPlace(s: State, retval: int)
    requires Calling(s)
    ensures var th := Th(Exit(s, retval), s.current);
            th.cont == (if Th(s, s.current).joinable then InExit else Gone) && th.retval == retval
            && SameJoinable(s, Exit(s, retval))
    ensures Th(s, s.current).joinable ==> Th(Exit(s, retval), s.current).state == Zombie
  {
    hide Inv, Schedule, Exit, CondSignal, Core;
    ExitKeeps(s, retval);
    InvLinks(Exit(s, retval));
    ExitIs(s, retval);
    if Th(s, s.current).joinable {
      DyingItself(s, retval);
      ScheduledThread(CondSignal(Dying(s, retval), Term(s.current), false), s.current);
    } else {
      ScheduledThread(Put(s, s.current, Th(s, s.current).(retval := retval, cont := Gone)), s.current);
    }
  }

  /** The three ways a join goes. */
  lemma JoinParts(s: State, t: Tid)
    requires Calling(s)
    ensures var j, q := Join(s, t), CondQ(s, Term(t));
            if Th(s, t).joinable && t != s.current && q == [] then
              j == if Th(s, t).state == Zombie then Joined(s, t) else CondTimedwait(s, Term(t), None)
            else j.0 == s && j.1.Some? && j.1.value.Err?
  {
    hide Inv, Joined, CondTimedwait, Return;
    ReturnSame(s, Err(EINVAL));
    ReturnSame(s, Err(EDEADLK));
  }

  lemma JoinPlace(s: State, t: Tid)
    requires Calling(s)
    ensures Goes(s, Do(CJoin(t)), ContOf(Join(s, t).0, s.current)) && SameJoinable(s, Join(s, t).0)
  {
    hide Inv, CondTimedwait, Joined, Join, CondQ, Th;
    JoinParts(s, t);
    CallingCurrent(s);
    BlockedPlace(s, Term(t), None);
    if Th(s, t).state == Zombie {
      JoinedPlace(s, t);
    }
  }

  lemma CallingCurrent(s: State)
    requires Calling(s)
    ensures s.current in s.threads && ContOf(s, s.current).InProgram?
  {
    CallingThread(s);
  }

  lemma ResumePlace(s: State)
    requires Inv(s) && s.current != s.idle && !ContOf(s, s.current).InProgram?
    ensures GoesOnTo(s, ContOf(GoOn(s).0, s.current))
    ensures !ContOf(s, s.current).InExit? ==> SameJoinable(s, GoOn(s).0)
  {
    hide Inv, Schedule, CondEnd, PollEnd, LockEnd, ExitEnd, Without, UsleepEnd;
    ResumedThread(s);
    match ContOf(s, s.current)
    case Begin =>
    case InUsleep => UsleepEndIs(s);
    case InCondWait(c) => CondEndPlace(s, c);
    case InLock(m) => LockEndPlace(s, m);
    case InPoll(_, _, _) => PollEndPlace(s);
    case InExit =>
      ExitEndIs(s);
      ScheduleSame(Put(s, s.current, Th(s, s.current).(joinable := false, cont := Gone)));
    case _ =>
  }

  lemma LockEndPlace(s: State, m: nat)
    ensures ContOf(LockEnd(s, m).0, s.current).InProgram? && SameJoinable(s, LockEnd(s, m).0)
  {
    hide Without;
  }

  lemma PollEndPlace(s: State)
    requires ContOf(s, s.current).InPoll?
    ensures ContOf(PollEnd(s).0, s.current).InProgram? && SameJoinable(s, PollEnd(s).0)
  {
    hide IO.Release, CanRelease, CountReady;
  }

  lemma CondEndPlace(s: State, c: Cond)
    requires Inv(s) && ContOf(s, s.current) == InCondWait(c)
    ensures GoesOnTo(s, ContOf(CondEnd(s, c).0, s.current)) && SameJoinable(s, CondEnd(s, c).0)
  {
    hide Inv, CondTimedwait, Joined, Without;
    var s1 := CondLeave(s, c);
    CondLeaveKeeps(s, c);
    ResumedThread(s);
    CallingCurrent(s1);
    ReturnSame(s1, CondResult(Th(s, s.current)));
    BlockedPlace(s1, c, None);
    if c.Term? && Th(s1, c.thread).state == Zombie {
      JoinedPlace(s1, c.thread);
    }
  }

  lemma IdleMyself(s: State, r: Selected, now: nat)
    requires Inv(s) && s.current == s.idle && s.lastClock <= now
    ensures SameJoinable(s, IdleRound(s, r, now))
  {
    hide *;
    var s1, woken := RoundEffect(s, r, now);
    RoundIs(s, r, now);
    RoundThreads(s, r, now);
    ScheduleSame(Round(s, r, now));
    LookedJoinable(s, s1, CheckClock(VpIdle(s, r), now), woken, Round(s, r, now));
    ScheduledJoinable(s, Round(s, r, now), s.idle);
  }

  lemma RoundThreads(s: State, r: Selected, now: nat)
    ensures var s2 := CheckClock(VpIdle(s, r), now);
            Round(s, r, now).threads == Put(s2, s.idle, Th(s2, s.idle).(state := Runnable)).threads
  {
    hide CheckClock, VpIdle;
  }

  lemma LookedJoinable(s: State, s1: State, s2: State, woken: seq<Tid>, s3: State)
    requires LookedOk(s, s1, s.idle) && Expired(s1, s2, woken)
    requires Only(s2, s3, s.idle) && s3.threads == Put(s2, s.idle, Th(s2, s.idle).(state := Runnable)).threads
    ensures Th(s3, s.idle).joinable == Th(s, s.idle).joinable
  {
    assert s.idle in woken || s.idle !in woken;
  }

  lemma ScheduledJoinable(s: State, s3: State, t: Tid)
    requires s.current == t && Th(s3, t).joinable == Th(s, t).joinable
    ensures SameJoinable(s, Schedule(s3))
  {
  }

  lemma MyPlace(s: State, e: Event)
    requires Inv(s) && Enabled(s, e)
    ensures Goes(s, e, ContOf(Next(s, e).0, s.current))
    ensures ContOf(s, s.current).InExit? || SameJoinable(s, Next(s, e).0)
  {
    hide Inv, Perform, GoOn, IdleRound, CallOk;
    match e
    case Do(call) =>
      if call.CUsleep? || call.CCondWait? || call.CPoll? || call.CLock? || call.CTrylock? {
        MyCallPlace(s, call);
      } else {
        MyOtherPlace(s, call);
      }
    case Resume => ResumePlace(s);
    case Idle(r, now) =>
      IdleConts(s, r, now);
      IdleMyself(s, r, now);
  }

  // ----- The flag of a waiting thread -----

  /** A waiting thread has no interrupt pending. */
  predicate Unflagged(s: State, t: Tid) {
    IsWaiting(Th(s, t)) ==> !Th(s, t).interrupt
  }

  lemma BlockedUnflagged(s: State, c: Cond, timeout: Option<nat>)
    requires s.current in s.threads && ContOf(s, s.current).InProgram? && !CondTimedwait(s, c, timeout).0.fault
    requires ContOf(CondTimedwait(s, c, timeout).0, s.current) == InCondWait(c)
    ensures !Th(CondTimedwait(s, c, timeout).0, s.current).interrupt
  {
    hide Schedule, Timed;
    var s1 := Block(s, CondWait, InCondWait(c)).(conds := s.conds[c := CondQ(s, c) + [s.current]]);
    TimedFlag(s1, timeout);
    ScheduledThread(Timed(s1, s.current, timeout), s.current);
  }

  lemma TimedFlag(s: State, timeout: Option<nat>)
    requires s.current in s.threads
    ensures Th(Timed(s, s.current, timeout), s.current).interrupt == Th(s, s.current).interrupt
  {
    hide SQ.Add, SQ.Valid;
  }

  lemma UsleepUnflagged(s: State, usecs: nat)
    requires s.current in s.threads && ContOf(s, s.current).InProgram? && !Usleep(s, usecs).0.fault
    requires ContOf(Usleep(s, usecs).0, s.current).InUsleep?
    ensures !Th(Usleep(s, usecs).0, s.current).interrupt
  {
    hide Schedule, Timed;
    var s1 := Block(s, Sleeping, InUsleep);
    TimedFlag(s1, Some(usecs));
    ScheduledThread(Timed(s1, s.current, Some(usecs)), s.current);
  }

  lemma PollUnflagged(s: State, pds: seq<IO.PollFd>, timeout: Option<nat>)
    requires s.current in s.threads && ContOf(s, s.current).InProgram? && IO.Legal(s.fds, pds)
    requires !Poll(s, pds, timeout).0.fault && ContOf(Poll(s, pds, timeout).0, s.current).InPoll?
    ensures !Th(Poll(s, pds, timeout).0, s.current).interrupt
  {
    hide Schedule, Timed, IO.Register, IO.Legal;
    var s1 := Block(s, IoWait, InPoll(pds, true, [])).(io := IO.Register(s.fds, s.io, IO.Request(s.current, pds)));
    TimedFlag(s1, timeout);
    ScheduledThread(Timed(s1, s.current, timeout), s.current);
  }

  lemma LockUnflagged(s: State, m: nat)
    requires s.current in s.threads && ContOf(s, s.current).InProgram? && !Lock(s, m).0.fault
    requires ContOf(Lock(s, m).0, s.current).InLock?
    ensures !Th(Lock(s, m).0, s.current).interrupt
  {
    hide Schedule;
    var x := MutexOf(s, m);
    var s1 := PutMutex(Block(s, LockWait, InLock(m)), m, x.(waitq := x.waitq + [s.current]));
    assert Th(s1, s.current).interrupt == Th(s, s.current).interrupt;
    assert Lock(s, m).0 == Schedule(s1) && !Interrupted(s);
    ScheduledThread(s1, s.current);
  }

  /** A place where a thread waits. */
  predicate WaitCont(k: Cont) {
    k.InUsleep? || k.InCondWait? || k.InLock? || k.InPoll?
  }

  /** The ways into a wait. */
  lemma WaitsBy(s: State, e: Event, k: Cont)
    requires Goes(s, e, k) && WaitCont(k)
    ensures match e
            case Do(CUsleep(_)) => k.InUsleep?
            case Do(CCondWait(c, _)) => k == InCondWait(User(c))
            case Do(CLock(m)) => k == InLock(m)
            case Do(CPoll(_, _)) => k.InPoll?
            case Do(CJoin(t)) => k == InCondWait(Term(t))
            case Resume => k == ContOf(s, s.current) && k.InCondWait? && k.cond.Term?
            case _ => false
  {
  }

  lemma JoinUnflagged(s: State, t: Tid)
    requires Calling(s) && ContOf(Join(s, t).0, s.current) == InCondWait(Term(t)) && !Join(s, t).0.fault
    ensures !Th(Join(s, t).0, s.current).interrupt
  {
    hide Inv, CondTimedwait, Joined, CondQ;
    JoinParts(s, t);
    CallingCurrent(s);
    if Join(s, t) == CondTimedwait(s, Term(t), None) {
      BlockedUnflagged(s, Term(t), None);
    } else if Th(s, t).state == Zombie {
      JoinedPlace(s, t);
    }
  }

  lemma JoinEndUnflagged(s: State, t: Tid)
    requires Inv(s) && ContOf(s, s.current) == InCondWait(Term(t)) && !CondEnd(s, Term(t)).0.fault
    requires ContOf(CondEnd(s, Term(t)).0, s.current) == InCondWait(Term(t))
    ensures !Th(CondEnd(s, Term(t)).0, s.current).interrupt
  {
    hide Inv, CondTimedwait, Joined, CondLeave;
    var s1 := CondLeave(s, Term(t));
    CondLeaveKeeps(s, Term(t));
    CondLeaveOnly(s, Term(t));
    CallingCurrent(s1);
    ReturnSame(s1, CondResult(Th(s, s.current)));
    if CondEnd(s, Term(t)) == CondTimedwait(s1, Term(t), None) {
      BlockedUnflagged(s1, Term(t), None);
    } else if Th(s1, t).state == Zombie {
      JoinedPlace(s1, t);
    }
  }

  lemma WaitsInPlace(s: State, t: Tid)
    requires Inv(s) && IsWaiting(Th(s, t))
    ensures WaitCont(ContOf(s, t))
  {
    assert LinkOk(s, Some(s.current), t);
  }

  /** The thread that takes a step is left waiting only without an interrupt. */
  lemma MyFlag(s: State, e: Event)
    requires Inv(s) && Enabled(s, e)
    ensures Unflagged(Next(s, e).0, s.current)
  {
    hide Inv, Usleep, CondTimedwait, Lock, Poll, Join, CondEnd, Goes, IdleRound, IO.Legal;
    var s' := Next(s, e).0;
    MyPlace(s, e);
    NextKeeps(s, e);
    NoFault(s');
    if IsWaiting(Th(s', s.current)) {
      WaitsInPlace(s', s.current);
      WaitsBy(s, e, ContOf(s', s.current));
      if e.Do? {
        CallingCurrent(s);
      }
      match e
      case Do(CUsleep(usecs)) => UsleepUnflagged(s, usecs);
      case Do(CCondWait(c, timeout)) => BlockedUnflagged(s, User(c), timeout);
      case Do(CLock(m)) => LockUnflagged(s, m);
      case Do(CPoll(pds, timeout)) => PollUnflagged(s, pds, timeout);
      case Do(CJoin(t)) => JoinUnflagged(s, t);
      case Resume => JoinEndUnflagged(s, ContOf(s, s.current).cond.thread);
      case _ =>
    }
  }

  /** No step leaves a thread waiting with an interrupt pending. */
  lemma KeepsUnflagged(s: State, e: Event, t: Tid)
    requires Inv(s) && Enabled(s, e) && Unflagged(s, t)
    ensures Unflagged(Next(s, e).0, t)
  {
    hide Inv, Next, Enabled, Change;
    if t == s.current {
      MyFlag(s, e);
    } else {
      StepChange(s, e);
      assert ChangeOk(s, e, Next(s, e).0, t);
      FlagChange(s, e, t, Norm(Th(s, t)), Norm(Th(Next(s, e).0, t)));
    }
  }

  lemma FlagChange(s: State, e: Event, t: Tid, th: Thread, th': Thread)
    requires Change(s, e, t, th, th') && (IsWaiting(th) ==> !th.interrupt)
    ensures IsWaiting(th') ==> !th'.interrupt
  {
  }

  lemma {:induction false} RunUnflagged(states: seq<State>, events: seq<Event>, n: nat, t: Tid)
    requires IsRun(states, events) && n <= |events|
    ensures Unflagged(states[n], t)
  {
    hide Inv, Next, Enabled, Unflagged;
    if n == 0 {
      FirstUnflagged(states, events, t);
    } else {
      RunUnflagged(states, events, n - 1, t);
      RunStep(states, events, n - 1);
      KeepsUnflagged(states[n - 1], events[n - 1], t);
    }
  }

  lemma FirstUnflagged(states: seq<State>, events: seq<Event>, t: Tid)
    requires IsRun(states, events)
    ensures Unflagged(states[0], t)
  {
  }
}
