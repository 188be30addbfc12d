/** What each step of the scheduler does to the threads other than the one that takes it. */
module SchedulerEffects {
  import opened Wrappers
  import opened Queues
  import opened Scheduler
  import opened SchedulerInvariant
  import opened SchedulerSteps
  import SQ = SleepQueue
  import IO = IoQueue

  /** A thread as it is whether or not it has been given the processor. */
  function Norm(th: Thread): Thread {
    if th.state == Running then th.(state := Runnable) else th
  }

  /** A thread that was interrupted. */
  function InterruptedBy(th: Thread): Thread {
    if th.state == Zombie then th
    else if IsWaiting(th) then th.(interrupt := true, state := Runnable, onSleepq := false)
    else th.(interrupt := true)
  }

  /** A thread whose I/O is ready. */
  predicate Notified(th: Thread, th': Thread) {
    && th.state == IoWait && th.cont.InPoll? && th'.cont.InPoll? && !th'.cont.onIoq
    && th' == th.(state := Runnable, onSleepq := false, cont := th'.cont)
  }

  const NEWBORN := Thread(Runnable, Begin, false, false, false, false, 0)

  /** What a step may do to another thread: it releases it for the reason that goes with the step, or nothing. */
  predicate Change(s: State, e: Event, t: Tid, th: Thread, th': Thread) {
    if e == Do(CInterrupt(t)) then th' == InterruptedBy(th) else th' == th || Release(s, e, t, th, th')
  }

  predicate Release(s: State, e: Event, t: Tid, th: Thread, th': Thread) {
    match e
    case Do(CCondSignal(c, _)) =>
      th.cont == InCondWait(User(c)) && th.state == CondWait && th' == Signalled(th)
    case Do(CExit(_)) =>
      th.cont == InCondWait(Term(s.current)) && th.state == CondWait && th' == Signalled(th)
    case Do(CUnlock(m)) => th.cont == InLock(m) && th.state == LockWait && th' == th.(state := Runnable)
    case Do(CJoin(u)) => u == t && th.state == Zombie && th' == th.(state := Runnable)
    case Do(CCreate(u, joinable)) => u == t && th.cont.Absent? && th' == NEWBORN.(joinable := joinable)
    case Resume =>
      ContOf(s, s.current) == InCondWait(Term(t)) && th.state == Zombie && th' == th.(state := Runnable)
    case Idle(_, _) => Notified(th, th') || (th.onSleepq && th' == TimedOut(th))
    case _ => false
  }

  predicate ChangeOk(s: State, e: Event, s': State, t: Tid) {
    t == s.current || Change(s, e, t, Norm(Th(s, t)), Norm(Th(s', t)))
  }

  // ----- Switching -----

  predicate SameNorm(s: State, s': State, t: Tid) {
    Norm(Th(s', t)) == Norm(Th(s, t))
  }

  /** The scheduler gives the processor to a thread and changes nothing else. */
  lemma ScheduleNorm(s: State)
    requires !Schedule(s).fault
    ensures var s' := Schedule(s);
            && (forall t :: SameNorm(s, s', t)) && s'.conds == s.conds && s'.mutexes == s.mutexes
            && s'.zombieq == s.zombieq
  {
  }

  lemma OnlyNorm(s: State, s': State)
    requires Only(s, s', s.current)
    ensures forall t :: t != s.current ==> SameNorm(s, s', t)
  {
  }

  lemma TimedOnly(s: State, timeout: Option<nat>)
    ensures var s' := Timed(s, s.current, timeout);
            Only(s, s', s.current) && s'.conds == s.conds && s'.mutexes == s.mutexes && s'.zombieq == s.zombieq
  {
  }

  /** A step of the current thread alone, with or without a switch. */
  lemma AloneOk(s: State, e: Event, s2: State, s': State)
    requires Only(s, s2, s.current) && (s' == s2 || (s' == Schedule(s2) && !s'.fault))
    requires e.Do? ==> !e.call.CInterrupt?
    ensures forall t :: ChangeOk(s, e, s', t)
  {
    hide Norm, Th, Schedule;
    OnlyNorm(s, s2);
    if s' != s2 {
      ScheduleNorm(s2);
    }
    forall t ensures ChangeOk(s, e, s', t) {
      assert t == s.current || (SameNorm(s, s2, t) && (s' == s2 || SameNorm(s2, s', t)));
    }
  }

  lemma ReturnOnly(s: State, r: Result)
    ensures Only(s, Return(s, r).0, s.current) && Only(s, TakeInterrupt(s), s.current)
    ensures Return(s, r).0.current == s.current && TakeInterrupt(s).current == s.current
  {
  }

  /** Calls and ends of calls that change no other thread. */
  predicate Alone(s: State, e: Event) {
    match e
    case Do(CUsleep(_)) => true
    case Do(CCondWait(_, _)) => true
    case Do(CLock(_)) => true
    case Do(CTrylock(_)) => true
    case Do(CPoll(_, _)) => true
    case Resume => !ContOf(s, s.current).InCondWait?
    case _ => false
  }

  lemma AloneChange(s: State, e: Event)
    requires Inv(s) && Enabled(s, e) && Alone(s, e)
    ensures forall t :: ChangeOk(s, e, Next(s, e).0, t)
  {
    var s' := Next(s, e).0;
    NextKeeps(s, e);
    var s2 := AloneState(s, e);
    hide Inv, Schedule, Next, Enabled;
    AloneOk(s, e, s2, s');
  }

  /** The state before the switch. */
  lemma AloneState(s: State, e: Event) returns (s2: State)
    requires Enabled(s, e) && Alone(s, e)
    ensures Only(s, s2, s.current)
    ensures Next(s, e).0 == s2 || Next(s, e).0 == Schedule(s2)
  {
    hide GoOn, Perform, Schedule, Only, CallOk;
    if e.Resume? {
      s2 := ResumeState(s);
    } else {
      s2 := CallState(s, e.call);
    }
  }

  lemma ResumeState(s: State) returns (s2: State)
    requires !ContOf(s, s.current).InCondWait?
    ensures Only(s, s2, s.current)
    ensures GoOn(s).0 == s2 || GoOn(s).0 == Schedule(s2)
  {
    hide Schedule, LockEnd, PollEnd, UsleepEnd, ExitEnd;
    match ContOf(s, s.current)
    case InExit =>
      s2 := Put(s, s.current, Th(s, s.current).(joinable := false, cont := Gone));
      ExitEndIs(s);
    case InLock(m) =>
      s2 := GoOn(s).0;
      LockEndOnly(s, m);
    case InPoll(_, _, _) =>
      s2 := GoOn(s).0;
      PollEndOnly(s);
    case InUsleep =>
      s2 := GoOn(s).0;
      UsleepEndIs(s);
    case _ =>
      s2 := GoOn(s).0;
  }

  lemma ExitEndIs(s: State)
    ensures ExitEnd(s) == Schedule(Put(s, s.current, Th(s, s.current).(joinable := false, cont := Gone)))
  {
  }

  lemma LockEndOnly(s: State, m: nat)
    ensures Only(s, LockEnd(s, m).0, s.current)
  {
    hide Without;
  }

  lemma PollEndOnly(s: State)
    requires ContOf(s, s.current).InPoll?
    ensures Only(s, PollEnd(s).0, s.current)
  {
    hide IO.Release, CanRelease, CountReady;
  }

  lemma CallState(s: State, call: Call) returns (s2: State)
    requires CallOk(s, call) && Alone(s, Do(call))
    ensures Only(s, s2, s.current)
    ensures Perform(s, call).0 == s2 || Perform(s, call).0 == Schedule(s2)
  {
    hide Schedule, Timed, IO.Register, IO.Legal;
    if Perform(s, call).1.Some? {
      s2 := Perform(s, call).0;
      ReturnedOnly(s, call);
    } else {
      s2 := Waiting(s, call);
      WaitingOnly(s, call);
    }
  }

  lemma ReturnedOnly(s: State, call: Call)
    requires CallOk(s, call) && Alone(s, Do(call)) && Perform(s, call).1.Some?
    ensures Only(s, Perform(s, call).0, s.current)
  {
    hide Schedule, Timed, IO.Register, IO.Legal, Lock, Trylock;
    match call
    case CLock(m) => LockReturnsOnly(s, m);
    case CTrylock(m) => LockReturnsOnly(s, m);
    case _ =>
  }

  lemma LockReturnsOnly(s: State, m: nat)
    ensures Lock(s, m).1.Some? ==> Only(s, Lock(s, m).0, s.current)
    ensures Only(s, Trylock(s, m).0, s.current)
  {
    hide Schedule;
  }

  /** A call up to its switch. */
  function Waiting(s: State, call: Call): State
    requires CallOk(s, call)
  {
    match call
    case CUsleep(usecs) => Timed(Block(s, Sleeping, InUsleep), s.current, Some(usecs))
    case CCondWait(c, timeout) => CondWaiting(s, User(c), timeout)
    case CLock(m) =>
      PutMutex(Block(s, LockWait, InLock(m)), m, MutexOf(s, m).(waitq := MutexOf(s, m).waitq + [s.current]))
    case CPoll(pds, timeout) =>
      Timed(Block(s, IoWait, InPoll(pds, true, [])).(io := IO.Register(s.fds, s.io, IO.Request(s.current, pds))),
            s.current, timeout)
    case _ => s
  }

  function CondWaiting(s: State, c: Cond, timeout: Option<nat>): State {
    Timed(Block(s, CondWait, InCondWait(c)).(conds := s.conds[c := CondQ(s, c) + [s.current]]), s.current, timeout)
  }

  lemma WaitingOnly(s: State, call: Call)
    requires CallOk(s, call)
    ensures Only(s, Waiting(s, call), s.current)
  {
    hide IO.Register, IO.Legal, AddSleepQ;
    match call
    case CUsleep(usecs) => TimedOnly(Block(s, Sleeping, InUsleep), Some(usecs));
    case CCondWait(c, timeout) => CondWaitingOnly(s, User(c), timeout);
    case CPoll(pds, timeout) =>
      TimedOnly(Block(s, IoWait, InPoll(pds, true, [])).(io := IO.Register(s.fds, s.io, IO.Request(s.current, pds))), timeout);
    case _ =>
  }

  lemma CondWaitingOnly(s: State, c: Cond, timeout: Option<nat>)
    ensures Only(s, CondWaiting(s, c, timeout), s.current)
    ensures CondBlock(s, c, timeout) == Schedule(CondWaiting(s, c, timeout))
    ensures CondWaiting(s, c, timeout).conds == s.conds[c := CondQ(s, c) + [s.current]]
    ensures CondWaiting(s, c, timeout).mutexes == s.mutexes
  {
    hide AddSleepQ;
    TimedOnly(Block(s, CondWait, InCondWait(c)).(conds := s.conds[c := CondQ(s, c) + [s.current]]), timeout);
  }

  // ----- Signals -----

  /** The waiters in q, not yet given the processor. */
  lemma SignalledOk(s: State, e: Event, s1: State, s2: State, s': State, c: Cond)
    requires Only(s, s1, s.current) && SomeWoken(s1, s2, CondQ(s1, c)) && (s' == s2 || (s' == Schedule(s2) && !s'.fault))
    requires forall t :: t in CondQ(s1, c) && t != s.current ==> ContOf(s, t) == InCondWait(c)
    requires (e.Do? && e.call.CCondSignal? && c == User(e.call.cond)) || (e.Do? && e.call.CExit? && c == Term(s.current))
    ensures forall t :: ChangeOk(s, e, s', t)
  {
    hide Schedule, CondQ;
    if s' != s2 {
      ScheduleNorm(s2);
    }
    forall t ensures ChangeOk(s, e, s', t) {
      assert s' == s2 || SameNorm(s2, s', t);
    }
  }

  lemma SignalChange(s: State, e: Event)
    requires Inv(s) && Enabled(s, e) && e.Do? && e.call.CCondSignal?
    ensures forall t :: ChangeOk(s, e, Next(s, e).0, t)
  {
    hide Inv, Core, Signal, SomeWoken;
    var c := User(e.call.cond);
    InvCore(s);
    InvLinks(s);
    SignalKeeps(s, Some(s.current), CondQ(s, c), e.call.broadcast);
    SignalCallKeeps(s, c, e.call.broadcast);
    ReturnSame(CondSignal(s, c, e.call.broadcast), Ok(0));
    forall t | t in CondQ(s, c) ensures ContOf(s, t) == InCondWait(c) {
      assert CondOk(s, c, t);
    }
    SignalledOk(s, e, s, Next(s, e).0, Next(s, e).0, c);
  }

  /** The exit of a joinable thread up to its switch. */
  function Dying(s: State, retval: int): State {
    Put(s, s.current, Th(s, s.current).(retval := retval, state := Zombie, cont := InExit))
      .(zombieq := s.zombieq + [s.current])
  }

  lemma ExitIs(s: State, retval: int)
    ensures Exit(s, retval)
         == if Th(s, s.current).joinable then Schedule(CondSignal(Dying(s, retval), Term(s.current), false))
            else Schedule(Put(s, s.current, Th(s, s.current).(retval := retval, cont := Gone)))
  {
  }

  lemma DyingKeeps(s: State, retval: int)
    requires Calling(s) && Th(s, s.current).joinable
    ensures var s1 := Dying(s, retval);
            && Core(s1, None) && Only(s, s1, s.current) && s1.current == s.current && s1.conds == s.conds
            && SomeWoken(s1, CondSignal(s1, Term(s.current), false), CondQ(s1, Term(s.current)))
  {
    hide Inv, Core, Signal, SomeWoken;
    var s1 := Dying(s, retval);
    CallingThread(s);
    LeaveLinks(s, s1);
    LeaveKeeps(s, s1);
    SignalKeeps(s1, None, CondQ(s1, Term(s.current)), false);
  }

  lemma ExitStep(s: State, e: Event)
    requires Inv(s) && Enabled(s, e) && e.Do? && e.call.CExit?
    ensures Next(s, e).0 == Exit(s, e.call.retval) && !Next(s, e).0.fault && Calling(s)
  {
    NextKeeps(s, e);
    hide Core, Exit;
  }

  lemma ExitJoinable(s: State, e: Event, s': State)
    requires e.Do? && e.call.CExit? && Calling(s) && Th(s, s.current).joinable
    requires s' == Schedule(CondSignal(Dying(s, e.call.retval), Term(s.current), false)) && !s'.fault
    ensures forall t :: ChangeOk(s, e, s', t)
  {
    hide *;
    var c, s1 := Term(s.current), Dying(s, e.call.retval);
    DyingKeeps(s, e.call.retval);
    TermWaiters(s, s1, c);
    SignalledOk(s, e, s1, CondSignal(s1, c, false), s', c);
  }

  lemma TermWaiters(s: State, s1: State, c: Cond)
    requires Calling(s) && s1.conds == s.conds
    ensures forall t :: t in CondQ(s1, c) ==> ContOf(s, t) == InCondWait(c)
  {
    hide Inv, Core;
    InvLinks(s);
    forall t | t in CondQ(s1, c) ensures ContOf(s, t) == InCondWait(c) {
      assert CondOk(s, c, t);
    }
  }

  lemma ExitAlone(s: State, e: Event, s': State)
    requires e.Do? && e.call.CExit?
    requires s' == Schedule(Put(s, s.current, Th(s, s.current).(retval := e.call.retval, cont := Gone))) && !s'.fault
    ensures forall t :: ChangeOk(s, e, s', t)
  {
    hide Schedule, ChangeOk;
    AloneOk(s, e, Put(s, s.current, Th(s, s.current).(retval := e.call.retval, cont := Gone)), s');
  }

  lemma ExitChange(s: State, e: Event)
    requires Inv(s) && Enabled(s, e) && e.Do? && e.call.CExit?
    ensures forall t :: ChangeOk(s, e, Next(s, e).0, t)
  {
    hide *;
    ExitStep(s, e);
    ExitIs(s, e.call.retval);
    if Th(s, s.current).joinable {
      ExitJoinable(s, e, Next(s, e).0);
    } else {
      ExitAlone(s, e, Next(s, e).0);
    }
  }

  // ----- Interrupt, hand-off, creation -----

  lemma InterruptEffect(s: State, r: Option<Tid>, t: Tid)
    requires Core(s, r) && !Dead(ContOf(s, t))
    ensures Only(s, Interrupt(s, t), t) && Th(Interrupt(s, t), t) == InterruptedBy(Th(s, t))
    ensures Interrupt(s, t).conds == s.conds && Interrupt(s, t).mutexes == s.mutexes
  {
    hide Core, Wake, Flagged;
    FlagKeeps(s, r, t);
    FlagEffect(s, t);
    InterruptIs(s, t);
    TimedoutActive(s, r, t);
    if IsWaiting(Th(s, t)) {
      WakeKeeps(Flagged(s, t), r, t);
    }
  }

  lemma TimedoutActive(s: State, r: Option<Tid>, t: Tid)
    requires Core(s, r)
    ensures IsWaiting(Th(s, t)) ==> !Th(s, t).timedout
  {
    assert LinkOk(s, r, t);
  }

  lemma InterruptChange(s: State, e: Event)
    requires Inv(s) && Enabled(s, e) && e.Do? && e.call.CInterrupt?
    ensures forall t :: ChangeOk(s, e, Next(s, e).0, t)
    ensures Only(s, Next(s, e).0, e.call.thread)
  {
    hide *;
    var t := e.call.thread;
    var s' := Interrupt(s, t);
    InterruptIsCall(s, e);
    InvCore(s);
    InterruptEffect(s, Some(s.current), t);
    InterruptCallKeeps(s, t);
    ReturnSame(s', Ok(0));
    forall u ensures ChangeOk(s, e, s', u) {
      InterruptedOk(s, e, s', u);
    }
  }

  lemma InterruptIsCall(s: State, e: Event)
    requires Inv(s) && Enabled(s, e) && e.Do? && e.call.CInterrupt?
    ensures Calling(s) && !Dead(ContOf(s, e.call.thread))
    ensures Next(s, e) == Return(Interrupt(s, e.call.thread), Ok(0))
  {
    hide Inv, Interrupt, Return;
  }

  lemma InterruptedOk(s: State, e: Event, s': State, u: Tid)
    requires e.Do? && e.call.CInterrupt? && Only(s, s', e.call.thread)
    requires Th(s', e.call.thread) == InterruptedBy(Th(s, e.call.thread))
    ensures ChangeOk(s, e, s', u)
  {
  }

  /** Only the first waiter in LOCK_WAIT is handed the mutex. */
  lemma {:induction false} HandOffEffect(s: State, m: nat, q: seq<Tid>)
    ensures var s' := HandOff(s, m, q);
            && s'.conds == s.conds
            && LockQ(s', m) == LockQ(s, m) && (forall n :: n != m ==> MutexOf(s', n) == MutexOf(s, n))
            && (Owner(s', m) == None
                ==> s'.threads == s.threads && forall i :: 0 <= i < |q| ==> Th(s, q[i]).state != LockWait)
            && (Owner(s', m).Some? ==>
                  exists i :: 0 <= i < |q| && Owner(s', m) == Some(q[i]) && Th(s, q[i]).state == LockWait
                       && (forall j :: 0 <= j < i ==> Th(s, q[j]).state != LockWait)
                       && Only(s, s', q[i]) && Th(s', q[i]) == Th(s, q[i]).(state := Runnable))
    decreases q
  {
    if q != [] {
      if Th(s, q[0]).state == LockWait {
        assert q[0] == q[0];
        var s' := HandOff(s, m, q);
        assert Owner(s', m) == Some(q[0]) && Only(s, s', q[0]);
      } else {
        HandOffEffect(s, m, q[1..]);
        hide HandOff, Owner, LockQ, MutexOf;
        var s' := HandOff(s, m, q[1..]);
        HandOffNext(s, m, q);
        if Owner(s', m).Some? {
          var i :| 0 <= i < |q[1..]| && Owner(s', m) == Some(q[1..][i]) && Th(s, q[1..][i]).state == LockWait
                   && (forall j :: 0 <= j < i ==> Th(s, q[1..][j]).state != LockWait)
                   && Only(s, s', q[1..][i]) && Th(s', q[1..][i]) == Th(s, q[1..][i]).(state := Runnable);
          assert q[i + 1] == q[1..][i];
        }
      }
    }
  }

  lemma HandOffNext(s: State, m: nat, q: seq<Tid>)
    requires q != [] && Th(s, q[0]).state != LockWait
    ensures HandOff(s, m, q) == HandOff(s, m, q[1..])
  {
  }

  /** The thread that is handed the mutex, if any. */
  lemma HandedOk(s: State, m: nat)
    requires LocksOk(s)
    ensures var s' := HandOff(s, m, LockQ(s, m));
            Owner(s', m).Some? ==>
              var t := Owner(s', m).value;
              && t in LockQ(s, m) && ContOf(s, t) == InLock(m) && Th(s, t).state == LockWait
              && Only(s, s', t) && Th(s', t) == Th(s, t).(state := Runnable)
    ensures Owner(HandOff(s, m, LockQ(s, m)), m) == None ==> HandOff(s, m, LockQ(s, m)).threads == s.threads
  {
    hide HandOff, LockQ, Owner, LocksOk;
    var q, s' := LockQ(s, m), HandOff(s, m, LockQ(s, m));
    HandOffEffect(s, m, q);
    if Owner(s', m).Some? {
      LockPlace(s, m, Owner(s', m).value);
    }
  }

  lemma UnlockIs(s: State, e: Event)
    requires Inv(s) && Enabled(s, e) && e.Do? && e.call.CUnlock?
    ensures Calling(s)
    ensures var m := e.call.mutex;
            Next(s, e) == if Owner(s, m) == Some(s.current) then Return(HandOff(s, m, LockQ(s, m)), Ok(0))
                          else Return(s, Err(EPERM))
  {
    hide Inv, HandOff, Return;
  }

  lemma UnlockChange(s: State, e: Event)
    requires Inv(s) && Enabled(s, e) && e.Do? && e.call.CUnlock?
    ensures forall t :: ChangeOk(s, e, Next(s, e).0, t)
  {
    hide *;
    var m, s' := e.call.mutex, Next(s, e).0;
    UnlockIs(s, e);
    InvLinks(s);
    if Owner(s, m) == Some(s.current) {
      UnlockedCalling(s, m);
      ReturnSame(HandOff(s, m, LockQ(s, m)), Ok(0));
      HandedOk(s, m);
      forall t ensures ChangeOk(s, e, s', t) {
        UnlockedOk(s, e, s', t);
      }
    } else {
      ReturnSame(s, Err(EPERM));
      forall t ensures ChangeOk(s, e, s', t) {
        NothingOk(s, e, t);
      }
    }
  }

  lemma NothingOk(s: State, e: Event, t: Tid)
    requires e.Do? ==> !e.call.CInterrupt?
    ensures ChangeOk(s, e, s, t)
  {
  }

  lemma UnlockedOk(s: State, e: Event, s': State, t: Tid)
    requires e.Do? && e.call.CUnlock?
    requires var m := e.call.mutex;
             && (Owner(s', m).Some? ==>
                   var u := Owner(s', m).value;
                   && ContOf(s, u) == InLock(m) && Th(s, u).state == LockWait
                   && Only(s, s', u) && Th(s', u) == Th(s, u).(state := Runnable))
             && (Owner(s', m) == None ==> s'.threads == s.threads)
    ensures ChangeOk(s, e, s', t)
  {
  }

  lemma UnlockedCalling(s: State, m: nat)
    requires Calling(s) && Owner(s, m) == Some(s.current)
    ensures Calling(HandOff(s, m, LockQ(s, m)))
  {
    hide HandOff, Core;
    CallingThread(s);
    HandOffKeeps(s, Some(s.current), s.current, m, LockQ(s, m));
  }

  lemma CreateChange(s: State, e: Event)
    requires Inv(s) && Enabled(s, e) && e.Do? && e.call.CCreate?
    ensures forall t :: ChangeOk(s, e, Next(s, e).0, t)
  {
    hide Inv;
    CreateKeeps(s, e.call.thread, e.call.joinable);
    ReturnSame(Create(s, e.call.thread, e.call.joinable), Ok(e.call.thread));
  }

  // ----- Joining -----

  /** The joined thread, before the joiner returns. */
  lemma JoinedEffect(s: State, t: Tid)
    requires Calling(s) && Th(s, t).state == Zombie
    ensures var s' := Joined(s, t).0;
            Only(s, s', t) && Th(s', t) == Th(s, t).(state := Runnable) && s'.conds == s.conds && s'.mutexes == s.mutexes
  {
    var s1 := MakeRunnable(s.(zombieq := Without(s.zombieq, t)), t);
    MakeRunnableEffect(s.(zombieq := Without(s.zombieq, t)), t);
    CallingThread(s);
    hide Inv, MakeRunnable, Without;
    JoinedReturn(s1, s.current, Ok(Th(s, t).retval));
  }

  lemma JoinedReturn(s: State, me: Tid, r: Result)
    requires s.current == me && me in s.threads && ContOf(s, me).InProgram?
    ensures Return(s, r).0 == s
  {
    assert s.threads[me := s.threads[me]] == s.threads;
  }

  /** After some step of the current thread, it takes a zombie off its queue, waits, or returns. */
  lemma JoinStep(s: State, e: Event, s1: State, t: Tid, s': State)
    requires Only(s, s1, s.current) && s1.current == s.current && Calling(s1)
    requires (e.Do? && e.call == CJoin(t)) || (e.Resume? && ContOf(s, s.current) == InCondWait(Term(t)))
    requires (Th(s1, t).state == Zombie && s' == Joined(s1, t).0)
             || (s' == CondTimedwait(s1, Term(t), None).0 && !s'.fault) || s' == s1
    ensures forall u :: ChangeOk(s, e, s', u)
  {
    hide Inv, Joined, CondTimedwait, Schedule;
    if Th(s1, t).state == Zombie && s' == Joined(s1, t).0 {
      JoinedEffect(s1, t);
    } else if s' == s1 {
      AloneOk(s, e, s1, s');
    } else {
      TimedwaitOnly(s1, Term(t), s');
      var s2 := if Interrupted(s1) then s' else CondWaiting(s1, Term(t), None);
      hide CondWaiting;
      AloneOk(s, e, s2, s');
    }
  }

  lemma TimedwaitOnly(s: State, c: Cond, s': State)
    requires s' == CondTimedwait(s, c, None).0
    ensures if Interrupted(s) then Only(s, s', s.current)
            else s' == Schedule(CondWaiting(s, c, None)) && Only(s, CondWaiting(s, c, None), s.current)
  {
    hide CondBlock, CondWaiting, Schedule;
    CondWaitingOnly(s, c, None);
    ReturnOnly(s, Err(EINTR));
  }

  lemma JoinIs(s: State, e: Event)
    requires Inv(s) && Enabled(s, e) && e.Do? && e.call.CJoin?
    ensures var t, s' := e.call.thread, Next(s, e).0;
            && Calling(s)
            && ((Th(s, t).state == Zombie && s' == Joined(s, t).0)
                || s' == CondTimedwait(s, Term(t), None).0
                || s' == Return(s, Err(EINVAL)).0 || s' == Return(s, Err(EDEADLK)).0)
  {
    hide Inv, Joined, CondTimedwait, Return;
  }

  lemma JoinChange(s: State, e: Event)
    requires Inv(s) && Enabled(s, e) && e.Do? && e.call.CJoin?
    ensures forall t :: ChangeOk(s, e, Next(s, e).0, t)
  {
    hide *;
    var t, s' := e.call.thread, Next(s, e).0;
    JoinIs(s, e);
    NextKeeps(s, e);
    InvLinks(s');
    ReturnSame(s, Err(EINVAL));
    ReturnSame(s, Err(EDEADLK));
    OnlyNobody(s);
    JoinStep(s, e, s, t, s');
  }

  lemma OnlyNobody(s: State)
    ensures Only(s, s, s.current)
  {
  }

  lemma CondLeaveOnly(s: State, c: Cond)
    ensures Only(s, CondLeave(s, c), s.current) && CondLeave(s, c).current == s.current
  {
    hide Without;
  }

  lemma CondEndChange(s: State, e: Event)
    requires Inv(s) && Enabled(s, e) && e.Resume? && ContOf(s, s.current).InCondWait?
    ensures forall t :: ChangeOk(s, e, Next(s, e).0, t)
  {
    hide Inv, Joined, CondTimedwait, CondLeave;
    var c, s' := ContOf(s, s.current).cond, Next(s, e).0;
    var s1 := CondLeave(s, c);
    NextKeeps(s, e);
    assert !s'.fault by {
      InvLinks(s');
    }
    CondLeaveKeeps(s, c);
    CondLeaveOnly(s, c);
    ReturnSame(s1, CondResult(Th(s, s.current)));
    if c.Term? {
      JoinStep(s, e, s1, c.thread, s');
    } else {
      AloneOk(s, e, s1, s');
    }
  }

  // ----- A round of the idle thread -----

  predicate WokenForIo(s: State, s': State, notified: seq<IO.Request>, t: Tid) {
    if IO.Queued(notified, t) then
      Th(s, t).state == IoWait && Th(s', t) == Th(s, t).(state := Runnable, onSleepq := false)
    else Th(s', t) == Th(s, t)
  }

  lemma {:induction false} WakeAllEffect(s: State, r: Option<Tid>, notified: seq<IO.Request>)
    requires Core(s, r) && IO.OnePerThread(notified)
    requires forall q :: q in notified ==> Th(s, q.thread).state == IoWait
    ensures var s' := WakeAll(s, notified);
            (forall t :: WokenForIo(s, s', notified, t)) && s'.conds == s.conds && s'.mutexes == s.mutexes
    decreases notified
  {
    hide Core, Wake, IO.Queued;
    if notified == [] {
      NoneQueued();
    } else {
      var t, s1, s' := notified[0].thread, Wake(s, notified[0].thread), WakeAll(s, notified);
      WakeIo(s, r, t);
      assert notified == [notified[0]] + notified[1..];
      HeadAlone(notified[0], notified[1..]);
      TimedoutActive(s, r, t);
      forall q | q in notified[1..] ensures Th(s1, q.thread).state == IoWait {
        assert q in notified;
      }
      WakeAllEffect(s1, r, notified[1..]);
      forall u ensures WokenForIo(s, s', notified, u) {
        QueuedHead(notified, u);
        assert WokenForIo(s1, s', notified[1..], u);
      }
    }
  }

  /** Looking for I/O changes the threads whose I/O is ready. */
  predicate LookedOk(s: State, s': State, t: Tid) {
    Th(s', t) == Th(s, t) || Notified(Th(s, t), Th(s', t))
  }

  lemma VpIdleEffect(s: State, r: Selected)
    requires Inv(s) && s.current == s.idle
    ensures var s' := VpIdle(s, r);
            (forall t :: LookedOk(s, s', t)) && s'.conds == s.conds && s'.mutexes == s.mutexes
  {
    if r.Found? {
      FoundEffect(s, r.ready);
    }
  }

  lemma FoundEffect(s: State, ready: set<IO.Key>)
    requires Inv(s) && s.current == s.idle
    ensures var s' := VpIdle(s, Found(ready));
            (forall t :: LookedOk(s, s', t)) && s'.conds == s.conds && s'.mutexes == s.mutexes
  {
    hide *;
    MarkedKeeps(s, ready);
    var (io, notified) := IO.Notify(s.fds, s.io, ready);
    var s1 := s.(io := io, threads := Mark(s, notified, ready));
    WakeAllEffect(s1, Some(s.idle), notified);
    var s' := WakeAll(s1, notified);
    forall t ensures LookedOk(s, s', t) {
      IoWaitIsPoll(s, t);
      LookedFrom(s, s1, s', notified, t);
    }
  }

  lemma IoWaitIsPoll(s: State, t: Tid)
    requires Inv(s)
    ensures Th(s, t).state == IoWait ==> ContOf(s, t).InPoll?
  {
    assert IoWaitOk(s, t);
  }

  lemma LookedFrom(s: State, s1: State, s': State, notified: seq<IO.Request>, t: Tid)
    requires MarkedOk(s, s1, notified, t) && WokenForIo(s1, s', notified, t)
    requires Th(s, t).state == IoWait ==> ContOf(s, t).InPoll?
    ensures LookedOk(s, s', t)
  {
    hide IO.Queued;
  }

  /** A round up to its switch. */
  function Round(s: State, r: Selected, now: nat): State {
    var s2 := CheckClock(VpIdle(s, r), now);
    Put(s2, s.idle, Th(s2, s.idle).(state := Runnable))
  }

  /** The clock check of a round: the state that it starts from, and the threads that it wakes. */
  lemma RoundEffect(s: State, r: Selected, now: nat) returns (s1: State, woken: seq<Tid>)
    requires Inv(s) && s.current == s.idle && s.lastClock <= now
    ensures (forall t :: LookedOk(s, s1, t)) && Core(s1, Some(s.idle)) && s1.sleep == VpIdle(s, r).sleep
    ensures SQ.Valid(s1.sleep) && woken == SQ.Expire(s1.sleep, now - s.lastClock).0
    ensures Expired(s1, CheckClock(VpIdle(s, r), now), woken)
    ensures Round(s, r, now).conds == s.conds && Round(s, r, now).mutexes == s.mutexes
    ensures IdleRound(s, r, now) == Schedule(Round(s, r, now))
  {
    hide *;
    s1 := VpIdle(s, r).(lastClock := now);
    VpIdleKeeps(s, r);
    VpIdleEffect(s, r);
    ClockSet(VpIdle(s, r), Some(s.idle), now);
    CoreSleep(s1, Some(s.idle));
    ExpireKeeps(s1, Some(s.idle), now - s.lastClock);
    woken := SQ.Expire(s1.sleep, now - s.lastClock).0;
    CheckClockIs(VpIdle(s, r), now);
    RoundIs(s, r, now);
    ExpiredSame(s1, CheckClock(VpIdle(s, r), now), woken);
    LookedClock(s, VpIdle(s, r), now);
  }

  lemma CheckClockIs(s: State, now: nat)
    requires s.lastClock <= now
    ensures CheckClock(s, now) == Expire(s.(lastClock := now), now - s.lastClock)
  {
    hide Expire;
  }

  lemma RoundIs(s: State, r: Selected, now: nat)
    ensures IdleRound(s, r, now) == Schedule(Round(s, r, now))
    ensures Round(s, r, now).conds == CheckClock(VpIdle(s, r), now).conds
    ensures Round(s, r, now).mutexes == CheckClock(VpIdle(s, r), now).mutexes
    ensures Only(CheckClock(VpIdle(s, r), now), Round(s, r, now), s.idle)
  {
    hide CheckClock, VpIdle, Schedule;
  }

  lemma ExpiredSame(s: State, s': State, woken: seq<Tid>)
    requires Expired(s, s', woken)
    ensures s'.conds == s.conds && s'.mutexes == s.mutexes
  {
  }

  lemma LookedClock(s: State, s1: State, now: nat)
    requires forall t :: LookedOk(s, s1, t)
    ensures forall t :: LookedOk(s, s1.(lastClock := now), t)
  {
    forall t ensures LookedOk(s, s1.(lastClock := now), t) {
      assert LookedOk(s, s1, t);
    }
  }

  lemma RoundChange(s: State, e: Event, s1: State, s2: State, s': State, woken: seq<Tid>, t: Tid)
    requires e.Idle? && LookedOk(s, s1, t) && Expired(s1, s2, woken) && SameNorm(s2, s', t)
    requires Th(s1, t).onSleepq ==> IsWaiting(Th(s1, t))
    ensures ChangeOk(s, e, s', t)
  {
    assert t in woken || t !in woken;
  }

  lemma SleepyWaits(s: State, r: Option<Tid>, t: Tid)
    requires Core(s, r)
    ensures Th(s, t).onSleepq ==> IsWaiting(Th(s, t))
  {
    assert LinkOk(s, r, t);
  }

  lemma IdleChange(s: State, e: Event)
    requires Inv(s) && Enabled(s, e) && e.Idle?
    ensures forall t :: ChangeOk(s, e, Next(s, e).0, t)
  {
    hide *;
    var s', r, now := Next(s, e).0, e.selected, e.now;
    NextKeeps(s, e);
    InvLinks(s');
    IdleIs(s, e);
    var s1, woken := RoundEffect(s, r, now);
    var s2, s3 := CheckClock(VpIdle(s, r), now), Round(s, r, now);
    RoundIs(s, r, now);
    ScheduleNorm(s3);
    forall t ensures ChangeOk(s, e, s', t) {
      if t == s.current {
        ChangeOfMe(s, e, s');
      } else {
        OnlyNormAt(s2, s3, s.idle, t);
        NormTwice(s2, s3, s', t);
        SleepyWaits(s1, Some(s.idle), t);
        RoundChange(s, e, s1, s2, s', woken, t);
      }
    }
  }

  lemma IdleIs(s: State, e: Event)
    requires Enabled(s, e) && e.Idle?
    ensures Next(s, e).0 == IdleRound(s, e.selected, e.now) && s.current == s.idle && s.lastClock <= e.now
  {
    hide IdleRound;
  }

  lemma ChangeOfMe(s: State, e: Event, s': State)
    ensures ChangeOk(s, e, s', s.current)
  {
  }

  lemma OnlyNormAt(s: State, s': State, me: Tid, t: Tid)
    requires Only(s, s', me) && t != me
    ensures SameNorm(s, s', t)
  {
  }

  lemma NormTwice(s: State, s1: State, s2: State, t: Tid)
    requires SameNorm(s, s1, t) && SameNorm(s1, s2, t)
    ensures SameNorm(s, s2, t)
  {
  }

  // ----- Every step -----

  /** A step changes another thread only to release it, for the reason that goes with the step. */
  lemma StepChange(s: State, e: Event)
    requires Inv(s) && Enabled(s, e)
    ensures forall t :: ChangeOk(s, e, Next(s, e).0, t)
  {
    hide Inv, ChangeOk, Next, ContOf, CallOk;
    match e
    case Do(CCondSignal(_, _)) => SignalChange(s, e);
    case Do(CExit(_)) => ExitChange(s, e);
    case Do(CInterrupt(_)) => InterruptChange(s, e);
    case Do(CUnlock(_)) => UnlockChange(s, e);
    case Do(CJoin(_)) => JoinChange(s, e);
    case Do(CCreate(_, _)) => CreateChange(s, e);
    case Idle(_, _) => IdleChange(s, e);
    case Resume =>
      if ContOf(s, s.current).InCondWait? {
        CondEndChange(s, e);
      } else {
        AloneChange(s, e);
      }
    case _ => AloneChange(s, e);
  }
}
