/** Exit and join over whole runs. */
module SchedulerJoin {
  import opened Wrappers
  import opened Queues
  import opened Scheduler
  import opened SchedulerInvariant
  import opened SchedulerSteps
  import opened SchedulerEffects
  import opened SchedulerFrames
  import opened SchedulerPlaces
  import opened SchedulerCond
  import SQ = SleepQueue
  import IO = IoQueue

  // ----- A join that succeeds -----

  /** A join of t returns 0 to its caller, with a value. */
  predicate JoinsNow(s: State, e: Event, t: Tid)
    requires Enabled(s, e)
  {
    && (e == Do(CJoin(t)) || (e == Resume && ContOf(s, s.current) == InCondWait(Term(t))))
    && Next(s, e).1.Some? && Next(s, e).1.value.Ok?
  }

  /** A thread that was joined, or is freed. */
  predicate Finished(th: Thread) {
    (th.cont.InExit? && Active(th)) || th.cont.Gone?
  }

  lemma JoinCall(s: State, t: Tid)
    requires Calling(s) && Join(s, t).1.Some? && Join(s, t).1.value.Ok?
    ensures Th(s, t).state == Zombie && Join(s, t) == Joined(s, t) && CondQ(s, Term(t)) == [] && t != s.current
  {
    hide Inv, Joined, CondQ;
    JoinParts(s, t);
  }

  lemma JoinEnd(s: State, t: Tid)
    requires Inv(s) && ContOf(s, s.current) == InCondWait(Term(t)) && CondEnd(s, Term(t)).1.Some?
    requires CondEnd(s, Term(t)).1.value.Ok?
    ensures var s1 := CondLeave(s, Term(t));
            && Calling(s1) && Th(s1, t).state == Zombie && CondEnd(s, Term(t)) == Joined(s1, t)
            && Th(s1, t) == Th(s, t) && t != s.current && CondResult(Th(s, s.current)) == Ok(0)
            && s1.current == s.current
  {
    hide Inv, Joined, CondLeave;
    CondLeaveKeeps(s, Term(t));
    CondLeaveOnly(s, Term(t));
    ResumedThread(s);
    CallingThread(CondLeave(s, Term(t)));
  }

  /** The thread was a zombie, is one no longer, and its value is returned. */
  lemma JoinSucceeds(s: State, e: Event, t: Tid)
    requires Inv(s) && Enabled(s, e) && JoinsNow(s, e, t)
    ensures Th(s, t).state == Zombie && ContOf(s, t).InExit? && Finished(Th(Next(s, e).0, t)) && t != s.current
    ensures Next(s, e).1 == Some(Ok(Th(s, t).retval))
  {
    hide *;
    JoinsHow(s, e, t);
    if e.Do? {
      JoinCall(s, t);
      JoinedFinishes(s, t);
    } else {
      JoinEnd(s, t);
      JoinedFinishes(CondLeave(s, Term(t)), t);
      SameCont(s, CondLeave(s, Term(t)), t);
    }
  }

  lemma JoinsHow(s: State, e: Event, t: Tid)
    requires Inv(s) && Enabled(s, e) && JoinsNow(s, e, t)
    ensures if e.Do? then Calling(s) && Next(s, e) == Join(s, t) && Join(s, t).1.Some? && Join(s, t).1.value.Ok?
            else && ContOf(s, s.current) == InCondWait(Term(t)) && Next(s, e) == CondEnd(s, Term(t))
                 && CondEnd(s, Term(t)).1.Some? && CondEnd(s, Term(t)).1.value.Ok?
  {
    hide Inv, Join, CondEnd;
  }

  lemma JoinedFinishes(s: State, t: Tid)
    requires Calling(s) && Th(s, t).state == Zombie
    ensures ContOf(s, t).InExit? && Finished(Th(Joined(s, t).0, t)) && Joined(s, t).1 == Some(Ok(Th(s, t).retval))
  {
    hide Inv, Joined;
    JoinedEffect(s, t);
    JoinedKeeps(s, t);
  }

  lemma SameCont(s: State, s': State, t: Tid)
    requires Th(s', t) == Th(s, t)
    ensures ContOf(s', t) == ContOf(s, t)
  {
  }

  /** A finished thread stays so. */
  lemma FinishedStays(s: State, e: Event, t: Tid)
    requires Inv(s) && Enabled(s, e) && Finished(Th(s, t))
    ensures Finished(Th(Next(s, e).0, t))
  {
    hide Inv, Core, Next, Change, Goes;
    var s' := Next(s, e).0;
    StepChange(s, e);
    MyPlace(s, e);
    ResumedThread(s);
    InvCore(s);
    SleepyWaits(s, Some(s.current), t);
    if t == s.current {
      ExitsOnce(s, e, ContOf(s', t));
    } else {
      assert ChangeOk(s, e, s', t);
      FinishedChange(s, e, t, Norm(Th(s, t)), Norm(Th(s', t)));
    }
  }

  lemma ExitsOnce(s: State, e: Event, k: Cont)
    requires Enabled(s, e) && Goes(s, e, k) && ContOf(s, s.current).InExit? && s.current != s.idle
    ensures k.Gone? && e == Resume
  {
  }

  lemma FinishedChange(s: State, e: Event, t: Tid, th: Thread, th': Thread)
    requires Change(s, e, t, th, th') && Finished(th) && (Active(th) ==> !th.onSleepq)
    ensures Finished(th')
  {
  }

  lemma {:induction false} StaysFinished(states: seq<State>, events: seq<Event>, i: nat, j: nat, t: Tid)
    requires IsRun(states, events) && i <= j <= |events| && Finished(Th(states[i], t))
    ensures Finished(Th(states[j], t))
    decreases j - i
  {
    hide IsRun, Inv, Next, Enabled, Finished;
    if i < j {
      StaysFinished(states, events, i, j - 1, t);
      RunStep(states, events, j - 1);
      FinishedStays(states[j - 1], events[j - 1], t);
    }
  }

  /** In any run at most one join of a thread succeeds. */
  lemma JoinedOnce(states: seq<State>, events: seq<Event>, i: nat, j: nat, t: Tid)
    requires IsRun(states, events) && i < j < |events|
    requires Enabled(states[i], events[i]) && JoinsNow(states[i], events[i], t)
    ensures Enabled(states[j], events[j]) && !JoinsNow(states[j], events[j], t)
  {
    hide IsRun, Inv, Next, Enabled, JoinsNow;
    RunStep(states, events, i);
    RunStep(states, events, j);
    JoinSucceeds(states[i], events[i], t);
    StaysFinished(states, events, i + 1, j, t);
    if JoinsNow(states[j], events[j], t) {
      JoinSucceeds(states[j], events[j], t);
    }
  }

  // ----- Its value -----

  /** A thread comes to its exit by calling st_thread_exit, and keeps the value that it gave. */
  lemma ExitStep(s: State, e: Event, t: Tid)
    requires Inv(s) && Enabled(s, e) && ContOf(Next(s, e).0, t).InExit?
    ensures var th, th' := Th(s, t), Th(Next(s, e).0, t);
            (t == s.current && e == Do(CExit(th'.retval))) || (th.cont.InExit? && th'.retval == th.retval)
  {
    hide Inv, Next, Change, Goes, Enabled;
    var s' := Next(s, e).0;
    if t == s.current {
      MyPlace(s, e);
      ExitsBy(s, e, ContOf(s', t));
      ExitValue(s, e);
    } else {
      StepChange(s, e);
      assert ChangeOk(s, e, s', t);
      ExitChanges(s, e, t, Norm(Th(s, t)), Norm(Th(s', t)));
    }
  }

  lemma ExitsBy(s: State, e: Event, k: Cont)
    requires Enabled(s, e) && Goes(s, e, k) && k.InExit?
    ensures e.Do? && e.call.CExit?
  {
  }

  lemma ExitValue(s: State, e: Event)
    requires Inv(s) && Enabled(s, e) && e.Do? && e.call.CExit?
    ensures Th(Next(s, e).0, s.current).retval == e.call.retval
  {
    hide Inv, Exit;
    ExitPlace(s, e.call.retval);
  }

  lemma ExitChanges(s: State, e: Event, t: Tid, th: Thread, th': Thread)
    requires Change(s, e, t, th, th') && th'.cont.InExit?
    ensures th.cont.InExit? && th'.retval == th.retval
  {
  }

  lemma {:induction false} ExitedBefore(states: seq<State>, events: seq<Event>, n: nat, t: Tid) returns (i: nat)
    requires IsRun(states, events) && n <= |events| && ContOf(states[n], t).InExit?
    ensures i < n && states[i].current == t && events[i] == Do(CExit(Th(states[n], t).retval))
  {
    hide Inv, Next, Enabled;
    if n == 0 {
      NoExitAtFirst(states, events, t);
    } else {
      RunStep(states, events, n - 1);
      ExitStep(states[n - 1], events[n - 1], t);
      if states[n - 1].current == t && events[n - 1] == Do(CExit(Th(states[n], t).retval)) {
        i := n - 1;
      } else {
        i := ExitedBefore(states, events, n - 1, t);
      }
    }
  }

  lemma NoExitAtFirst(states: seq<State>, events: seq<Event>, t: Tid)
    requires IsRun(states, events)
    ensures !ContOf(states[0], t).InExit?
  {
  }

  /** A join that succeeds returns the value with which that thread called st_thread_exit before. */
  lemma JoinGetsExitValue(states: seq<State>, events: seq<Event>, j: nat, t: Tid) returns (i: nat, retval: int)
    requires IsRun(states, events) && j < |events|
    requires Enabled(states[j], events[j]) && JoinsNow(states[j], events[j], t)
    ensures i < j && states[i].current == t && events[i] == Do(CExit(retval))
    ensures Next(states[j], events[j]).1 == Some(Ok(retval))
  {
    hide IsRun, Inv, Next, Enabled, JoinsNow;
    RunStep(states, events, j);
    JoinSucceeds(states[j], events[j], t);
    retval := Th(states[j], t).retval;
    i := ExitedBefore(states, events, j, t);
  }

  // ----- A joiner that is interrupted -----

  /** A joiner with an interrupt pending fails and leaves the thread, and its queue, to be joined by another. */
  lemma InterruptedJoiner(s: State, t: Tid)
    requires Inv(s) && ContOf(s, s.current) == InCondWait(Term(t)) && Th(s, s.current).interrupt
    ensures var (s', r) := CondEnd(s, Term(t));
            && r == Some(Err(EINTR)) && s'.zombieq == s.zombieq && (t != s.current ==> Th(s', t) == Th(s, t))
            && CondQ(s', Term(t)) == Without(CondQ(s, Term(t)), s.current)
  {
    hide Inv, CondLeave, Without, CondQ;
    var s1 := CondLeave(s, Term(t));
    CondLeaveKeeps(s, Term(t));
    CondLeaveOnly(s, Term(t));
    ReturnSame(s1, Err(EINTR));
    LeaveQueue(s, Term(t));
  }

  lemma LeaveQueue(s: State, c: Cond)
    ensures CondQ(CondLeave(s, c), c) == Without(CondQ(s, c), s.current) && CondLeave(s, c).zombieq == s.zombieq
  {
    hide Without;
  }

  // ----- The termination condition variable -----

  /** The step is no join of t after t was joined. */
  predicate JoinsFresh(s: State, e: Event, t: Tid) {
    e == Do(CJoin(t)) ==> !Finished(Th(s, t))
  }

  /** At most one thread waits for a thread, none once it was joined, and a joiner that was signalled finds a zombie. */
  predicate TermOk(s: State, t: Tid) {
    var q := CondQ(s, Term(t));
    && |q| <= 1 && (q != [] ==> Th(s, t).joinable && !Finished(Th(s, t)))
    && (q != [] && Active(Th(s, q[0])) && !Th(s, q[0]).interrupt ==> Th(s, t).state == Zombie)
  }

  /** How a step changes the queue of the threads that wait for t. */
  lemma TermQueue(s: State, e: Event, t: Tid)
    requires Inv(s) && Enabled(s, e)
    ensures var me, c := s.current, Term(t);
            var s' := Next(s, e).0;
            var before, after := ContOf(s, me) == InCondWait(c), ContOf(s', me) == InCondWait(c);
            && (!before && !after ==> CondQ(s', c) == CondQ(s, c))
            && (before && !after ==> CondQ(s', c) == Without(CondQ(s, c), me))
            && (!before && after ==> CondQ(s', c) == CondQ(s, c) + [me])
  {
    hide Inv, Next, Enabled, CondQ, ContOf, LocksOk, IoOk, QueuesOk, LinkOk;
    var me, c, s' := s.current, Term(t), Next(s, e).0;
    StepConds(s, e);
    NextKeeps(s, e);
    InvLinks(s);
    InvLinks(s');
    assert CondOk(s, c, me) && CondOk(s', c, me) && QueueStep(CondQ(s, c), CondQ(s', c), me);
    QueueMoves(CondQ(s, c), CondQ(s', c), me);
  }

  lemma QueueMoves(q: seq<Tid>, q': seq<Tid>, me: Tid)
    requires NoDup(q) && QueueStep(q, q', me)
    ensures me !in q && me !in q' ==> q' == q
    ensures me in q && me !in q' ==> q' == Without(q, me)
    ensures me !in q && me in q' ==> q' == q + [me]
  {
    hide Without, NoDup;
    WithoutMembers(q, me);
    if me !in q {
      WithoutAbsent(q, me);
    }
    assert me in q + [me] && me in Without(q, me) + [me];
  }

  lemma WithoutAbsent(q: seq<Tid>, t: Tid)
    requires t !in q
    ensures Without(q, t) == q
  {
  }

  /** A thread that newly waits for another has nothing to go on with. */
  lemma JoinerWaits(s: State, t: Tid)
    requires Calling(s) && ContOf(Join(s, t).0, s.current) == InCondWait(Term(t)) && !Join(s, t).0.fault
    ensures Th(Join(s, t).0, s.current).state == CondWait
  {
    hide Inv, Join, Schedule, CondWaiting, Joined;
    JoinParts(s, t);
    CallingCurrent(s);
    if Th(s, t).state == Zombie {
      JoinedPlace(s, t);
    }
    BlockedPlace(s, Term(t), None);
    CondWaitingOnly(s, Term(t), None);
    CondWaitingState(s, Term(t));
    if CondQ(s, Term(t)) == [] && Th(s, t).joinable && t != s.current && !Interrupted(s) && Th(s, t).state != Zombie {
      ScheduleNorm(CondWaiting(s, Term(t), None));
      assert SameNorm(CondWaiting(s, Term(t), None), Join(s, t).0, s.current);
    }
  }

  lemma CondWaitingState(s: State, c: Cond)
    ensures Th(CondWaiting(s, c, None), s.current).state == CondWait
  {
  }

  /** A join changes a thread only when nobody else waits for it. */
  lemma JoinNeedsEmpty(s: State, t: Tid)
    requires Calling(s) && t != s.current && Norm(Th(Join(s, t).0, t)) != Norm(Th(s, t))
    ensures CondQ(s, Term(t)) == []
  {
    hide Inv, Join, Joined, CondTimedwait;
    JoinParts(s, t);
  }

  /** The queue after a step, if the thread that takes it did not wait for t, or waited and was signalled. */
  lemma NoSecondWait(s: State, e: Event, t: Tid)
    requires Inv(s) && Enabled(s, e) && TermOk(s, t)
    requires ContOf(s, s.current) == InCondWait(Term(t))
    ensures CondQ(s, Term(t)) == [s.current] && e == Resume
    ensures ContOf(Next(s, e).0, s.current) != InCondWait(Term(t))
  {
    hide Inv, Next;
    MyPlace(s, e);
    ResumedThread(s);
    InvLinks(s);
    assert CondOk(s, Term(t), s.current);
  }

  /** t has just been joined: then the queue is left empty. */
  lemma FinishedEmpty(s: State, e: Event, t: Tid)
    requires Inv(s) && Enabled(s, e) && JoinsFresh(s, e, t) && TermOk(s, t) && Finished(Th(Next(s, e).0, t))
    ensures CondQ(Next(s, e).0, Term(t)) == []
  {
    hide Inv, Next, Enabled, Goes, Change, Finished, JoinsFresh, TermOk, CondQ;
    var s' := Next(s, e).0;
    MyPlace(s, e);
    TermQueue(s, e, t);
    TermEmpty(s, t);
    if Finished(Th(s, t)) {
      NoStaleJoin(s, e, t, ContOf(s', s.current));
    } else if t == s.current {
      LeavesUnjoined(s, e, t);
    } else {
      StepChange(s, e);
      assert ChangeOk(s, e, s', t);
      ZombieNorm(s, t);
      FinishNorm(s', t);
      FinishesBy(s, e, t, Norm(Th(s, t)), Norm(Th(s', t)));
      if e.Do? {
        JoinLeavesEmpty(s, e, t);
      } else {
        NoSecondWait(s, e, t);
        WithoutOnly(s.current);
      }
    }
  }

  lemma WithoutOnly(t: Tid)
    ensures Without([t], t) == []
  {
  }

  lemma TermEmpty(s: State, t: Tid)
    requires TermOk(s, t)
    ensures Finished(Th(s, t)) ==> CondQ(s, Term(t)) == []
    ensures !Th(s, t).joinable ==> CondQ(s, Term(t)) == []
  {
  }

  lemma NoStaleJoin(s: State, e: Event, t: Tid, k: Cont)
    requires Inv(s) && Enabled(s, e) && JoinsFresh(s, e, t) && Goes(s, e, k) && Finished(Th(s, t)) && CondQ(s, Term(t)) == []
    ensures k != InCondWait(Term(t)) && ContOf(s, s.current) != InCondWait(Term(t))
  {
    hide Inv;
    InvLinks(s);
    assert CondOk(s, Term(t), s.current);
  }

  /** The current thread leaves by an exit that nobody waits for. */
  lemma LeavesUnjoined(s: State, e: Event, t: Tid)
    requires Inv(s) && Enabled(s, e) && TermOk(s, t) && t == s.current
    requires !Finished(Th(s, t)) && Finished(Th(Next(s, e).0, t))
    ensures CondQ(s, Term(t)) == [] && ContOf(Next(s, e).0, t) != InCondWait(Term(t))
    ensures ContOf(s, t) != InCondWait(Term(t))
  {
    MyPlace(s, e);
    ResumedThread(s);
    InvLinks(s);
    assert CondOk(s, Term(t), t);
    if e.Do? && e.call.CExit? {
      ExitPlace(s, e.call.retval);
    }
    hide Inv, Next, Exit;
  }

  lemma ZombieNorm(s: State, t: Tid)
    requires Inv(s) && !Finished(Th(s, t)) && t != s.current
    ensures var th := Norm(Th(s, t));
            !Finished(th) && (th.cont.InExit? ==> th.state == Zombie && !th.onSleepq)
  {
    assert LinkOk(s, Some(s.current), t);
  }

  lemma FinishNorm(s: State, t: Tid)
    requires Finished(Th(s, t))
    ensures Finished(Norm(Th(s, t)))
  {
  }

  lemma FinishesBy(s: State, e: Event, t: Tid, th: Thread, th': Thread)
    requires Change(s, e, t, th, th') && !Finished(th) && (th.cont.InExit? ==> th.state == Zombie && !th.onSleepq)
    requires Finished(th')
    ensures th.state == Zombie
    ensures e == Do(CJoin(t)) || (e == Resume && ContOf(s, s.current) == InCondWait(Term(t)))
  {
  }

  lemma JoinLeavesEmpty(s: State, e: Event, t: Tid)
    requires Inv(s) && Enabled(s, e) && e == Do(CJoin(t)) && t != s.current
    requires !Finished(Th(s, t)) && Finished(Th(Next(s, e).0, t)) && Norm(Th(s, t)).state == Zombie
    ensures CondQ(s, Term(t)) == [] && ContOf(Next(s, e).0, s.current) != InCondWait(Term(t))
    ensures ContOf(s, s.current) != InCondWait(Term(t))
  {
    hide Inv, Join;
    JoinNeedsEmpty(s, t);
    MyPlace(s, e);
  }

  /** The thread that waits for t, if a step lets it go on, finds a zombie. */
  lemma WaiterFindsZombie(s: State, e: Event, t: Tid, w: Tid)
    requires Inv(s) && Enabled(s, e) && TermOk(s, t) && CondQ(s, Term(t)) == [w] && w != s.current
    requires var th := Th(Next(s, e).0, w); Active(th) && !th.interrupt
    requires !Finished(Th(Next(s, e).0, t))
    ensures Th(Next(s, e).0, t).state == Zombie
  {
    var s' := Next(s, e).0;
    hide Inv, Next, Enabled, Change, CondQ, Active, TermOk, Finished;
    StepChange(s, e);
    assert ChangeOk(s, e, s', w) && ChangeOk(s, e, s', t);
    WaiterPlace(s, t, w);
    WaiterWoken(s, e, t, w, Norm(Th(s, w)), Norm(Th(s', w)));
    if Norm(Th(s, w)).state == Runnable {
      WaiterSignalled(s, t, w);
      ZombieStays(s, e, t, s');
    } else {
      ExitZombie(s, e);
    }
  }

  lemma WaiterPlace(s: State, t: Tid, w: Tid)
    requires Inv(s) && CondQ(s, Term(t)) == [w]
    ensures ContOf(s, w) == InCondWait(Term(t)) && !Th(s, w).onSleepq
    ensures Th(s, w).state == CondWait || Active(Th(s, w))
  {
    assert CondOk(s, Term(t), w) && LinkOk(s, Some(s.current), w);
  }

  lemma WaiterWoken(s: State, e: Event, t: Tid, w: Tid, th: Thread, th': Thread)
    requires Change(s, e, w, th, th') && th.cont == InCondWait(Term(t)) && !th.onSleepq
    requires th.state == CondWait || th.state == Runnable
    requires th'.state == Runnable && !th'.interrupt
    ensures !th.interrupt && (th.state == CondWait ==> e.Do? && e.call.CExit? && t == s.current)
  {
  }

  lemma WaiterSignalled(s: State, t: Tid, w: Tid)
    requires TermOk(s, t) && CondQ(s, Term(t)) == [w] && Norm(Th(s, w)).state == Runnable && !Th(s, w).interrupt
    ensures Th(s, t).state == Zombie
  {
  }

  lemma ZombieStays(s: State, e: Event, t: Tid, s': State)
    requires Inv(s) && Th(s, t).state == Zombie && ChangeOk(s, e, s', t) && !Finished(Th(s', t))
    ensures Th(s', t).state == Zombie
  {
    hide Inv, Change;
    ResumedThread(s);
    ZombieExits(s, t);
    ZombieChange(s, e, t, Norm(Th(s, t)), Norm(Th(s', t)));
  }

  lemma ZombieExits(s: State, t: Tid)
    requires Inv(s) && Th(s, t).state == Zombie
    ensures ContOf(s, t).InExit? && !Th(s, t).onSleepq
  {
    assert LinkOk(s, Some(s.current), t);
  }

  lemma ZombieChange(s: State, e: Event, t: Tid, th: Thread, th': Thread)
    requires Change(s, e, t, th, th') && th.state == Zombie && th.cont.InExit? && !th.onSleepq
    ensures th'.state == Zombie || Finished(th')
  {
  }

  lemma ExitZombie(s: State, e: Event)
    requires Inv(s) && Enabled(s, e) && e.Do? && e.call.CExit? && !Finished(Th(Next(s, e).0, s.current))
    ensures Th(Next(s, e).0, s.current).state == Zombie
  {
    hide Inv, Exit;
    ExitPlace(s, e.call.retval);
  }

  lemma TermParts(s: State, t: Tid)
    requires TermOk(s, t)
    ensures CondQ(s, Term(t)) == [] || CondQ(s, Term(t)) == [CondQ(s, Term(t))[0]]
  {
  }

  lemma TermNone(s: State, t: Tid)
    requires CondQ(s, Term(t)) == []
    ensures TermOk(s, t)
  {
  }

  /** Whether a thread can be joined does not change while somebody waits for it. */
  lemma StaysJoinable(s: State, e: Event, t: Tid)
    requires Inv(s) && Enabled(s, e) && Th(s, t).joinable && !Finished(Th(Next(s, e).0, t))
    ensures Th(Next(s, e).0, t).joinable
  {
    var s' := Next(s, e).0;
    hide Inv, Next, Change, Goes;
    if t != s.current {
      StepChange(s, e);
      assert ChangeOk(s, e, s', t);
      JoinableChange(s, e, t, Norm(Th(s, t)), Norm(Th(s', t)));
    } else {
      MyPlace(s, e);
      if ContOf(s, t).InExit? {
        ResumedThread(s);
        ExitsOnce(s, e, ContOf(s', t));
      }
    }
  }

  lemma JoinableChange(s: State, e: Event, t: Tid, th: Thread, th': Thread)
    requires Change(s, e, t, th, th') && th.joinable
    ensures th'.joinable || th.cont.Absent?
  {
  }

  /** A program that joins no thread twice keeps the termination condition variables in order. */
  lemma TermKeeps(s: State, e: Event, t: Tid)
    requires Inv(s) && Enabled(s, e) && JoinsFresh(s, e, t) && TermOk(s, t)
    ensures TermOk(Next(s, e).0, t)
  {
    hide Inv, Next, Enabled, JoinsFresh, TermOk, CondQ, Finished, Goes;
    var s', me := Next(s, e).0, s.current;
    TermQueue(s, e, t);
    TermParts(s, t);
    if CondQ(s', Term(t)) == [] {
      TermNone(s', t);
    } else {
      if Finished(Th(s', t)) {
        FinishedEmpty(s, e, t);
      }
      if ContOf(s, me) == InCondWait(Term(t)) {
        NoSecondWait(s, e, t);
        WithoutOnly(me);
      }
      if ContOf(s', me) == InCondWait(Term(t)) {
        NewJoiner(s, e, t);
      } else {
        OldJoiner(s, e, t, CondQ(s, Term(t))[0]);
      }
    }
  }

  lemma NewJoiner(s: State, e: Event, t: Tid)
    requires Inv(s) && Enabled(s, e) && TermOk(s, t) && !Finished(Th(Next(s, e).0, t))
    requires ContOf(s, s.current) != InCondWait(Term(t)) && ContOf(Next(s, e).0, s.current) == InCondWait(Term(t))
    requires CondQ(Next(s, e).0, Term(t)) == CondQ(s, Term(t)) + [s.current]
    ensures TermOk(Next(s, e).0, t)
  {
    hide Inv, Next, Enabled, CondQ, Finished, TermOk;
    NextKeeps(s, e);
    InvLinks(Next(s, e).0);
    MyPlace(s, e);
    JoinsBy(s, e, t);
    JoinerState(s, e, t);
    StaysJoinable(s, e, t);
    TermOne(Next(s, e).0, t, s.current);
  }

  lemma JoinsBy(s: State, e: Event, t: Tid)
    requires Enabled(s, e) && Goes(s, e, InCondWait(Term(t))) && ContOf(s, s.current) != InCondWait(Term(t))
    ensures e == Do(CJoin(t)) && CondQ(s, Term(t)) == [] && Th(s, t).joinable
  {
  }

  lemma JoinerState(s: State, e: Event, t: Tid)
    requires Inv(s) && Enabled(s, e) && e == Do(CJoin(t)) && !Next(s, e).0.fault
    requires ContOf(Next(s, e).0, s.current) == InCondWait(Term(t))
    ensures Th(Next(s, e).0, s.current).state == CondWait
  {
    hide Inv, Join;
    JoinerWaits(s, t);
  }

  lemma TermOne(s: State, t: Tid, w: Tid)
    requires CondQ(s, Term(t)) == [w] && Th(s, t).joinable && !Finished(Th(s, t))
    requires Active(Th(s, w)) && !Th(s, w).interrupt ==> Th(s, t).state == Zombie
    ensures TermOk(s, t)
  {
  }

  lemma OldJoiner(s: State, e: Event, t: Tid, w: Tid)
    requires Inv(s) && Enabled(s, e) && TermOk(s, t) && !Finished(Th(Next(s, e).0, t))
    requires CondQ(s, Term(t)) == [w] && CondQ(Next(s, e).0, Term(t)) == [w]
    requires ContOf(s, s.current) != InCondWait(Term(t))
    ensures TermOk(Next(s, e).0, t)
  {
    hide Inv, Next, Enabled, CondQ, Finished;
    WaiterPlace(s, t, w);
    StaysJoinable(s, e, t);
    var th := Th(Next(s, e).0, w);
    if Active(th) && !th.interrupt {
      WaiterFindsZombie(s, e, t, w);
    }
    TermOne(Next(s, e).0, t, w);
  }

  lemma {:induction false} RunTerm(states: seq<State>, events: seq<Event>, n: nat, t: Tid)
    requires IsRun(states, events) && n <= |events|
    requires forall i :: 0 <= i < n ==> JoinsFresh(states[i], events[i], t)
    ensures TermOk(states[n], t)
  {
    hide Inv, Next, Enabled, JoinsFresh, TermOk;
    if n == 0 {
      NobodyWaits(states, events, t);
    } else {
      RunTerm(states, events, n - 1, t);
      RunStep(states, events, n - 1);
      TermKeeps(states[n - 1], events[n - 1], t);
    }
  }

  lemma NobodyWaits(states: seq<State>, events: seq<Event>, t: Tid)
    requires IsRun(states, events)
    ensures TermOk(states[0], t)
  {
  }
}
