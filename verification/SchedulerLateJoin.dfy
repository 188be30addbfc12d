/** Joins of a thread that was joined before, and the termination condition variable when it is destroyed. */
module SchedulerLateJoin {
  import opened Wrappers
  import opened Queues
  import opened Scheduler
  import opened SchedulerInvariant
  import opened SchedulerSteps
  import opened SchedulerEffects
  import opened SchedulerFrames
  import opened SchedulerPlaces
  import opened SchedulerCond
  import opened SchedulerJoin
  import SQ = SleepQueue
  import IO = IoQueue

  // ----- What happens to a late joiner -----

  /** The thread that takes this step calls st_thread_join for t, which was joined before, and waits. */
  predicate LateJoin(s: State, e: Event, t: Tid)
    requires Enabled(s, e)
  {
    e == Do(CJoin(t)) && Finished(Th(s, t)) && Next(s, e).1 == None
  }

  /** A late joiner goes on only if it was interrupted. */
  predicate Late(th: Thread) {
    if th.interrupt then Active(th) else th.state == CondWait
  }

  lemma LateCall(s: State, e: Event, t: Tid)
    requires Inv(s) && Enabled(s, e) && e == Do(CJoin(t)) && Next(s, e).1 == None
    ensures var th := Th(Next(s, e).0, s.current);
            th.cont == InCondWait(Term(t)) && th.state == CondWait && !th.interrupt
  {
    hide Inv, Join;
    NextKeeps(s, e);
    NoFault(Next(s, e).0);
    JoinBlocks(s, t);
    JoinerWaits(s, t);
    JoinUnflagged(s, t);
  }

  /** A join of a thread that was joined and is not freed waits exactly if nobody waits and no interrupt is pending. */
  lemma StaleJoinWaits(s: State, t: Tid)
    requires Calling(s) && ContOf(s, t).InExit? && Active(Th(s, t)) && Th(s, t).joinable
    ensures Join(s, t).1 == None <==> CondQ(s, Term(t)) == [] && !Th(s, s.current).interrupt
    ensures Join(s, t).1 == None ==>
              CondQ(Join(s, t).0, Term(t)) == [s.current] && Norm(Th(Join(s, t).0, t)) == Norm(Th(s, t))
  {
    hide Inv, Joined, Schedule, CondWaiting, Join;
    JoinKeeps(s, t);
    InvLinks(Join(s, t).0);
    CallingCurrent(s);
    JoinParts(s, t);
    CondWaitingOnly(s, Term(t), None);
    if CondQ(s, Term(t)) == [] && !Th(s, s.current).interrupt {
      ScheduleNorm(CondWaiting(s, Term(t), None));
      assert SameNorm(CondWaiting(s, Term(t), None), Join(s, t).0, t);
    }
  }

  lemma JoinBlocks(s: State, t: Tid)
    requires Calling(s) && Join(s, t).1 == None
    ensures ContOf(Join(s, t).0, s.current) == InCondWait(Term(t))
  {
    hide Inv, Joined, CondQ;
    hide CondTimedwait;
    JoinParts(s, t);
    CallingCurrent(s);
    if Th(s, t).state == Zombie {
      JoinedFinishes(s, t);
    }
    NoneBlocks(s, Term(t));
  }

  lemma NoneBlocks(s: State, c: Cond)
    requires s.current in s.threads
    ensures CondTimedwait(s, c, None).1 == None ==> ContOf(CondTimedwait(s, c, None).0, s.current) == InCondWait(c)
  {
    hide Schedule;
    BlockedPlace(s, c, None);
  }

  /** Nothing but an interrupt happens to a late joiner that does not run. */
  lemma LateStays(s: State, e: Event, t: Tid, u: Tid)
    requires Inv(s) && Enabled(s, e) && Finished(Th(s, t)) && u != s.current
    requires ContOf(s, u) == InCondWait(Term(t)) && Late(Th(s, u))
    ensures var th, th' := Th(s, u), Th(Next(s, e).0, u);
            && th'.cont == th.cont && Late(th') && th'.interrupt == (th.interrupt || e == Do(CInterrupt(u)))
  {
    hide Inv, Next, Change;
    StepChange(s, e);
    LateAsleep(s, t, u);
    assert ChangeOk(s, e, Next(s, e).0, u);
    LateChange(s, e, t, u, Norm(Th(s, u)), Norm(Th(Next(s, e).0, u)));
  }

  lemma LateAsleep(s: State, t: Tid, u: Tid)
    requires Inv(s) && ContOf(s, u) == InCondWait(Term(t))
    ensures !Th(s, u).onSleepq
  {
    assert LinkOk(s, Some(s.current), u);
  }

  lemma LateChange(s: State, e: Event, t: Tid, u: Tid, th: Thread, th': Thread)
    requires Change(s, e, u, th, th') && th.cont == InCondWait(Term(t)) && !th.onSleepq && Late(th)
    requires e.Do? ==> s.current != t
    ensures th'.cont == th.cont && Late(th') && th'.interrupt == (th.interrupt || e == Do(CInterrupt(u)))
  {
  }

  /** A late joiner that runs returns EINTR. */
  lemma LateLeaves(s: State, e: Event, t: Tid)
    requires Inv(s) && Enabled(s, e) && ContOf(s, s.current) == InCondWait(Term(t)) && Late(Th(s, s.current))
    ensures e == Resume && Th(s, s.current).interrupt && Next(s, e).1 == Some(Err(EINTR))
    ensures ContOf(Next(s, e).0, s.current).InProgram?
  {
    hide Inv, CondLeave;
    ResumedThread(s);
    CondLeaveKeeps(s, Term(t));
    CondLeaveOnly(s, Term(t));
    CallingCurrent(CondLeave(s, Term(t)));
    ReturnSame(CondLeave(s, Term(t)), Err(EINTR));
  }

  // ----- Over a run -----

  /** From the state after step i to state n, u waits for t. */
  ghost predicate Joining(states: seq<State>, i: nat, n: nat, u: Tid, t: Tid)
    requires i <= n < |states|
  {
    forall m :: i < m <= n ==> ContOf(states[m], u) == InCondWait(Term(t))
  }

  /** In step i, u makes a late join of t. */
  ghost predicate LateAt(states: seq<State>, events: seq<Event>, i: nat, u: Tid, t: Tid)
    requires IsRun(states, events) && i < |events|
  {
    states[i].current == u && LateJoin(states[i], events[i], t)
  }

  /** A late joiner stays in COND_WAIT until it is interrupted, and then no longer. */
  lemma {:induction false} LateNoted(states: seq<State>, events: seq<Event>, i: nat, n: nat, u: Tid, t: Tid)
    requires IsRun(states, events) && i < n <= |events| && LateAt(states, events, i, u, t) && Joining(states, i, n, u, t)
    ensures var th := Th(states[n], u);
            Late(th) && (th.interrupt <==> InterruptedIn(events, i + 1, n, u))
    decreases n
  {
    hide IsRun, Inv, Next, Enabled, Late, Finished;
    LateParts(states, events, i, u, t);
    if n == i + 1 {
      RunStep(states, events, i);
      LateCall(states[i], events[i], t);
      LateFrom(Th(states[n], u));
    } else {
      RunStep(states, events, n - 1);
      JoiningShorter(states, i, n, u, t);
      LateNoted(states, events, i, n - 1, u, t);
      StaysFinished(states, events, i, n - 1, t);
      if states[n - 1].current == u {
        LateLeaves(states[n - 1], events[n - 1], t);
      }
      LateStays(states[n - 1], events[n - 1], t, u);
      InterruptedStep(events, i + 1, n, u);
    }
  }

  lemma LateFrom(th: Thread)
    requires th.state == CondWait && !th.interrupt
    ensures Late(th)
  {
  }

  lemma LateParts(states: seq<State>, events: seq<Event>, i: nat, u: Tid, t: Tid)
    requires IsRun(states, events) && i < |events| && LateAt(states, events, i, u, t)
    ensures |states| == |events| + 1 && states[i].current == u && events[i] == Do(CJoin(t)) && Finished(Th(states[i], t))
    ensures Enabled(states[i], events[i]) && Next(states[i], events[i]).1 == None
  {
  }

  lemma JoiningShorter(states: seq<State>, i: nat, n: nat, u: Tid, t: Tid)
    requires i + 1 < n < |states| && Joining(states, i, n, u, t)
    ensures Joining(states, i, n - 1, u, t)
    ensures ContOf(states[n - 1], u) == InCondWait(Term(t)) && ContOf(states[n], u) == InCondWait(Term(t))
  {
  }

  /** In step j, u fails with EINTR in the join of t that it called in step i, and was interrupted between. */
  ghost predicate GivesUpAt(states: seq<State>, events: seq<Event>, i: nat, j: nat, u: Tid, t: Tid)
    requires IsRun(states, events) && i < j < |events|
  {
    && Joining(states, i, j, u, t) && InterruptedIn(events, i + 1, j, u)
    && states[j].current == u && events[j] == Resume && Next(states[j], events[j]).1 == Some(Err(EINTR))
  }

  /** The join of t that u called in step i has failed before step n, after an interrupt. */
  ghost predicate GaveUp(states: seq<State>, events: seq<Event>, i: nat, n: nat, u: Tid, t: Tid)
    requires IsRun(states, events) && n <= |events|
  {
    exists j :: i < j < n && GivesUpAt(states, events, i, j, u, t)
  }

  /** A late joiner that gets the processor gives up. */
  lemma GivesUp(states: seq<State>, events: seq<Event>, i: nat, j: nat, u: Tid, t: Tid)
    requires IsRun(states, events) && i < j < |events| && LateAt(states, events, i, u, t) && Joining(states, i, j, u, t)
    requires states[j].current == u
    ensures GivesUpAt(states, events, i, j, u, t) && ContOf(states[j + 1], u).InProgram?
  {
    hide IsRun, Inv, Next, Enabled, Late, LateAt, InterruptedIn;
    RunStep(states, events, j);
    LateNoted(states, events, i, j, u, t);
    LateLeaves(states[j], events[j], t);
  }

  /** A late joiner waits, or was interrupted and has given up. */
  lemma {:induction false} WaitsOrGaveUp(states: seq<State>, events: seq<Event>, i: nat, n: nat, u: Tid, t: Tid)
    requires IsRun(states, events) && i < n <= |events| && LateAt(states, events, i, u, t)
    ensures Joining(states, i, n, u, t) || GaveUp(states, events, i, n, u, t)
    decreases n
  {
    hide IsRun, Inv, Next, Enabled, Late, LateAt, GivesUpAt, Finished;
    LateParts(states, events, i, u, t);
    if n == i + 1 {
      RunStep(states, events, i);
      LateCall(states[i], events[i], t);
    } else {
      WaitsOrGaveUp(states, events, i, n - 1, u, t);
      if Joining(states, i, n - 1, u, t) {
        RunStep(states, events, n - 1);
        if states[n - 1].current == u {
          GivesUp(states, events, i, n - 1, u, t);
        } else {
          LateNoted(states, events, i, n - 1, u, t);
          StaysFinished(states, events, i, n - 1, t);
          LateStays(states[n - 1], events[n - 1], t, u);
        }
      } else {
        var j :| i < j < n - 1 && GivesUpAt(states, events, i, j, u, t);
      }
    }
  }

  /** A thread that waits for t called st_thread_join and has waited since. */
  lemma {:induction false} JoinCalled(states: seq<State>, events: seq<Event>, n: nat, u: Tid, t: Tid) returns (i: nat)
    requires IsRun(states, events) && n <= |events| && ContOf(states[n], u) == InCondWait(Term(t))
    ensures i < n && Joining(states, i, n, u, t) && states[i].current == u
    ensures Enabled(states[i], events[i]) && events[i] == Do(CJoin(t)) && Next(states[i], events[i]).1 == None
  {
    hide Inv, Next, Enabled;
    if n == 0 {
      NoJoinAtFirst(states, events, u, t);
    } else {
      RunStep(states, events, n - 1);
      JoinStep(states[n - 1], events[n - 1], u, t);
      if ContOf(states[n - 1], u) == InCondWait(Term(t)) {
        i := JoinCalled(states, events, n - 1, u, t);
      } else {
        i := n - 1;
      }
    }
  }

  lemma NoJoinAtFirst(states: seq<State>, events: seq<Event>, u: Tid, t: Tid)
    requires IsRun(states, events)
    ensures ContOf(states[0], u) != InCondWait(Term(t))
  {
  }

  lemma JoinStep(s: State, e: Event, u: Tid, t: Tid)
    requires Inv(s) && Enabled(s, e) && ContOf(Next(s, e).0, u) == InCondWait(Term(t))
    ensures ContOf(s, u) == InCondWait(Term(t))
            || (u == s.current && e == Do(CJoin(t)) && Next(s, e).1 == None)
  {
    hide Inv, Next, Enabled, Goes, Change;
    if u == s.current {
      MyPlace(s, e);
      WaitsBy(s, e, InCondWait(Term(t)));
      if e == Do(CJoin(t)) {
        WaitIsNoReturn(s, e, t);
      }
    } else {
      StepChange(s, e);
      assert ChangeOk(s, e, Next(s, e).0, u);
      WaitingChange(s, e, u, Norm(Th(s, u)), Norm(Th(Next(s, e).0, u)), t);
    }
  }

  lemma WaitingChange(s: State, e: Event, u: Tid, th: Thread, th': Thread, t: Tid)
    requires Change(s, e, u, th, th') && th'.cont == InCondWait(Term(t))
    ensures th.cont == InCondWait(Term(t))
  {
  }

  lemma WaitIsNoReturn(s: State, e: Event, t: Tid)
    requires Inv(s) && Enabled(s, e) && e == Do(CJoin(t)) && ContOf(Next(s, e).0, s.current) == InCondWait(Term(t))
    ensures Next(s, e).1 == None
  {
    hide Inv, CondTimedwait, Joined, CondQ;
    JoinParts(s, t);
    CallingCurrent(s);
    CondReturns(s, Term(t));
    if Th(s, t).state == Zombie {
      JoinedPlace(s, t);
    }
  }

  lemma CondReturns(s: State, c: Cond)
    requires s.current in s.threads
    ensures CondTimedwait(s, c, None).1.Some? ==> ContOf(CondTimedwait(s, c, None).0, s.current).InProgram?
  {
    hide Schedule;
    BlockedPlace(s, c, None);
  }

  /** When a thread comes to be finished nobody waits for it. */
  lemma {:induction false} EmptiedBetween(states: seq<State>, events: seq<Event>, i: nat, n: nat, t: Tid) returns (f: nat)
    requires IsRun(states, events) && i < n <= |events| && !Finished(Th(states[i], t)) && Finished(Th(states[n], t))
    ensures i < f <= n && CondQ(states[f], Term(t)) == []
    decreases n
  {
    hide IsRun, Inv, Next, Enabled, Finished, TermOk, CondQ;
    RunStep(states, events, n - 1);
    if n > i + 1 && Finished(Th(states[n - 1], t)) {
      f := EmptiedBetween(states, events, i, n - 1, t);
    } else {
      forall m | 0 <= m < n - 1 ensures JoinsFresh(states[m], events[m], t) {
        if Finished(Th(states[m], t)) {
          StaysFinished(states, events, m, n - 1, t);
        }
      }
      RunTerm(states, events, n - 1, t);
      FinishedEmpty(states[n - 1], events[n - 1], t);
      f := n;
    }
  }

  /** A thread that waits for one that is finished made a late join. */
  lemma WaiterIsLate(states: seq<State>, events: seq<Event>, n: nat, u: Tid, t: Tid) returns (i: nat)
    requires IsRun(states, events) && n <= |events| && ContOf(states[n], u) == InCondWait(Term(t))
    requires Finished(Th(states[n], t))
    ensures i < n && Joining(states, i, n, u, t) && LateAt(states, events, i, u, t)
  {
    hide Inv, Next, Enabled, Finished;
    i := JoinCalled(states, events, n, u, t);
    if !Finished(Th(states[i], t)) {
      var f := EmptiedBetween(states, events, i, n, t);
      RunKeeps(states, events, f);
      NobodyIn(states[f], Term(t), u);
    }
  }

  lemma NobodyIn(s: State, c: Cond, u: Tid)
    requires Inv(s)
    ensures CondQ(s, c) == [] ==> ContOf(s, u) != InCondWait(c)
    ensures CondQ(s, c) != [] ==> ContOf(s, CondQ(s, c)[0]) == InCondWait(c)
  {
    assert CondOk(s, c, u) && (CondQ(s, c) != [] ==> CondOk(s, c, CondQ(s, c)[0]));
  }

  /**
   When a thread destroys its termination condition variable, nobody waits on it, so that st_cond_destroy
   frees it, exactly if each late joiner of it was interrupted and has returned.
   */
  lemma TermIsFree(states: seq<State>, events: seq<Event>, n: nat)
    requires IsRun(states, events) && n < |events|
    requires events[n] == Resume && ContOf(states[n], states[n].current).InExit?
    ensures var t := states[n].current;
            CondQ(states[n], Term(t)) == []
            <==> forall i :: 0 <= i < n && LateAt(states, events, i, states[i].current, t) ==>
                   GaveUp(states, events, i, n, states[i].current, t)
  {
    hide Inv, Next, Enabled, LateAt, GivesUpAt, Finished;
    var s, t := states[n], states[n].current;
    RunStep(states, events, n);
    Exiting(s);
    if CondQ(s, Term(t)) == [] {
      forall i | 0 <= i < n && LateAt(states, events, i, states[i].current, t)
        ensures GaveUp(states, events, i, n, states[i].current, t)
      {
        WaitsOrGaveUp(states, events, i, n, states[i].current, t);
        NobodyIn(s, Term(t), states[i].current);
      }
    } else {
      var u := CondQ(s, Term(t))[0];
      NobodyIn(s, Term(t), u);
      var i := WaiterIsLate(states, events, n, u, t);
      StillWaits(states, events, i, n, u, t);
    }
  }

  lemma Exiting(s: State)
    requires Inv(s) && ContOf(s, s.current).InExit?
    ensures Finished(Th(s, s.current))
  {
    ResumedThread(s);
  }

  /** A late joiner that waits has not given up. */
  lemma StillWaits(states: seq<State>, events: seq<Event>, i: nat, n: nat, u: Tid, t: Tid)
    requires IsRun(states, events) && i < n <= |events| && LateAt(states, events, i, u, t) && Joining(states, i, n, u, t)
    ensures !GaveUp(states, events, i, n, u, t) && states[i].current == u
  {
    hide IsRun, LateAt;
    LateParts(states, events, i, u, t);
    forall j | i < j < n ensures !GivesUpAt(states, events, i, j, u, t) {
      if GivesUpAt(states, events, i, j, u, t) {
        GivesUp(states, events, i, j, u, t);
      }
    }
  }

  /** If the program makes no late join, nobody waits. */
  lemma NoLateJoins(states: seq<State>, events: seq<Event>, n: nat)
    requires IsRun(states, events) && n < |events|
    requires events[n] == Resume && ContOf(states[n], states[n].current).InExit?
    requires forall i :: 0 <= i < n ==> JoinsFresh(states[i], events[i], states[n].current)
    ensures CondQ(states[n], Term(states[n].current)) == []
  {
    hide Inv, Next, Enabled, Finished, CondQ;
    TermIsFree(states, events, n);
  }

  // ----- A run in which a late joiner is left behind -----

  const IDLE := 0
  const MAIN := 1
  const WORKER := 2

  /** A processor with no sleepers, no I/O and no mutexes. */
  function Small(idle: Thread, main: Thread, worker: Thread, current: Tid, runq: seq<Tid>, zombieq: seq<Tid>,
                 joiners: seq<Tid>): State
  {
    State(map[IDLE := idle, MAIN := main, WORKER := worker], current, IDLE, runq, zombieq, SQ.Queue([], 0), 0, [],
          IO.Io([], IO.Interest(map[], {}), -1), map[Term(WORKER) := joiners], map[], false)
  }

  function At(state: Status, cont: Cont): Thread {
    Thread(state, cont, false, false, false, false, 0)
  }

  /** The worker, which was joined unless it is a zombie, with 7 as its value. */
  function Exited(state: Status): Thread {
    Thread(state, InExit, false, false, false, true, 7)
  }

  const IDLING := At(Runnable, IdleLoop)
  const CREATED := NEWBORN.(joinable := true)
  const JOINING := InCondWait(Term(WORKER))

  function Events(): seq<Event> {
    [Do(CCreate(WORKER, true)), Do(CJoin(WORKER)), Resume, Do(CExit(7)), Resume, Do(CJoin(WORKER)), Resume]
  }

  function States(): seq<State> {
    [Init(IDLE, MAIN, 0, []),
     Small(IDLING, At(Running, InProgram), CREATED, MAIN, [WORKER], [], []).(conds := map[]),
     Small(IDLING, At(CondWait, JOINING), CREATED.(state := Running), WORKER, [], [], [MAIN]),
     Small(IDLING, At(CondWait, JOINING), CREATED.(state := Running, cont := InProgram), WORKER, [], [], [MAIN]),
     Small(IDLING, At(Running, JOINING), Exited(Zombie), MAIN, [], [WORKER], [MAIN]),
     Small(IDLING, At(Running, InProgram), Exited(Runnable), MAIN, [WORKER], [], []),
     Small(IDLING, At(CondWait, JOINING), Exited(Running), WORKER, [], [], [MAIN]),
     Small(IDLING.(state := Running), At(CondWait, JOINING), Thread(Running, Gone, false, false, false, false, 7),
           IDLE, [], [], [MAIN])]
  }

  lemma PutSmall(s: State, idle: Thread, main: Thread, worker: Thread, t: Tid, th: Thread)
    requires s.threads == map[IDLE := idle, MAIN := main, WORKER := worker] && t in {IDLE, MAIN, WORKER}
    ensures Put(s, t, th).threads
         == map[IDLE := if t == IDLE then th else idle, MAIN := if t == MAIN then th else main,
                WORKER := if t == WORKER then th else worker]
  {
  }

  /** The first on the run queue, or else the idle thread, gets the processor. */
  lemma ScheduleSmall(s: State, idle: Thread, main: Thread, worker: Thread, t: Tid)
    requires s.threads == map[IDLE := idle, MAIN := main, WORKER := worker] && t in {IDLE, MAIN, WORKER}
    requires s.idle == IDLE && (s.runq == [t] || (s.runq == [] && t == IDLE))
    requires (if t == IDLE then idle else if t == MAIN then main else worker).state == Runnable
    ensures Schedule(s)
         == s.(threads := map[IDLE := if t == IDLE then idle.(state := Running) else idle,
                              MAIN := if t == MAIN then main.(state := Running) else main,
                              WORKER := if t == WORKER then worker.(state := Running) else worker],
               runq := [], current := t)
  {
    PutSmall(s.(runq := []), idle, main, worker, t,
             (if t == IDLE then idle else if t == MAIN then main else worker).(state := Running));
  }

  lemma Creates(s: State)
    requires s == Init(IDLE, MAIN, 0, [])
    ensures Enabled(s, Do(CCreate(WORKER, true)))
    ensures Next(s, Do(CCreate(WORKER, true))).0
         == Small(IDLING, At(Running, InProgram), CREATED, MAIN, [WORKER], [], []).(conds := map[])
  {
    var s' := Create(s, WORKER, true);
    assert s'.threads == map[IDLE := IDLING, MAIN := At(Running, InProgram), WORKER := CREATED];
    PutSmall(s', IDLING, At(Running, InProgram), CREATED, MAIN, At(Running, InProgram));
  }

  /** The main thread joins a worker that is runnable: it waits. */
  lemma JoinsWorker(s: State, worker: Thread)
    requires s.(conds := map[]) == Small(IDLING, At(Running, InProgram), worker, MAIN, [WORKER], [], []).(conds := map[])
    requires (s.conds == map[] || s.conds == map[Term(WORKER) := []])
    requires worker.state == Runnable && worker.joinable && !Dead(worker.cont)
    ensures Enabled(s, Do(CJoin(WORKER)))
    ensures Next(s, Do(CJoin(WORKER)))
         == (Small(IDLING, At(CondWait, JOINING), worker.(state := Running), WORKER, [], [], [MAIN]), None)
  {
    hide Schedule;
    var blocked := At(CondWait, JOINING);
    var s1 := Block(s, CondWait, JOINING).(conds := s.conds[Term(WORKER) := [MAIN]]);
    PutSmall(s, IDLING, At(Running, InProgram), worker, MAIN, blocked);
    assert s1.conds == map[Term(WORKER) := [MAIN]];
    ScheduleSmall(s1, IDLING, blocked, worker, WORKER);
    assert CondQ(s, Term(WORKER)) + [MAIN] == [MAIN];
  }

  lemma Begins(s: State)
    requires s == Small(IDLING, At(CondWait, JOINING), CREATED.(state := Running), WORKER, [], [], [MAIN])
    ensures Enabled(s, Resume)
    ensures Next(s, Resume).0
         == Small(IDLING, At(CondWait, JOINING), CREATED.(state := Running, cont := InProgram), WORKER, [], [], [MAIN])
  {
    PutSmall(s, IDLING, At(CondWait, JOINING), CREATED.(state := Running), WORKER,
             CREATED.(state := Running, cont := InProgram));
  }

  lemma Exits(s: State)
    requires s == Small(IDLING, At(CondWait, JOINING), CREATED.(state := Running, cont := InProgram), WORKER, [], [], [MAIN])
    ensures Enabled(s, Do(CExit(7)))
    ensures Next(s, Do(CExit(7))).0 == Small(IDLING, At(Running, JOINING), Exited(Zombie), MAIN, [], [WORKER], [MAIN])
  {
    hide Schedule, Exit;
    var joiner, worker := At(CondWait, JOINING), CREATED.(state := Running, cont := InProgram);
    var s1 := Dying(s, 7);
    PutSmall(s, IDLING, joiner, worker, WORKER, Exited(Zombie));
    SignalIsWake(s1, [MAIN]);
    PutSmall(s1, IDLING, joiner, Exited(Zombie), MAIN, joiner.(state := Runnable));
    ScheduleSmall(Wake(s1, MAIN), IDLING, joiner.(state := Runnable), Exited(Zombie), MAIN);
    ExitIs(s, 7);
  }

  lemma IsJoined(s: State)
    requires s == Small(IDLING, At(Running, JOINING), Exited(Zombie), MAIN, [], [WORKER], [MAIN])
    ensures Enabled(s, Resume)
    ensures Next(s, Resume) == (Small(IDLING, At(Running, InProgram), Exited(Runnable), MAIN, [WORKER], [], []), Some(Ok(7)))
  {
    hide Without;
    var s1 := CondLeave(s, Term(WORKER));
    WithoutOnly(MAIN);
    WithoutOnly(WORKER);
    PutSmall(s, IDLING, At(Running, JOINING), Exited(Zombie), MAIN, At(Running, InProgram));
    assert s1.conds == map[Term(WORKER) := []];
    PutSmall(s1.(zombieq := []), IDLING, At(Running, InProgram), Exited(Zombie), WORKER, Exited(Runnable));
    var s2 := MakeRunnable(s1.(zombieq := []), WORKER);
    assert s2.runq == [WORKER];
    PutSmall(s2, IDLING, At(Running, InProgram), Exited(Runnable), MAIN, At(Running, InProgram));
  }

  lemma Leaves(s: State)
    requires s == Small(IDLING, At(CondWait, JOINING), Exited(Running), WORKER, [], [], [MAIN])
    ensures Enabled(s, Resume)
    ensures Next(s, Resume).0
         == Small(IDLING.(state := Running), At(CondWait, JOINING), Thread(Running, Gone, false, false, false, false, 7),
                  IDLE, [], [], [MAIN])
  {
    hide Schedule;
    var gone := Thread(Running, Gone, false, false, false, false, 7);
    PutSmall(s, IDLING, At(CondWait, JOINING), Exited(Running), WORKER, gone);
    ScheduleSmall(Put(s, WORKER, gone), IDLING, At(CondWait, JOINING), gone, IDLE);
    ExitEndIs(s);
  }

  /**
   A thread joins another, and again before the other has cleaned up: the other then destroys a condition
   variable on which the first still waits, and goes. Only the idle thread is left to run, so that nothing can
   end that wait.
   */
  lemma LeftBehind()
    ensures IsRun(States(), Events()) && LateAt(States(), Events(), 5, MAIN, WORKER)
    ensures Events()[6] == Resume && States()[6].current == WORKER && ContOf(States()[6], WORKER).InExit?
    ensures CondQ(States()[6], Term(WORKER)) == [MAIN] && ContOf(States()[7], WORKER).Gone?
    ensures States()[7].current == IDLE && States()[7].runq == [] && CondQ(States()[7], Term(WORKER)) == [MAIN]
  {
    hide Enabled, Next;
    Creates(States()[0]);
    JoinsWorker(States()[1], CREATED);
    Begins(States()[2]);
    Exits(States()[3]);
    IsJoined(States()[4]);
    JoinsWorker(States()[5], Exited(Runnable));
    Leaves(States()[6]);
    assert States()[0] == Init(IDLE, MAIN, 0, States()[0].fds);
  }
}
