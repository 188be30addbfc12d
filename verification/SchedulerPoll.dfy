/** What st_poll returns, over whole runs: a request stays on the I/O queue as it was made until its call ends. */
module SchedulerPoll {
  import opened Wrappers
  import opened Queues
  import opened Scheduler
  import opened SchedulerInvariant
  import opened SchedulerSteps
  import opened SchedulerEffects
  import opened SchedulerFrames
  import opened SchedulerPlaces
  import opened SchedulerCond
  import opened SchedulerTheorems
  import opened SchedulerClock
  import opened SchedulerReturns
  import opened SchedulerCalls
  import SQ = SleepQueue
  import IO = IoQueue

  // ----- What a step does to the I/O queue -----

  predicate SameIo(s: State, s': State) {
    s'.io == s.io
  }

  lemma WakeIoq(s: State, t: Tid)
    ensures SameIo(s, Wake(s, t))
  {
    hide SQ.Valid, SQ.Has, SQ.Del;
  }

  lemma {:induction false} SignalIo(s: State, q: seq<Tid>, broadcast: bool)
    ensures SameIo(s, Signal(s, q, broadcast))
    decreases q
  {
    hide Wake;
    if q != [] {
      WakeIoq(s, q[0]);
      if Th(s, q[0]).state != CondWait {
        SignalIo(s, q[1..], broadcast);
      } else if broadcast {
        SignalIo(Wake(s, q[0]), q[1..], true);
      }
    }
  }

  lemma {:induction false} HandOffIo(s: State, m: nat, q: seq<Tid>)
    ensures SameIo(s, HandOff(s, m, q))
    decreases q
  {
    if q != [] {
      HandOffIo(s, m, q[1..]);
    }
  }

  lemma {:induction false} WakeAllIo(s: State, notified: seq<IO.Request>)
    ensures SameIo(s, WakeAll(s, notified))
    decreases notified
  {
    hide Wake;
    if notified != [] {
      WakeIoq(s, notified[0].thread);
      WakeAllIo(Wake(s, notified[0].thread), notified[1..]);
    }
  }

  lemma {:induction false} ExpireIo(s: State, elapsed: nat)
    ensures SameIo(s, Expire(s, elapsed))
    decreases |s.sleep.sleepers|
  {
    hide SQ.Valid, SQ.Shorten;
    if SQ.Valid(s.sleep) && s.sleep.sleepers != [] && s.sleep.sleepers[0].sleep <= elapsed {
      ExpireIo(ExpireFirst(s), elapsed - s.sleep.sleepers[0].sleep);
    }
  }

  lemma TimedIo(s: State, t: Tid, timeout: Option<nat>)
    ensures SameIo(s, Timed(s, t, timeout)) && SameIo(s, Schedule(s))
  {
    hide SQ.Valid, SQ.Add;
  }

  lemma CondIo(s: State, c: Cond, timeout: Option<nat>)
    ensures SameIo(s, CondTimedwait(s, c, timeout).0)
  {
    hide Timed, Schedule;
    var s1 := Block(s, CondWait, InCondWait(c)).(conds := s.conds[c := CondQ(s, c) + [s.current]]);
    TimedIo(s1, s.current, timeout);
    TimedIo(Timed(s1, s.current, timeout), s.current, timeout);
  }

  lemma JoinIo(s: State, t: Tid)
    ensures SameIo(s, Join(s, t).0) && SameIo(s, Joined(s, t).0)
  {
    hide CondTimedwait, Without;
    CondIo(s, Term(t), None);
  }

  lemma CondEndIo(s: State, c: Cond)
    ensures SameIo(s, CondEnd(s, c).0)
  {
    hide CondTimedwait, Joined, Without;
    var s1 := CondLeave(s, c);
    CondIo(s1, c, None);
    if c.Term? {
      JoinIo(s1, c.thread);
    }
  }

  lemma UsleepIo(s: State, usecs: nat)
    ensures SameIo(s, Usleep(s, usecs).0)
  {
    hide Timed, Schedule;
    var s1 := Block(s, Sleeping, InUsleep);
    TimedIo(s1, s.current, Some(usecs));
    TimedIo(Timed(s1, s.current, Some(usecs)), s.current, None);
  }

  lemma ExitIo(s: State, retval: int)
    ensures SameIo(s, Exit(s, retval))
  {
    hide Signal, Schedule, Exit;
    ExitIs(s, retval);
    var s1 := Dying(s, retval);
    SignalIo(s1, CondQ(s1, Term(s.current)), false);
    TimedIo(CondSignal(s1, Term(s.current), false), s.current, None);
    TimedIo(Put(s, s.current, Th(s, s.current).(retval := retval, cont := Gone)), s.current, None);
  }

  lemma LockIo(s: State, m: nat)
    ensures SameIo(s, Lock(s, m).0) && SameIo(s, Trylock(s, m).0)
  {
  }

  lemma UnlockIo(s: State, m: nat)
    ensures SameIo(s, Unlock(s, m).0)
  {
    hide HandOff;
    HandOffIo(s, m, LockQ(s, m));
  }

  lemma InterruptIo(s: State, t: Tid)
    ensures SameIo(s, Interrupt(s, t))
  {
    hide Wake;
    WakeIoq(Put(s, t, Th(s, t).(interrupt := true)), t);
  }

  lemma LockEndIo(s: State, m: nat)
    ensures SameIo(s, LockEnd(s, m).0) && SameIo(s, UsleepEnd(s).0) && SameIo(s, ExitEnd(s))
  {
    hide Without;
  }

  lemma CallIo(s: State, call: Call)
    requires CallOk(s, call) && !call.CPoll?
    ensures SameIo(s, Perform(s, call).0)
  {
    hide Usleep, CondTimedwait, Signal, HandOff, Lock, Unlock, Trylock, Interrupt, Exit, Join;
    match call
    case CUsleep(usecs) => UsleepIo(s, usecs);
    case CCondWait(c, timeout) => CondIo(s, User(c), timeout);
    case CCondSignal(c, broadcast) => SignalIo(s, CondQ(s, User(c)), broadcast);
    case CLock(m) => LockIo(s, m);
    case CUnlock(m) => UnlockIo(s, m);
    case CTrylock(m) => LockIo(s, m);
    case CInterrupt(t) => InterruptIo(s, t);
    case CCreate(_, _) =>
    case CExit(retval) => ExitIo(s, retval);
    case CJoin(t) => JoinIo(s, t);
  }

  /** The queue of s' holds only requests of the queue of s, and perhaps r. */
  ghost predicate Grows(s: State, s': State, r: IO.Request) {
    forall q :: q in s'.io.queue ==> q in s.io.queue || q == r
  }

  lemma PollIo(s: State, pds: seq<IO.PollFd>, timeout: Option<nat>)
    requires IO.Legal(s.fds, pds)
    ensures Grows(s, Poll(s, pds, timeout).0, IO.Request(s.current, pds))
  {
    hide Timed, Schedule, IO.Legal, IO.AddKeys, IO.Highest;
    var s1 := Block(s, IoWait, InPoll(pds, true, [])).(io := IO.Register(s.fds, s.io, IO.Request(s.current, pds)));
    TimedIo(s1, s.current, timeout);
    TimedIo(Timed(s1, s.current, timeout), s.current, None);
  }

  lemma PollEndIo(s: State)
    requires ContOf(s, s.current).InPoll?
    ensures forall q :: q in PollEnd(s).0.io.queue ==> q in s.io.queue
  {
    hide IO.DropKeys, IO.Legal, IO.CanDrop, CountReady, IO.Find;
  }

  lemma GoOnIo(s: State)
    ensures forall q :: q in GoOn(s).0.io.queue ==> q in s.io.queue
  {
    hide UsleepEnd, CondEnd, LockEnd, PollEnd, ExitEnd;
    match ContOf(s, s.current)
    case InCondWait(c) => CondEndIo(s, c);
    case InPoll(_, _, _) => PollEndIo(s);
    case InLock(m) => LockEndIo(s, m);
    case _ => LockEndIo(s, 0);
  }

  lemma RoundIo(s: State, r: Selected, now: nat)
    requires Inv(s) && s.current == s.idle
    ensures forall q :: q in IdleRound(s, r, now).io.queue ==> q in s.io.queue
  {
    hide Inv, VpIdle, Expire, Schedule;
    VpIdleIo(s, r);
    var s1 := VpIdle(s, r);
    if s1.lastClock <= now {
      ExpireIo(s1.(lastClock := now), now - s1.lastClock);
    }
    TimedIo(Put(CheckClock(s1, now), s.idle, Th(CheckClock(s1, now), s.idle).(state := Runnable)), s.idle, None);
    RoundIs(s, r, now);
  }

  lemma VpIdleIo(s: State, r: Selected)
    requires Inv(s) && s.current == s.idle
    ensures forall q :: q in VpIdle(s, r).io.queue ==> q in s.io.queue
  {
    hide Inv, WakeAll, Mark, IO.Notify, IO.CanScan, IO.Ready, IO.NotReady, IO.HighestOfInterest;
    if r.Found? {
      InvLinks(s);
      IoExact(s);
      IO.NotifyKeeps(s.fds, s.io, r.ready);
      FoundIs(s, r.ready);
      IO.NotReadyMembers(s.fds, r.ready, s.io.queue);
      var (io, notified) := IO.Notify(s.fds, s.io, r.ready);
      WakeAllIo(s.(io := io, threads := Mark(s, notified, r.ready)), notified);
    }
  }

  /** Only a call of st_poll puts a request on the queue, and it is its own. */
  lemma StepIo(s: State, e: Event, q: IO.Request)
    requires Inv(s) && Enabled(s, e) && q in Next(s, e).0.io.queue
    ensures q in s.io.queue || (e.Do? && e.call.CPoll? && q == IO.Request(s.current, e.call.pds))
  {
    hide Inv, Perform, GoOn, IdleRound, CallOk;
    match e
    case Do(call) =>
      if call.CPoll? {
        CallOkPoll(s, call);
        PollIo(s, call.pds, call.timeout);
      } else {
        CallIo(s, call);
      }
    case Resume => GoOnIo(s);
    case Idle(r, now) => RoundIo(s, r, now);
  }

  lemma CallOkPoll(s: State, call: Call)
    requires CallOk(s, call) && call.CPoll?
    ensures IO.Legal(s.fds, call.pds) && Perform(s, call) == Poll(s, call.pds, call.timeout)
  {
    hide IO.Legal, Poll;
  }

  // ----- The request of a thread -----

  /** A queued request asks for what its thread waits for. */
  predicate RequestOk(s: State, q: IO.Request) {
    q in s.io.queue ==> ContOf(s, q.thread).InPoll? && ContOf(s, q.thread).pds == q.pds
  }

  ghost predicate RequestsOk(s: State) {
    forall q :: RequestOk(s, q)
  }

  lemma QueuedPolls(s: State, q: IO.Request)
    requires Inv(s) && q in s.io.queue
    ensures ContOf(s, q.thread).InPoll? && ContOf(s, q.thread).onIoq
  {
    QueuedMember(s.io.queue, q);
    assert PollOk(s, q.thread);
  }

  lemma PollSets(s: State, pds: seq<IO.PollFd>, timeout: Option<nat>)
    requires s.current in s.threads && IO.Legal(s.fds, pds)
    ensures var k := ContOf(Poll(s, pds, timeout).0, s.current); k.InPoll? ==> k.pds == pds
  {
    hide Schedule, Timed, IO.Register, IO.Legal;
    var s1 := Block(s, IoWait, InPoll(pds, true, [])).(io := IO.Register(s.fds, s.io, IO.Request(s.current, pds)));
    TimedSame(s1, timeout);
    ScheduleSame(Timed(s1, s.current, timeout));
  }

  lemma StaysQueued(s: State, e: Event, t: Tid, th: Thread, th': Thread)
    requires Change(s, e, t, th, th') && th'.cont.InPoll? && th'.cont.onIoq
    ensures th'.cont == th.cont
  {
  }

  lemma MyRequest(s: State, e: Event, q: IO.Request)
    requires Inv(s) && Enabled(s, e) && Inv(Next(s, e).0) && q in Next(s, e).0.io.queue && q.thread == s.current
    ensures e.Do? && e.call.CPoll? && q !in s.io.queue && ContOf(Next(s, e).0, q.thread).InPoll?
  {
    hide Inv, Next, Enabled, Goes;
    QueuedPolls(Next(s, e).0, q);
    MyPlace(s, e);
    WaitsBy(s, e, ContOf(Next(s, e).0, q.thread));
    NotQueuedYet(s, e, q);
  }

  lemma NotQueuedYet(s: State, e: Event, q: IO.Request)
    requires Inv(s) && Enabled(s, e) && e.Do? && q.thread == s.current
    ensures q !in s.io.queue
  {
    if q in s.io.queue {
      QueuedPolls(s, q);
    }
  }

  lemma RequestKept(s: State, e: Event, q: IO.Request)
    requires Inv(s) && Enabled(s, e) && RequestOk(s, q)
    ensures RequestOk(Next(s, e).0, q)
  {
    hide Inv, Next, Enabled, Change, Goes;
    var s' := Next(s, e).0;
    NextKeeps(s, e);
    if q in s'.io.queue {
      QueuedPolls(s', q);
      StepIo(s, e, q);
      if q.thread == s.current {
        MyRequest(s, e, q);
        PollMade(s, e);
      } else {
        StepChange(s, e);
        assert ChangeOk(s, e, s', q.thread);
        StaysQueued(s, e, q.thread, Norm(Th(s, q.thread)), Norm(Th(s', q.thread)));
      }
    }
  }

  lemma PollMade(s: State, e: Event)
    requires Inv(s) && Enabled(s, e) && e.Do? && e.call.CPoll?
    ensures var k := ContOf(Next(s, e).0, s.current); k.InPoll? ==> k.pds == e.call.pds
  {
    hide Inv, Poll, IO.Legal;
    ResumedThread(s);
    CallOkPoll(s, e.call);
    PollSets(s, e.call.pds, e.call.timeout);
  }

  lemma NoRequestsYet(states: seq<State>, events: seq<Event>, q: IO.Request)
    requires IsRun(states, events)
    ensures RequestOk(states[0], q)
  {
  }

  /** In every state of every run each queued request asks for what its thread waits for. */
  lemma {:induction false} RunRequests(states: seq<State>, events: seq<Event>, n: nat, q: IO.Request)
    requires IsRun(states, events) && n <= |events|
    ensures RequestOk(states[n], q)
  {
    hide Inv, Next, Enabled, RequestOk;
    if n == 0 {
      NoRequestsYet(states, events, q);
    } else {
      RunRequests(states, events, n - 1, q);
      RunStep(states, events, n - 1);
      RequestKept(states[n - 1], events[n - 1], q);
    }
  }

  // ----- What a round of the idle thread makes of it -----

  /** The round finds an event of one of these descriptors. */
  ghost predicate Finds(s: State, e: Event, pds: seq<IO.PollFd>) {
    e.Idle? && e.selected.Found? && IO.AnyShows(s.fds, e.selected.ready, pds)
  }

  /** The revents of each descriptor are the events that it asked for and that are there. */
  ghost predicate Tells(fds: seq<int>, ready: set<IO.Key>, pds: seq<IO.PollFd>, revents: seq<set<IO.Event>>) {
    && |revents| == |pds|
    && forall i, e :: 0 <= i < |pds| ==> (e in revents[i] <==> IO.Shows(fds, ready, pds[i], e))
  }

  lemma ReventsTell(fds: seq<int>, ready: set<IO.Key>, pds: seq<IO.PollFd>)
    ensures Tells(fds, ready, pds, Revents(fds, ready, pds))
  {
    hide IO.Revents, IO.Shows;
    forall i, e | 0 <= i < |pds| ensures e in Revents(fds, ready, pds)[i] <==> IO.Shows(fds, ready, pds[i], e) {
      IO.ReventsShow(fds, ready, pds[i]);
    }
  }

  lemma QueuedHas(queue: seq<IO.Request>, t: Tid) returns (q: IO.Request)
    requires IO.Queued(queue, t)
    ensures q in queue && q.thread == t
  {
    q := queue[IO.Find(queue, t)];
  }

  /** The request of t is notified exactly if one of its events is there. */
  lemma NotifiedIf(s: State, ready: set<IO.Key>, t: Tid)
    requires IO.OnePerThread(s.io.queue) && RequestsOk(s) && IO.Queued(s.io.queue, t)
    ensures ContOf(s, t).InPoll?
    ensures IO.Queued(IO.Ready(s.fds, ready, s.io.queue), t) <==> IO.IsReady(s.fds, ready, ContOf(s, t).pds)
  {
    hide IO.Ready, IO.NotReady, IO.IsReady, IO.Queued, IO.OnePerThread, ContOf;
    var queue := s.io.queue;
    IO.ReadyMembers(s.fds, ready, queue);
    var q := QueuedHas(queue, t);
    assert RequestOk(s, q);
    if IO.Queued(IO.Ready(s.fds, ready, queue), t) {
      var p := QueuedHas(IO.Ready(s.fds, ready, queue), t);
      assert RequestOk(s, p);
    }
    if IO.IsReady(s.fds, ready, ContOf(s, t).pds) {
      QueuedMember(IO.Ready(s.fds, ready, queue), q);
    }
  }

  lemma MarkedCont(s: State, notified: seq<IO.Request>, ready: set<IO.Key>, io: IO.Io, t: Tid)
    requires ContOf(s, t).InPoll?
    ensures var s1 := s.(io := io, threads := Mark(s, notified, ready));
            Th(s1, t) == if IO.Queued(notified, t) then
                           Th(s, t).(cont := ContOf(s, t).(onIoq := false, revents := Revents(s.fds, ready, ContOf(s, t).pds)))
                         else Th(s, t)
  {
    hide IO.Queued, Revents;
  }

  /** What looking for I/O does to a thread that waits for it. */
  lemma FoundThread(s: State, ready: set<IO.Key>, t: Tid)
    requires Inv(s) && s.current == s.idle && RequestsOk(s) && IO.Queued(s.io.queue, t)
    ensures ContOf(s, t).InPoll?
    ensures var k := ContOf(s, t);
            Th(VpIdle(s, Found(ready)), t)
            == if IO.IsReady(s.fds, ready, k.pds) then
                 Th(s, t).(state := Runnable, onSleepq := false,
                           cont := k.(onIoq := false, revents := Revents(s.fds, ready, k.pds)))
               else Th(s, t)
  {
    hide *;
    MarkedKeeps(s, ready);
    InvLinks(s);
    IoExact(s);
    ExactParts(s.fds, s.io);
    IO.NotifyKeeps(s.fds, s.io, ready);
    NotifiedIf(s, ready, t);
    var (io, notified) := IO.Notify(s.fds, s.io, ready);
    MarkedCont(s, notified, ready, io, t);
    var s1 := s.(io := io, threads := Mark(s, notified, ready));
    WakeAllEffect(s1, Some(s.idle), notified);
    WokenThread(s1, WakeAll(s1, notified), notified, t);
  }

  lemma WokenThread(s: State, s': State, notified: seq<IO.Request>, t: Tid)
    requires WokenForIo(s, s', notified, t)
    ensures Th(s', t) == if IO.Queued(notified, t) then Th(s, t).(state := Runnable, onSleepq := false) else Th(s, t)
  {
    hide IO.Queued;
  }

  lemma {:induction false} CountConcat(a: seq<set<IO.Event>>, b: seq<set<IO.Event>>)
    ensures CountReady(a + b) == CountReady(a) + CountReady(b)
  {
    if a == [] {
      assert a + b == b;
    } else {
      assert (a + b)[1..] == a[1..] + b;
      CountConcat(a[1..], b);
    }
  }

  lemma CountLast(revents: seq<set<IO.Event>>, x: set<IO.Event>)
    ensures CountReady(revents + [x]) == CountReady(revents) + (if x != {} then 1 else 0)
  {
    CountConcat(revents, [x]);
    assert CountReady([x]) == (if x != {} then 1 else 0) + CountReady([x][1..]);
  }

  /** The loop counts the descriptors that have some event. */
  lemma {:induction false} CountIs(revents: seq<set<IO.Event>>, some: set<nat>)
    requires forall i: nat :: i in some <==> i < |revents| && revents[i] != {}
    ensures CountReady(revents) == |some|
    decreases |revents|
  {
    hide CountReady;
    if revents == [] {
      assert some == {};
      NoneCounted();
    } else {
      var n := |revents| - 1;
      assert revents == revents[..n] + [revents[n]];
      CountLast(revents[..n], revents[n]);
      CountIs(revents[..n], some - {n});
    }
  }

  lemma NoneCounted()
    ensures CountReady([]) == 0
  {
  }

  /** Who is notified is told the number of its descriptors that show something, which is not zero. */
  lemma ReadyCounts(fds: seq<int>, ready: set<IO.Key>, pds: seq<IO.PollFd>)
    ensures CountReady(Revents(fds, ready, pds)) == |IO.Showing(fds, ready, pds)|
    ensures IO.AnyShows(fds, ready, pds) ==> |IO.Showing(fds, ready, pds)| > 0
  {
    hide IO.Revents, CountReady, Revents, IO.Shows;
    ReventsTell(fds, ready, pds);
    var revents, some := Revents(fds, ready, pds), IO.Showing(fds, ready, pds);
    forall i: nat ensures i in some <==> i < |revents| && revents[i] != {} {
      if i in some {
        var e :| IO.Shows(fds, ready, pds[i], e);
        assert e in revents[i];
      }
    }
    CountIs(revents, some);
    if IO.AnyShows(fds, ready, pds) {
      var i, e :| 0 <= i < |pds| && IO.Shows(fds, ready, pds[i], e);
      assert i in some;
    }
  }

  /** The clock check of a round leaves every thread in its place, and awake if it is. */
  lemma ClockPlaces(s: State, e: Event, t: Tid)
    requires Inv(s) && Enabled(s, e) && e.Idle? && t != s.idle
    ensures var th, th' := Th(VpIdle(s, e.selected), t), Th(Next(s, e).0, t);
            th'.cont == th.cont && (th.state == Runnable ==> Norm(th').state == Runnable)
  {
    hide *;
    IdleIs(s, e);
    ClockWakesDue(s, e.selected, e.now);
    NextKeeps(s, e);
    NoFault(Next(s, e).0);
    RoundSleeps(s, e.selected, e.now);
    var s1, s2 := VpIdle(s, e.selected), CheckClock(VpIdle(s, e.selected), e.now);
    assert Norm(Th(Next(s, e).0, t)) == Norm(Th(s2, t));
    assert Th(s2, t) == TimedOut(Th(s1, t)) || Th(s2, t) == Th(s1, t);
    SamePlace(Th(s1, t), Th(s2, t), Th(Next(s, e).0, t));
  }

  lemma SamePlace(th: Thread, th2: Thread, th': Thread)
    requires (th2 == TimedOut(th) || th2 == th) && Norm(th') == Norm(th2)
    ensures th'.cont == th.cont && (th.state == Runnable ==> Norm(th').state == Runnable)
  {
  }

  lemma LooksElse(s: State, r: Selected, t: Tid)
    requires !r.Found?
    ensures Th(VpIdle(s, r), t) == Th(s, t)
  {
  }

  /** A round tells a thread that polls what it found, and wakes it if it found something. */
  lemma RoundPoll(s: State, e: Event, t: Tid)
    requires Inv(s) && Enabled(s, e) && e.Idle? && Th(s, t).state == IoWait && RequestsOk(s)
    ensures ContOf(s, t).InPoll?
    ensures var k, th' := ContOf(s, t), Th(Next(s, e).0, t);
            if Finds(s, e, k.pds) then
              && Active(th') && th'.cont == InPoll(k.pds, false, Revents(s.fds, e.selected.ready, k.pds))
              && Tells(s.fds, e.selected.ready, k.pds, th'.cont.revents)
            else th'.cont == k && k.onIoq && Th(VpIdle(s, e.selected), t) == Th(s, t)
  {
    hide Inv, Next, Enabled, VpIdle, IO.Queued, IO.IsReady, IO.AnyShows, Revents, Tells;
    IdleRuns(s, e);
    Polls(s, t);
    ClockPlaces(s, e, t);
    if e.selected.Found? {
      FoundThread(s, e.selected.ready, t);
      IO.ReadyShows(s.fds, e.selected.ready, ContOf(s, t).pds);
      ReventsTell(s.fds, e.selected.ready, ContOf(s, t).pds);
    } else {
      LooksElse(s, e.selected, t);
    }
  }

  lemma Polls(s: State, t: Tid)
    requires Inv(s) && Th(s, t).state == IoWait
    ensures ContOf(s, t).InPoll? && ContOf(s, t).onIoq && IO.Queued(s.io.queue, t) && t != s.idle
  {
    assert LinkOk(s, Some(s.current), t) && IoWaitOk(s, t) && PollOk(s, t);
  }

  // ----- What st_poll returns -----

  lemma PollGoesOn(s: State, e: Event)
    requires Inv(s) && Enabled(s, e) && ContOf(s, s.current).InPoll?
    ensures e == Resume && Next(s, e) == PollEnd(s)
    ensures PollEnd(s).1 == Some(PollResult(Th(s, s.current)))
  {
    hide PollEnd, PollResult;
    ResumedThread(s);
    hide Inv;
    PollEndResult(s);
  }

  function PollResult(th: Thread): Result
    requires th.cont.InPoll?
  {
    if th.interrupt then Err(EINTR) else Ok(if th.cont.onIoq then 0 else CountReady(th.cont.revents))
  }

  lemma PollEndResult(s: State)
    requires ContOf(s, s.current).InPoll?
    ensures PollEnd(s).1 == Some(PollResult(Th(s, s.current)))
  {
    hide CountReady, IO.Release, CanRelease;
  }

  lemma PollLeaves(s: State, e: Event)
    requires Inv(s) && Enabled(s, e) && ContOf(s, s.current).InPoll? && Inv(Next(s, e).0)
    ensures !IO.Queued(Next(s, e).0.io.queue, s.current)
  {
    hide Inv, IO.Queued, PollEnd;
    PollGoesOn(s, e);
    PollEndPlace(s);
    NotPolling(Next(s, e).0, s.current);
  }

  lemma NotPolling(s: State, t: Tid)
    requires Inv(s) && ContOf(s, t).InProgram?
    ensures !IO.Queued(s.io.queue, t)
  {
    assert PollOk(s, t);
  }

  /** What woke a thread that polls: an event, the clock, or an interrupt; the first two tell it what it finds. */
  lemma PollWoken(s: State, e: Event, t: Tid)
    requires Inv(s) && Enabled(s, e) && Th(s, t).state == IoWait && !IsWaiting(Th(Next(s, e).0, t))
    requires RequestsOk(s)
    ensures ContOf(s, t).InPoll?
    ensures var pds, k' := ContOf(s, t).pds, ContOf(Next(s, e).0, t);
            if Finds(s, e, pds) then k' == InPoll(pds, false, Revents(s.fds, e.selected.ready, pds))
            else k' == ContOf(s, t) && k'.onIoq
                 && if e.Idle? then DueAt(s, t, e.now) else e == Do(CInterrupt(t))
  {
    hide Inv, Next, Enabled, VpIdle, WokenBy, Finds, DueAt, Revents, IO.IsReady, IO.Queued;
    Polls(s, t);
    WakeStep(s, e, t);
    if e.Idle? {
      RoundPoll(s, e, t);
      if !Finds(s, e, ContOf(s, t).pds) {
        TimedOutPoll(s, e, t, Th(s, t), Th(Next(s, e).0, t));
        AsleepIs(s, t);
        AsleepIs(Next(s, e).0, t);
        AsleepIs(VpIdle(s, e.selected), t);
        WokenIsDue(s, e, t);
      }
    } else {
      NoFind(s, e, ContOf(s, t).pds);
      PollerWoken(s, e, t, Th(s, t), Th(Next(s, e).0, t));
    }
  }

  lemma NoFind(s: State, e: Event, pds: seq<IO.PollFd>)
    requires !e.Idle?
    ensures !Finds(s, e, pds)
  {
  }

  lemma TimedOutPoll(s: State, e: Event, t: Tid, th: Thread, th': Thread)
    requires WokenBy(s, e, t, th, Norm(th')) && e.Idle? && th'.cont == th.cont && th.cont.InPoll? && th.cont.onIoq
    ensures th.onSleepq && !th'.onSleepq
  {
  }

  lemma PollerWoken(s: State, e: Event, t: Tid, th: Thread, th': Thread)
    requires WokenBy(s, e, t, th, Norm(th')) && !e.Idle? && th.state == IoWait
    ensures e == Do(CInterrupt(t)) && th'.cont == th.cont
  {
  }

  lemma RequestsAt(states: seq<State>, events: seq<Event>, n: nat)
    requires IsRun(states, events) && n <= |events|
    ensures RequestsOk(states[n])
  {
    hide IsRun, RequestOk;
    RunLength(states, events);
    forall q ensures RequestOk(states[n], q) {
      RunRequests(states, events, n, q);
    }
  }

  /**
   A poll is ended once: by a round that finds one of its events, by the clock at or after its deadline, or by
   an interrupt. When the thread goes on, st_poll fails with EINTR exactly if an interrupt came at or after
   that; otherwise it returns the number of descriptors with events in the first case, which is not zero,
   and zero in the second. Its request is off the I/O queue.
   */
  lemma PollReturns(states: seq<State>, events: seq<Event>, k: nat, n: nat, t: Tid, pds: seq<IO.PollFd>)
    requires IsRun(states, events) && k < n < |events| && WokenAt(states, k, n, t) && states[n].current == t
    requires ContOf(states[k], t).InPoll? && ContOf(states[k], t).pds == pds
    ensures var s, e, r := states[k], events[k], Next(states[n], events[n]).1;
            && events[n] == Resume && !IO.Queued(states[n + 1].io.queue, t)
            && (Finds(s, e, pds) || (e.Idle? && DueAt(s, t, e.now)) || e == Do(CInterrupt(t)))
            && if InterruptedIn(events, k, n, t) then r == Some(Err(EINTR))
               else
                 && e.Idle?
                 && if Finds(s, e, pds) then
                      var found := |IO.Showing(s.fds, e.selected.ready, pds)|;
                      r == Some(Ok(found)) && found > 0
                    else r == Some(Ok(0))
  {
    hide IsRun, Inv, Next, Enabled, WokenBy, InterruptedIn, DueAt, RequestOk, Finds, CountReady, Revents, IO.Queued, IO.Showing;
    RunStep(states, events, k);
    RunStep(states, events, n);
    WaitingKnown(states[k], t);
    RequestsAt(states, events, k);
    PollWoken(states[k], events[k], t);
    WokenNoted(states, events, k, n, t);
    PollGoesOn(states[n], events[n]);
    NextKeeps(states[n], events[n]);
    PollLeaves(states[n], events[n]);
    if Finds(states[k], events[k], pds) {
      FindsSome(states[k], events[k], pds);
    } else if events[k] == Do(CInterrupt(t)) {
      InterruptedFirst(events, k, n, t);
    }
  }

  lemma FindsSome(s: State, e: Event, pds: seq<IO.PollFd>)
    requires Finds(s, e, pds)
    ensures e.Idle? && e.selected.Found?
    ensures CountReady(Revents(s.fds, e.selected.ready, pds)) == |IO.Showing(s.fds, e.selected.ready, pds)| > 0
  {
    hide CountReady, Revents, IO.AnyShows, IO.Showing;
    ReadyCounts(s.fds, e.selected.ready, pds);
  }

  lemma PollEndParts(s: State)
    requires ContOf(s, s.current).InPoll? && (ContOf(s, s.current).onIoq ==> CanRelease(s, s.current))
    ensures var (s', r) := PollEnd(s);
            && r == Some(PollResult(Th(s, s.current)))
            && Stays(s, s', Th(s, s.current).(interrupt := false, cont := InProgram))
            && s'.conds == s.conds && s'.mutexes == s.mutexes
            && s'.io == if ContOf(s, s.current).onIoq then IO.Release(s.fds, s.io, s.current) else s.io
  {
    hide IO.Release, IO.Legal, IO.CanDrop, CanRelease, CountReady;
  }

  lemma Releases(s: State)
    requires Inv(s) && ContOf(s, s.current).InPoll? && ContOf(s, s.current).onIoq
    ensures CanRelease(s, s.current) && IO.Queued(s.io.queue, s.current)
    ensures var i := IO.Find(s.io.queue, s.current);
            && IO.Release(s.fds, s.io, s.current).queue == s.io.queue[..i] + s.io.queue[i + 1..]
            && IO.Counts(s.fds, IO.Release(s.fds, s.io, s.current))
  {
    hide *;
    InvLinks(s);
    IoExact(s);
    StillQueuedFor(s, s.current);
    ReleaseQueue(s, s.current);
    IO.ReleaseKeeps(s.fds, s.io, s.current);
  }

  lemma StillQueuedFor(s: State, t: Tid)
    requires IoOk(s) && ContOf(s, t).InPoll? && ContOf(s, t).onIoq
    ensures IO.Queued(s.io.queue, t)
  {
    assert PollOk(s, t);
  }

  /**
   A request that is still queued is taken out. st_poll fails exactly if an interrupt is pending, and takes it;
   otherwise it returns the number of descriptors that were told of an event, zero for a request still queued.
   */
  lemma PollResumes(s: State)
    requires Inv(s) && Enabled(s, Resume) && ContOf(s, s.current).InPoll?
    ensures var (s', r) := Next(s, Resume);
            var th, k := Th(s, s.current), ContOf(s, s.current);
            && r == Some(if th.interrupt then Err(EINTR)
                         else Ok(if k.onIoq then 0 else |set i: nat | i < |k.revents| && k.revents[i] != {}|))
            && Stays(s, s', th.(interrupt := false, cont := InProgram))
            && s'.conds == s.conds && s'.mutexes == s.mutexes
            && if !k.onIoq then s'.io == s.io
               else
                 var i := IO.Find(s.io.queue, s.current);
                 && i < |s.io.queue| && s.io.queue[i].thread == s.current
                 && s'.io.queue == s.io.queue[..i] + s.io.queue[i + 1..] && IO.Counts(s.fds, s'.io)
  {
    hide Inv, IO.Release, IO.Counts, CountReady, IO.Find, CanRelease, PollEnd, Stays;
    var k := ContOf(s, s.current);
    PollGoesOn(s, Resume);
    if k.onIoq {
      Releases(s);
    }
    PollEndParts(s);
    CountIs(k.revents, set i: nat | i < |k.revents| && k.revents[i] != {});
  }
}
