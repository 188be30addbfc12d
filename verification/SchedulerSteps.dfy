/** Every step of the scheduler keeps its invariant. */
module SchedulerSteps {
  import opened Wrappers
  import opened Queues
  import opened Scheduler
  import opened SchedulerInvariant
  import SQ = SleepQueue
  import IO = IoQueue

  // ----- Signals -----

  /** A thread that a signal released. */
  function Signalled(th: Thread): Thread {
    th.(state := Runnable, onSleepq := false, timedout := false)
  }

  /** Some waiters in q were released, and nothing else happened to any thread. */
  ghost predicate SomeWoken(s: State, s': State, q: seq<Tid>) {
    SameRest(s, s') && forall u ::
      Th(s', u) == Th(s, u) || (u in q && Th(s, u).state == CondWait && Th(s', u) == Signalled(Th(s, u)))
  }

  lemma CondWaitPlace(s: State, r: Option<Tid>, t: Tid)
    requires Core(s, r) && Th(s, t).state == CondWait
    ensures ContOf(s, t).InCondWait? && IsWaiting(Th(s, t))
  {
    assert LinkOk(s, r, t);
  }

  lemma {:induction false} SignalKeeps(s: State, r: Option<Tid>, q: seq<Tid>, broadcast: bool)
    requires Core(s, r)
    ensures Core(Signal(s, q, broadcast), r) && SomeWoken(s, Signal(s, q, broadcast), q)
    decreases q
  {
    hide Core, Wake;
    if q != [] {
      if Th(s, q[0]).state == CondWait {
        CondWaitPlace(s, r, q[0]);
        WakeKeeps(s, r, q[0]);
        if broadcast {
          SignalKeeps(Wake(s, q[0]), r, q[1..], true);
        }
      } else {
        SignalKeeps(s, r, q[1..], broadcast);
      }
    }
  }

  // ----- Wait queues -----

  /** The places of all threads but t are as they were. */
  ghost predicate OtherPlaces(s: State, s': State, t: Tid) {
    forall u :: u != t ==> ContOf(s', u) == ContOf(s, u)
  }

  lemma CondsAppend(s: State, s': State, c: Cond, t: Tid)
    requires CondsOk(s) && OtherPlaces(s, s', t) && !ContOf(s, t).InCondWait?
    requires ContOf(s', t) == InCondWait(c) && s'.conds == s.conds[c := CondQ(s, c) + [t]]
    ensures CondsOk(s')
  {
    hide ContOf;
    assert CondOk(s, c, t);
    AppendMembers(CondQ(s, c), t);
    forall d, u ensures CondOk(s', d, u) {
      assert CondOk(s, d, u);
    }
    forall d ensures NoDup(CondQ(s', d)) {
      assert d != c ==> CondQ(s', d) == CondQ(s, d);
    }
  }

  lemma CondsRemove(s: State, s': State, c: Cond, t: Tid)
    requires CondsOk(s) && OtherPlaces(s, s', t) && ContOf(s, t) == InCondWait(c)
    requires !ContOf(s', t).InCondWait? && s'.conds == s.conds[c := Without(CondQ(s, c), t)]
    ensures CondsOk(s')
  {
    hide ContOf;
    WithoutMembers(CondQ(s, c), t);
    forall d, u ensures CondOk(s', d, u) {
      assert CondOk(s, d, u);
    }
    forall d ensures NoDup(CondQ(s', d)) {
      assert d != c ==> CondQ(s', d) == CondQ(s, d);
    }
  }

  lemma LocksAppend(s: State, s': State, m: nat, t: Tid)
    requires LocksOk(s) && OtherPlaces(s, s', t) && !ContOf(s, t).InLock?
    requires ContOf(s', t) == InLock(m)
    requires s'.mutexes == s.mutexes[m := MutexOf(s, m).(waitq := LockQ(s, m) + [t])]
    requires forall u :: LockOk(s', u)
    ensures LocksOk(s')
  {
    hide ContOf, LockOk;
    assert LockQOk(s, m, t);
    AppendMembers(LockQ(s, m), t);
    forall n, u ensures LockQOk(s', n, u) {
      assert LockQOk(s, n, u);
    }
    forall n ensures NoDup(LockQ(s', n)) {
      assert n != m ==> LockQ(s', n) == LockQ(s, n);
    }
  }

  lemma LocksRemove(s: State, s': State, m: nat, t: Tid)
    requires LocksOk(s) && OtherPlaces(s, s', t) && ContOf(s, t) == InLock(m)
    requires !ContOf(s', t).InLock?
    requires s'.mutexes == s.mutexes[m := MutexOf(s, m).(waitq := Without(LockQ(s, m), t))]
    requires forall u :: LockOk(s', u)
    ensures LocksOk(s')
  {
    hide ContOf, LockOk;
    WithoutMembers(LockQ(s, m), t);
    forall n, u ensures LockQOk(s', n, u) {
      assert LockQOk(s, n, u);
    }
    forall n ensures NoDup(LockQ(s', n)) {
      assert n != m ==> LockQ(s', n) == LockQ(s, n);
    }
  }

  /** The owners are as they were, and t waits for no mutex, or for one with an owner. */
  lemma LockOks(s: State, s': State, t: Tid)
    requires LocksOk(s) && Only(s, s', t) && forall m :: Owner(s', m) == Owner(s, m)
    requires LockOk(s', t)
    ensures forall u :: LockOk(s', u)
  {
    hide Owner;
    forall u ensures LockOk(s', u) {
      assert LockOk(s, u);
    }
  }

  lemma FindAppend(queue: seq<IO.Request>, r: IO.Request)
    ensures forall u :: IO.Queued(queue + [r], u) <==> IO.Queued(queue, u) || u == r.thread
  {
    forall u ensures IO.Queued(queue + [r], u) <==> IO.Queued(queue, u) || u == r.thread {
      IO.FindNone(queue, u);
      IO.FindNone(queue + [r], u);
      assert forall i :: 0 <= i < |queue| ==> (queue + [r])[i] == queue[i];
      assert (queue + [r])[|queue|] == r;
    }
  }

  function Pollers(queue: seq<IO.Request>): (r: seq<Tid>)
    ensures |r| == |queue| && forall i :: 0 <= i < |r| ==> r[i] == queue[i].thread
  {
    seq(|queue|, i requires 0 <= i < |queue| => queue[i].thread)
  }

  lemma QueuedPoller(queue: seq<IO.Request>, u: Tid)
    ensures IO.Queued(queue, u) <==> u in Pollers(queue)
  {
    hide IO.Queued;
    IO.FindNone(queue, u);
  }

  lemma FindRemove(queue: seq<IO.Request>, i: nat)
    requires i < |queue| && IO.OnePerThread(queue)
    ensures forall u :: IO.Queued(queue[..i] + queue[i + 1..], u) <==> IO.Queued(queue, u) && u != queue[i].thread
  {
    hide IO.Queued, Pollers;
    var rest, t := queue[..i] + queue[i + 1..], queue[i].thread;
    assert Position(Pollers(queue), t) == i;
    assert Pollers(rest) == Without(Pollers(queue), t);
    WithoutMembers(Pollers(queue), t);
    forall u ensures IO.Queued(rest, u) <==> IO.Queued(queue, u) && u != t {
      QueuedPoller(queue, u);
      QueuedPoller(rest, u);
    }
  }

  /** A new request. */
  lemma IoAppend(s: State, s': State, t: Tid, pds: seq<IO.PollFd>)
    requires IoOk(s) && OtherPlaces(s, s', t) && !ContOf(s, t).InPoll? && IO.Legal(s.fds, pds)
    requires s'.fds == s.fds && s'.io == IO.Register(s.fds, s.io, IO.Request(t, pds))
    requires ContOf(s', t).InPoll? && ContOf(s', t).onIoq
    ensures IoOk(s')
  {
    hide ContOf, IO.Injective, IO.Exact, IO.Queued, IO.Legal;
    assert PollOk(s, t);
    FindAppend(s.io.queue, IO.Request(t, pds));
    IO.RegisterKeeps(s.fds, s.io, IO.Request(t, pds));
    forall u ensures PollOk(s', u) {
      assert PollOk(s, u);
    }
  }

  lemma ReleaseQueue(s: State, t: Tid)
    requires IoOk(s) && ContOf(s, t).InPoll? && ContOf(s, t).onIoq
    ensures CanRelease(s, t) && IO.Exact(s.fds, IO.Release(s.fds, s.io, t))
    ensures forall u :: IO.Queued(IO.Release(s.fds, s.io, t).queue, u) <==> IO.Queued(s.io.queue, u) && u != t
  {
    hide ContOf, IO.Injective, IO.Legal, IO.DropKeys, IO.CanDrop, IO.Counted, IO.Bounded, IO.Queued;
    hide IO.Find;
    assert PollOk(s, t);
    IO.ReleaseKeeps(s.fds, s.io, t);
    QueuedAt(s.io.queue, t);
    FindRemove(s.io.queue, IO.Find(s.io.queue, t));
  }

  lemma QueuedAt(queue: seq<IO.Request>, t: Tid)
    requires IO.Queued(queue, t)
    ensures IO.Find(queue, t) < |queue| && queue[IO.Find(queue, t)].thread == t
  {
  }

  /** A request that the thread itself takes out. */
  lemma IoRemove(s: State, s': State, t: Tid)
    requires IoOk(s) && OtherPlaces(s, s', t) && ContOf(s, t).InPoll? && ContOf(s, t).onIoq
    requires CanRelease(s, t) && s'.fds == s.fds && s'.io == IO.Release(s.fds, s.io, t)
    requires !ContOf(s', t).InPoll?
    ensures IoOk(s')
  {
    hide ContOf, IO.Injective, IO.Exact, IO.Queued, IO.Release, CanRelease;
    ReleaseQueue(s, t);
    forall u ensures PollOk(s', u) {
      assert PollOk(s, u);
    }
  }

  // ----- The current thread goes on -----

  /** The current thread's record may change, but it is running and not on the sleep queue. */
  lemma CurrentLinks(s: State, s': State)
    requires QueuesOk(s) && (forall u :: LinkOk(s, Some(s.current), u)) && Only(s, s', s.current)
    requires s'.runq == s.runq && s'.zombieq == s.zombieq && s'.sleep == s.sleep
    requires s'.idle == s.idle && s'.current == s.current
    requires var th := Th(s', s.current);
             th.state == Running && !th.onSleepq && !Dead(th.cont) && Waits(th)
             && (th.cont.IdleLoop? <==> s.current == s.idle)
    ensures QueuesOk(s') && forall u :: LinkOk(s', Some(s.current), u)
  {
    hide SQ.Valid, SQ.Has, SQ.Once, Th, Waits;
    assert LinkOk(s, Some(s.current), s.current);
    LinksFrame(s, Some(s.current), s', Some(s.current), s.current);
  }

  // ----- Calls that return -----

  ghost predicate IoWaits(s: State) {
    forall t :: IoWaitOk(s, t)
  }

  /** The current thread is in the program. */
  ghost predicate Calling(s: State) {
    Inv(s) && ContOf(s, s.current).InProgram?
  }

  lemma CallingThread(s: State)
    requires Calling(s)
    ensures var th := Th(s, s.current);
            && th.state == Running && !th.onSleepq && !th.timedout && s.current in s.threads && s.current != s.idle
    ensures s.current !in s.runq && s.current !in s.zombieq && !SQ.Has(s.sleep.sleepers, s.current)
    ensures forall c :: s.current !in CondQ(s, c)
    ensures forall m :: s.current !in LockQ(s, m)
    ensures !IO.Queued(s.io.queue, s.current)
  {
    assert LinkOk(s, Some(s.current), s.current);
    assert PollOk(s, s.current);
    forall c ensures s.current !in CondQ(s, c) {
      assert CondOk(s, c, s.current);
    }
    forall m ensures s.current !in LockQ(s, m) {
      assert LockQOk(s, m, s.current);
    }
  }

  lemma ReturnSame(s: State, r: Result)
    requires Calling(s)
    ensures Return(s, r) == (s, Some(r))
  {
    hide Inv;
    CallingThread(s);
    assert s.threads[s.current := s.threads[s.current]] == s.threads;
  }

  lemma TakeInterruptKeeps(s: State)
    requires Calling(s)
    ensures Calling(TakeInterrupt(s))
  {
    hide QueuesOk, CondsOk, LocksOk, IoOk, LinkOk;
    var s' := TakeInterrupt(s);
    InvLinks(s);
    CallingThread(s);
    CurrentLinks(s, s');
    assert forall u :: ContOf(s', u) == ContOf(s, u);
    CondsFrame(s, s');
    LocksFrame(s, s', s.current);
    IoFrame(s, s');
    IoWaitsOnly(s, s', s.current);
  }

  lemma InvLinks(s: State)
    requires Inv(s)
    ensures QueuesOk(s) && (forall u :: LinkOk(s, Some(s.current), u))
    ensures CondsOk(s) && LocksOk(s) && IoOk(s) && !s.fault && IoWaits(s)
  {
  }

  lemma IoWaitsOnly(s: State, s': State, t: Tid)
    requires IoWaits(s) && Only(s, s', t) && IoWaitOk(s', t)
    ensures IoWaits(s')
  {
    forall u ensures IoWaitOk(s', u) {
      assert IoWaitOk(s, u);
    }
  }

  // ----- Calls that wait -----

  lemma TimedEffect(s: State, t: Tid, timeout: Option<nat>)
    requires QueuesOk(s) && !SQ.Has(s.sleep.sleepers, t) && Fits(timeout)
    ensures var s' := Timed(s, t, timeout);
            && SameRest(s, s') && Only(s, s', t) && s'.runq == s.runq && s'.fault == s.fault
            && (t in s.threads ==> Th(s', t) == Th(s, t).(onSleepq := Th(s, t).onSleepq || timeout.Some?))
            && QueuesOk(s')
            && forall u :: SQ.Has(s'.sleep.sleepers, u) <==> SQ.Has(s.sleep.sleepers, u) || (timeout.Some? && u == t)
  {
    hide SQ.Add, SQ.Valid, SQ.Has, SQ.Once;
    if timeout.Some? {
      SQ.AddRefines(s.sleep, t, timeout.value, s.lastClock);
      SQ.AddThreads(s.sleep, t, timeout.value);
    }
  }

  /** s1 is s with the current thread waiting somewhere: perhaps with a timer, no thread is running then. */
  lemma SuspendLinks(s: State, s1: State, state: Status, cont: Cont, timeout: Option<nat>)
    requires Calling(s) && Fits(timeout) && !s1.fault
    requires Only(s, s1, s.current) && Th(s1, s.current) == Th(s, s.current).(state := state, cont := cont)
    requires s.current in s1.threads && s1.runq == s.runq && s1.zombieq == s.zombieq && s1.sleep == s.sleep
    requires s1.idle == s.idle && state in {IoWait, LockWait, CondWait, Sleeping}
    requires timeout.Some? ==> state != LockWait
    requires !Dead(cont) && !cont.IdleLoop?
    requires Waits(Th(s1, s.current).(onSleepq := timeout.Some?))
    ensures var s2 := Timed(s1, s.current, timeout);
            && QueuesOk(s2) && (forall u :: LinkOk(s2, None, u)) && !s2.fault
            && SameRest(s1, s2) && Only(s, s2, s.current)
            && Th(s2, s.current) == Th(s, s.current).(state := state, cont := cont, onSleepq := timeout.Some?)
  {
    hide *;
    var me, s2 := s.current, Timed(s1, s.current, timeout);
    CallingThread(s);
    CallingInv(s);
    QueuesSame(s, s1);
    TimedEffect(s1, me, timeout);
    OnlyTwice(s, s1, s2, me);
    OnlyMeSleeps(s, s1, s2, me);
    SuspendedLink(s, s2, me, timeout);
    LinksFrame(s, Some(me), s2, None, me);
  }

  lemma CallingInv(s: State)
    requires Calling(s)
    ensures QueuesOk(s) && (forall u :: LinkOk(s, Some(s.current), u))
  {
  }

  lemma QueuesSame(s: State, s': State)
    requires QueuesOk(s) && s'.runq == s.runq && s'.zombieq == s.zombieq && s'.sleep == s.sleep
    ensures QueuesOk(s')
  {
  }

  lemma OnlyTwice(s: State, s1: State, s2: State, t: Tid)
    requires Only(s, s1, t) && Only(s1, s2, t)
    ensures Only(s, s2, t)
  {
  }

  lemma OnlyMeSleeps(s: State, s1: State, s2: State, t: Tid)
    requires s1.runq == s.runq && s1.zombieq == s.zombieq && s1.sleep == s.sleep && s1.idle == s.idle
    requires SameRest(s1, s2) && s2.runq == s1.runq
    requires forall u :: u != t ==> (SQ.Has(s2.sleep.sleepers, u) <==> SQ.Has(s1.sleep.sleepers, u))
    ensures SameQueues(s, s2, t) && s2.zombieq == s.zombieq && s2.idle == s.idle
  {
    hide SQ.Has;
  }

  lemma SuspendedLink(s: State, s2: State, t: Tid, timeout: Option<nat>)
    requires s2.runq == s.runq && s2.zombieq == s.zombieq && t !in s.runq && t !in s.zombieq && t != s2.idle
    requires SQ.Has(s2.sleep.sleepers, t) <==> timeout.Some?
    requires var th := Th(s2, t);
             && th.state in {IoWait, LockWait, CondWait, Sleeping} && th.onSleepq == timeout.Some? && Waits(th)
             && (timeout.Some? ==> th.state != LockWait) && !Dead(th.cont) && !th.cont.IdleLoop?
    ensures LinkOk(s2, None, t)
  {
  }

  /** After the switch, the invariant holds with the next thread running. */
  lemma SwitchKeeps(s: State)
    requires Core(s, None) && IoWaits(s)
    ensures Inv(Schedule(s))
  {
    hide Core, Schedule;
    var s' := Schedule(s);
    ScheduleKeeps(s);
    forall u ensures IoWaitOk(s', u) {
      assert IoWaitOk(s, u);
    }
  }

  lemma UsleepKeeps(s: State, usecs: nat)
    requires Calling(s) && usecs < SQ.WORD
    ensures Inv(Usleep(s, usecs).0)
  {
    if Interrupted(s) {
      TakeInterruptKeeps(s);
      ReturnSame(TakeInterrupt(s), Err(EINTR));
    } else {
      var me, s1 := s.current, Block(s, Sleeping, InUsleep);
      var s2 := Timed(s1, me, Some(usecs));
      InvLinks(s);
      CallingThread(s);
      SuspendLinks(s, s1, Sleeping, InUsleep, Some(usecs));
      hide QueuesOk, CondsOk, LocksOk, IoOk, LinkOk, Timed, Inv, Schedule;
      assert OtherPlaces(s, s2, me);
      CondsFrame(s, s2);
      LocksFrame(s, s2, me);
      IoFrame(s, s2);
      IoWaitsOnly(s, s2, me);
      SwitchKeeps(s2);
    }
  }

  lemma CondBlockKeeps(s: State, c: Cond, timeout: Option<nat>)
    requires Calling(s) && Fits(timeout) && (c.Term? ==> timeout == None)
    ensures Inv(CondBlock(s, c, timeout))
  {
    hide QueuesOk, CondsOk, LocksOk, IoOk, LinkOk, Timed, Inv, Schedule;
    var me := s.current;
    var s1 := Block(s, CondWait, InCondWait(c)).(conds := s.conds[c := CondQ(s, c) + [me]]);
    var s2 := Timed(s1, me, timeout);
    InvLinks(s);
    CallingThread(s);
    SuspendLinks(s, s1, CondWait, InCondWait(c), timeout);
    assert OtherPlaces(s, s2, me);
    CondsAppend(s, s2, c, me);
    LocksOther(s, s2, me);
    IoFrame(s, s2);
    IoWaitsOnly(s, s2, me);
    SwitchKeeps(s2);
  }

  lemma CondTimedwaitKeeps(s: State, c: Cond, timeout: Option<nat>)
    requires Calling(s) && Fits(timeout) && (c.Term? ==> timeout == None)
    ensures Inv(CondTimedwait(s, c, timeout).0)
  {
    hide Inv, CondBlock;
    if Interrupted(s) {
      TakeInterruptKeeps(s);
      ReturnSame(TakeInterrupt(s), Err(EINTR));
    } else {
      CondBlockKeeps(s, c, timeout);
    }
  }

  /** A thread that waits for no mutex, before or after, changes. */
  lemma LocksOther(s: State, s': State, t: Tid)
    requires LocksOk(s) && s'.mutexes == s.mutexes && Only(s, s', t)
    requires !ContOf(s, t).InLock? && !ContOf(s', t).InLock?
    ensures LocksOk(s')
  {
    forall m, u ensures LockQOk(s', m, u) {
      assert LockQOk(s, m, u);
    }
    forall u ensures LockOk(s', u) {
      assert LockOk(s, u);
    }
    forall m ensures NoDup(LockQ(s', m)) {
      assert LockQ(s', m) == LockQ(s, m);
    }
  }

  lemma CondsOther(s: State, s': State, t: Tid)
    requires CondsOk(s) && s'.conds == s.conds && OtherPlaces(s, s', t)
    requires !ContOf(s, t).InCondWait? && !ContOf(s', t).InCondWait?
    ensures CondsOk(s')
  {
    hide ContOf;
    forall c, u ensures CondOk(s', c, u) {
      assert CondOk(s, c, u);
    }
    forall c ensures NoDup(CondQ(s', c)) {
      assert CondQ(s', c) == CondQ(s, c);
    }
  }

  lemma LockKeeps(s: State, m: nat)
    requires Calling(s)
    ensures Inv(Lock(s, m).0)
  {
    var me, x := s.current, MutexOf(s, m);
    if Interrupted(s) {
      TakeInterruptKeeps(s);
      ReturnSame(TakeInterrupt(s), Err(EINTR));
    } else if x.owner == None {
      OwnKeeps(s, m);
    } else if x.owner == Some(me) {
      ReturnSame(s, Err(EDEADLK));
    } else {
      LockBlockKeeps(s, m);
    }
  }

  /** The current thread takes a mutex that nobody owns. */
  lemma OwnKeeps(s: State, m: nat)
    requires Calling(s) && Owner(s, m) == None
    ensures var s' := PutMutex(s, m, MutexOf(s, m).(owner := Some(s.current)));
            Calling(s') && Return(s', Ok(0)) == (s', Some(Ok(0)))
  {
    hide QueuesOk, CondsOk, IoOk, LinkOk, LocksOk, Inv, IoWaits;
    var s' := PutMutex(s, m, MutexOf(s, m).(owner := Some(s.current)));
    InvLinks(s);
    CallingThread(s);
    CurrentLinks(s, s');
    OwnLocks(s, m);
    CondsFrame(s, s');
    IoFrame(s, s');
    IoWaitsOnly(s, s', s.current);
    InvFrom(s');
    ReturnSame(s', Ok(0));
  }

  lemma OwnLocks(s: State, m: nat)
    requires Calling(s) && Owner(s, m) == None
    ensures LocksOk(PutMutex(s, m, MutexOf(s, m).(owner := Some(s.current))))
  {
    hide QueuesOk, CondsOk, IoOk, LinkOk, Inv;
    var s' := PutMutex(s, m, MutexOf(s, m).(owner := Some(s.current)));
    InvLinks(s);
    forall u ensures LockOk(s', u) {
      assert LockOk(s, u);
    }
    forall n ensures LockQ(s', n) == LockQ(s, n) {
    }
    LockQsFrame(s, s');
  }

  lemma LockBlockKeeps(s: State, m: nat)
    requires Calling(s) && Owner(s, m).Some?
    ensures var x := MutexOf(s, m);
            Inv(Schedule(PutMutex(Block(s, LockWait, InLock(m)), m, x.(waitq := x.waitq + [s.current]))))
  {
    hide QueuesOk, CondsOk, LocksOk, IoOk, LinkOk, Inv, Schedule;
    var me, x := s.current, MutexOf(s, m);
    var s1 := PutMutex(Block(s, LockWait, InLock(m)), m, x.(waitq := x.waitq + [me]));
    InvLinks(s);
    CallingThread(s);
    SuspendLinks(s, s1, LockWait, InLock(m), None);
    assert OtherPlaces(s, s1, me);
    LockOks(s, s1, me);
    LocksAppend(s, s1, m, me);
    CondsOther(s, s1, me);
    IoFrame(s, s1);
    IoWaitsOnly(s, s1, me);
    SwitchKeeps(s1);
  }

  lemma TrylockKeeps(s: State, m: nat)
    requires Calling(s)
    ensures Inv(Trylock(s, m).0)
  {
    if Owner(s, m) == None {
      OwnKeeps(s, m);
    } else {
      ReturnSame(s, Err(EBUSY));
    }
  }

  lemma PollKeeps(s: State, pds: seq<IO.PollFd>, timeout: Option<nat>)
    requires Calling(s) && IO.Legal(s.fds, pds) && Fits(timeout)
    ensures Inv(Poll(s, pds, timeout).0)
  {
    hide IO.Legal, IO.Register, Inv, Schedule, Timed;
    if Interrupted(s) {
      TakeInterruptKeeps(s);
      ReturnSame(TakeInterrupt(s), Err(EINTR));
    } else {
      PollBlockKeeps(s, pds, timeout);
    }
  }

  lemma PollBlockKeeps(s: State, pds: seq<IO.PollFd>, timeout: Option<nat>)
    requires Calling(s) && IO.Legal(s.fds, pds) && Fits(timeout)
    ensures var s1 := Block(s, IoWait, InPoll(pds, true, []))
                      .(io := IO.Register(s.fds, s.io, IO.Request(s.current, pds)));
            Inv(Schedule(Timed(s1, s.current, timeout)))
  {
    hide IO.Legal, IO.Register, IO.Queued, IO.Exact, IO.Injective, SQ.Has, SQ.Valid, SQ.Once;
    hide QueuesOk, CondsOk, LocksOk, LinkOk, Timed, Schedule;
    hide IoOk, Inv;
    var me, k := s.current, InPoll(pds, true, []);
    var s1 := Block(s, IoWait, k).(io := IO.Register(s.fds, s.io, IO.Request(me, pds)));
    var s2 := Timed(s1, me, timeout);
    InvLinks(s);
    CallingThread(s);
    SuspendLinks(s, s1, IoWait, k, timeout);
    CondsFrame(s, s2);
    LocksFrame(s, s2, me);
    IoAppend(s, s2, me, pds);
    IoWaitsOnly(s, s2, me);
    SwitchKeeps(s2);
  }

  // ----- Calls about other threads -----

  lemma SignalCallKeeps(s: State, c: Cond, broadcast: bool)
    requires Calling(s)
    ensures Calling(CondSignal(s, c, broadcast))
  {
    hide Core, Signal;
    var s' := CondSignal(s, c, broadcast);
    CallingThread(s);
    SignalKeeps(s, Some(s.current), CondQ(s, c), broadcast);
    SomeWokenIoWaits(s, s', CondQ(s, c));
  }

  lemma SomeWokenIoWaits(s: State, s': State, q: seq<Tid>)
    requires SomeWoken(s, s', q) && IoWaits(s)
    ensures IoWaits(s') && forall t :: ContOf(s', t) == ContOf(s, t)
  {
    forall u ensures IoWaitOk(s', u) {
      assert IoWaitOk(s, u);
    }
  }

  function Flagged(s: State, t: Tid): State {
    Put(s, t, Th(s, t).(interrupt := true))
  }

  lemma FlagEffect(s: State, t: Tid)
    requires !Dead(ContOf(s, t))
    ensures var s' := Flagged(s, t);
            && SameRest(s, s') && Only(s, s', t) && s'.runq == s.runq && s'.sleep == s.sleep && s'.fault == s.fault
            && Th(s', t) == Th(s, t).(interrupt := true)
            && SamePlaces(s, s') && forall u :: ContOf(s', u) == ContOf(s, u)
  {
  }

  lemma FlagLinks(s: State, r: Option<Tid>, t: Tid)
    requires QueuesOk(s) && (forall u :: LinkOk(s, r, u)) && !Dead(ContOf(s, t))
    ensures QueuesOk(Flagged(s, t)) && forall u :: LinkOk(Flagged(s, t), r, u)
  {
    hide Flagged, ContOf, Th, SQ.Has;
    hide QueuesOk;
    var s' := Flagged(s, t);
    FlagEffect(s, t);
    QueuesSame(s, s');
    assert LinkOk(s, r, t);
    LinksFrame(s, r, s', r, t);
  }

  lemma FlagLock(s: State, t: Tid)
    requires LocksOk(s) && !Dead(ContOf(s, t))
    ensures LockOk(Flagged(s, t), t)
  {
    LocksAt(s, t);
  }

  /** The flag of a thread may be set at any time. */
  lemma FlagKeeps(s: State, r: Option<Tid>, t: Tid)
    requires Core(s, r) && !Dead(ContOf(s, t))
    ensures Core(Flagged(s, t), r)
  {
    hide Flagged, ContOf, Th, LinkOk, QueuesOk, CondsOk, IoOk, LocksOk, LockOk, SamePlaces, Only;
    var s' := Flagged(s, t);
    FlagEffect(s, t);
    FlagLinks(s, r, t);
    FlagLock(s, t);
    CondsFrame(s, s');
    LocksFrame(s, s', t);
    IoFrame(s, s');
  }

  lemma InterruptKeeps(s: State, r: Option<Tid>, t: Tid)
    requires Core(s, r) && IoWaits(s) && !Dead(ContOf(s, t))
    ensures Core(Interrupt(s, t), r) && IoWaits(Interrupt(s, t))
    ensures Interrupt(s, t).current == s.current && Interrupt(s, t).idle == s.idle
    ensures forall u :: ContOf(Interrupt(s, t), u) == ContOf(s, u)
  {
    hide Core, Wake, Flagged;
    var s1 := Flagged(s, t);
    FlagKeeps(s, r, t);
    FlagEffect(s, t);
    assert IoWaitOk(s, t);
    IoWaitsOnly(s, s1, t);
    InterruptIs(s, t);
    if IsWaiting(Th(s, t)) {
      WakeKeeps(s1, r, t);
      IoWaitsOnly(s1, Wake(s1, t), t);
    }
  }

  lemma InterruptIs(s: State, t: Tid)
    ensures Interrupt(s, t) == if Th(s, t).state == Zombie then s
                               else if IsWaiting(Th(s, t)) then Wake(Flagged(s, t), t) else Flagged(s, t)
  {
  }

  // ----- Handing a mutex on -----

  ghost predicate NoLockWaiter(s: State, m: nat) {
    forall t :: t in LockQ(s, m) ==> Th(s, t).state != LockWait
  }

  /** The owner gives the mutex to anyone, or to nobody if nobody waits. */
  lemma OwnerLocks(s: State, me: Tid, m: nat, o: Option<Tid>)
    requires LocksOk(s) && Owner(s, m) == Some(me) && !ContOf(s, me).InLock?
    requires o == None ==> NoLockWaiter(s, m)
    ensures LocksOk(PutMutex(s, m, MutexOf(s, m).(owner := o)))
  {
    var s' := PutMutex(s, m, MutexOf(s, m).(owner := o));
    forall u ensures LockOk(s', u) {
      assert LockOk(s, u);
      assert LockQOk(s, m, u);
    }
    forall n ensures LockQ(s', n) == LockQ(s, n) {
    }
    LockQsFrame(s, s');
  }

  lemma OwnerKeeps(s: State, r: Option<Tid>, me: Tid, m: nat, o: Option<Tid>)
    requires Core(s, r) && Owner(s, m) == Some(me) && !ContOf(s, me).InLock?
    requires o == None ==> NoLockWaiter(s, m)
    ensures Core(PutMutex(s, m, MutexOf(s, m).(owner := o)), r)
  {
    var s' := PutMutex(s, m, MutexOf(s, m).(owner := o));
    OwnerLocks(s, me, m, o);
    assert forall u :: LinkOk(s, r, u) ==> LinkOk(s', r, u);
    hide LinkOk, QueuesOk, CondsOk, IoOk, LocksOk;
    CondsFrame(s, s');
    IoFrame(s, s');
    assert QueuesOk(s') by {
      QueuesSame(s, s');
    }
  }

  /** A thread that was handed the mutex is the first of q in LOCK_WAIT; the rest is as it was. */
  lemma {:induction false} HandOffKeeps(s: State, r: Option<Tid>, me: Tid, m: nat, q: seq<Tid>)
    requires Core(s, r) && IoWaits(s) && Owner(s, m) == Some(me) && !ContOf(s, me).InLock?
    requires forall t :: t in LockQ(s, m) && t !in q ==> Th(s, t).state != LockWait
    requires forall t :: t in q ==> t in LockQ(s, m)
    ensures var s' := HandOff(s, m, q);
            && Core(s', r) && IoWaits(s') && s'.current == s.current && s'.idle == s.idle
            && (forall u :: ContOf(s', u) == ContOf(s, u))
    decreases q
  {
    hide Core;
    if q == [] {
      OwnerKeeps(s, r, me, m, None);
      assert IoWaits(PutMutex(s, m, MutexOf(s, m).(owner := None))) by {
        assert forall u :: IoWaitOk(s, u) ==> IoWaitOk(PutMutex(s, m, MutexOf(s, m).(owner := None)), u);
      }
    } else if Th(s, q[0]).state == LockWait {
      GiveKeeps(s, r, me, m, q[0]);
    } else {
      assert forall t :: t in LockQ(s, m) && t !in q[1..] ==> t == q[0] || t !in q;
      HandOffKeeps(s, r, me, m, q[1..]);
    }
  }

  lemma LockWaitPlace(s: State, r: Option<Tid>, t: Tid)
    requires Core(s, r) && Th(s, t).state == LockWait
    ensures !Th(s, t).onSleepq && ContOf(s, t).InLock?
  {
    assert LinkOk(s, r, t);
  }

  lemma LockPlace(s: State, m: nat, t: Tid)
    requires LocksOk(s) && t in LockQ(s, m)
    ensures ContOf(s, t) == InLock(m)
  {
    assert LockQOk(s, m, t);
  }

  lemma GiveKeeps(s: State, r: Option<Tid>, me: Tid, m: nat, t: Tid)
    requires Core(s, r) && IoWaits(s) && Owner(s, m) == Some(me) && !ContOf(s, me).InLock?
    requires t in LockQ(s, m) && Th(s, t).state == LockWait
    ensures var s' := MakeRunnable(PutMutex(s, m, MutexOf(s, m).(owner := Some(t))), t);
            && Core(s', r) && IoWaits(s') && s'.current == s.current && s'.idle == s.idle
            && (forall u :: ContOf(s', u) == ContOf(s, u))
  {
    var s1 := PutMutex(s, m, MutexOf(s, m).(owner := Some(t)));
    LockPlace(s, m, t);
    LockWaitPlace(s, r, t);
    OwnerKeeps(s, r, me, m, Some(t));
    hide Core, LocksOk;
    WakeKeeps(s1, r, t);
    assert IoWaits(s1) by {
      assert forall u :: IoWaitOk(s, u) ==> IoWaitOk(s1, u);
    }
    IoWaitsOnly(s1, Wake(s1, t), t);
  }

  lemma UnlockKeeps(s: State, m: nat)
    requires Calling(s)
    ensures Inv(Unlock(s, m).0)
  {
    if Owner(s, m) == Some(s.current) {
      var s' := HandOff(s, m, LockQ(s, m));
      CallingThread(s);
      HandOffKeeps(s, Some(s.current), s.current, m, LockQ(s, m));
      hide HandOff, Core;
      assert Calling(s');
      ReturnSame(s', Ok(0));
    } else {
      ReturnSame(s, Err(EPERM));
    }
  }

  // ----- Threads come and go -----

  /** A new thread is last on the run queue. */
  lemma CreateKeeps(s: State, t: Tid, joinable: bool)
    requires Calling(s) && t !in s.threads
    ensures Calling(Create(s, t, joinable))
  {
    hide QueuesOk, CondsOk, LocksOk, IoOk, LinkOk, Inv;
    var s' := Create(s, t, joinable);
    InvLinks(s);
    CallingThread(s);
    CreateLinks(s, t, joinable);
    CondsFrame(s, s');
    LocksFrame(s, s', t);
    IoFrame(s, s');
    IoWaitsOnly(s, s', t);
    InvFrom(s');
  }

  lemma CreateLinks(s: State, t: Tid, joinable: bool)
    requires Inv(s) && t !in s.threads && s.current != s.idle
    ensures var s' := Create(s, t, joinable);
            QueuesOk(s') && forall u :: LinkOk(s', Some(s.current), u)
  {
    hide *;
    InvLinks(s);
    CreatedQueues(s, t, joinable);
    LinksFrame(s, Some(s.current), Create(s, t, joinable), Some(s.current), t);
  }

  lemma CreatedQueues(s: State, t: Tid, joinable: bool)
    requires QueuesOk(s) && LinkOk(s, Some(s.current), t) && t !in s.threads
    ensures var s' := Create(s, t, joinable);
            QueuesOk(s') && SameQueues(s, s', t) && Only(s, s', t) && LinkOk(s', Some(s.current), t)
  {
    hide SQ.Has, SQ.Valid, SQ.Once;
    AppendMembers(s.runq, t);
  }

  lemma InvFrom(s: State)
    requires QueuesOk(s) && (forall u :: LinkOk(s, Some(s.current), u))
    requires CondsOk(s) && LocksOk(s) && IoOk(s) && !s.fault && IoWaits(s)
    requires s.current == s.idle ==> s.runq == []
    ensures Inv(s)
  {
  }

  /** The current thread gives up the processor for good, or until it is joined. */
  lemma LeaveLinks(s: State, s': State)
    requires Inv(s) && s.current != s.idle && Only(s, s', s.current)
    requires s'.runq == s.runq && s'.sleep == s.sleep && s'.idle == s.idle
    requires var th := Th(s', s.current);
             && !th.onSleepq && !th.timedout
             && ((th.cont.Gone? && th.state == Running && s'.zombieq == s.zombieq)
                 || (th.cont.InExit? && th.state == Zombie && s'.zombieq == s.zombieq + [s.current]))
    ensures QueuesOk(s') && forall u :: LinkOk(s', None, u)
  {
    hide Inv, Th, LinkOk, QueuesOk;
    InvLinks(s);
    LeaveQueues(s, s');
    LinksFrame(s, Some(s.current), s', None, s.current);
  }

  lemma LeaveQueues(s: State, s': State)
    requires QueuesOk(s) && LinkOk(s, Some(s.current), s.current) && s.current != s.idle
    requires s'.runq == s.runq && s'.sleep == s.sleep && s'.idle == s.idle
    requires var th := Th(s', s.current);
             && !th.onSleepq && !th.timedout
             && ((th.cont.Gone? && th.state == Running && s'.zombieq == s.zombieq)
                 || (th.cont.InExit? && th.state == Zombie && s'.zombieq == s.zombieq + [s.current]))
    ensures QueuesOk(s') && LinkOk(s', None, s.current) && SameQueues(s, s', s.current)
  {
    hide SQ.Has, SQ.Valid, SQ.Once;
    AppendMembers(s.zombieq, s.current);
  }

  /** Nothing but the links of the current thread changes, and it waits nowhere. */
  lemma LeaveKeeps(s: State, s': State)
    requires Inv(s) && s.current != s.idle && QueuesOk(s') && (forall u :: LinkOk(s', None, u))
    requires Only(s, s', s.current) && s'.conds == s.conds && s'.mutexes == s.mutexes
    requires s'.io == s.io && s'.fds == s.fds && s'.fault == s.fault
    requires WaitPlace(ContOf(s, s.current)) == InProgram && !ContOf(s, s.current).InPoll?
    requires ContOf(s', s.current).Gone? || ContOf(s', s.current).InExit?
    requires Th(s', s.current).state != IoWait
    ensures Core(s', None) && IoWaits(s')
  {
    hide QueuesOk, CondsOk, LocksOk, IoOk, LinkOk, Inv;
    InvLinks(s);
    CondsFrame(s, s');
    LocksFrame(s, s', s.current);
    IoFrame(s, s');
    IoWaitsOnly(s, s', s.current);
  }

  lemma ExitKeeps(s: State, retval: int)
    requires Calling(s)
    ensures Inv(Exit(s, retval))
  {
    hide Inv, Core, Schedule, CondSignal;
    var me := s.current;
    var th := Th(s, me).(retval := retval);
    CallingThread(s);
    if th.joinable {
      var s1 := Put(s, me, th.(state := Zombie, cont := InExit)).(zombieq := s.zombieq + [me]);
      LeaveLinks(s, s1);
      LeaveKeeps(s, s1);
      var s2 := CondSignal(s1, Term(me), false);
      SignalKeeps(s1, None, CondQ(s1, Term(me)), false);
      SignalIs(s1, Term(me), false);
      SomeWokenIoWaits(s1, s2, CondQ(s1, Term(me)));
      SwitchKeeps(s2);
    } else {
      var s1 := Put(s, me, th.(cont := Gone));
      LeaveLinks(s, s1);
      LeaveKeeps(s, s1);
      SwitchKeeps(s1);
    }
  }

  lemma SignalIs(s: State, c: Cond, broadcast: bool)
    ensures CondSignal(s, c, broadcast) == Signal(s, CondQ(s, c), broadcast)
  {
  }

  /** The zombie is runnable again, and nothing else changes. */
  lemma JoinedKeeps(s: State, t: Tid)
    requires Calling(s) && Th(s, t).state == Zombie
    ensures var s' := MakeRunnable(s.(zombieq := Without(s.zombieq, t)), t);
            Calling(s') && Joined(s, t) == (s', Some(Ok(Th(s, t).retval)))
    ensures ContOf(s, t).InExit?
  {
    hide QueuesOk, CondsOk, LocksOk, IoOk, LinkOk, Inv;
    var s' := MakeRunnable(s.(zombieq := Without(s.zombieq, t)), t);
    InvLinks(s);
    CallingThread(s);
    JoinedLinks(s, t);
    assert forall u :: ContOf(s', u) == ContOf(s, u);
    CondsFrame(s, s');
    LocksFrame(s, s', t);
    IoFrame(s, s');
    IoWaitsOnly(s, s', t);
    InvFrom(s');
    ReturnSame(s', Ok(Th(s, t).retval));
  }

  lemma JoinedLinks(s: State, t: Tid)
    requires Inv(s) && Th(s, t).state == Zombie
    ensures var s' := MakeRunnable(s.(zombieq := Without(s.zombieq, t)), t);
            QueuesOk(s') && forall u :: LinkOk(s', Some(s.current), u)
    ensures ContOf(s, t).InExit?
  {
    hide *;
    var r, s1 := Some(s.current), s.(zombieq := Without(s.zombieq, t));
    var s' := MakeRunnable(s1, t);
    InvLinks(s);
    MakeRunnableEffect(s1, t);
    JoinedQueues(s, s', t);
    LinksFrame(s, r, s', r, t);
  }

  lemma JoinedQueues(s: State, s': State, t: Tid)
    requires QueuesOk(s) && LinkOk(s, Some(s.current), t) && Th(s, t).state == Zombie
    requires var s1 := s.(zombieq := Without(s.zombieq, t));
             && SameRest(s1, s') && Only(s1, s', t) && s'.runq == s1.runq + [t] && s'.sleep == s1.sleep
             && Th(s', t) == Th(s1, t).(state := Runnable)
    ensures QueuesOk(s') && SameQueues(s, s', t) && Only(s, s', t) && LinkOk(s', Some(s.current), t)
    ensures ContOf(s, t).InExit?
  {
    hide SQ.Has, SQ.Valid, SQ.Once, Without;
    AppendMembers(s.runq, t);
    WithoutMembers(s.zombieq, t);
  }

  lemma JoinKeeps(s: State, t: Tid)
    requires Calling(s)
    ensures Inv(Join(s, t).0)
  {
    hide Inv, Joined, CondTimedwait;
    if !Th(s, t).joinable || CondQ(s, Term(t)) != [] {
      ReturnSame(s, Err(EINVAL));
    }
    if s.current == t {
      ReturnSame(s, Err(EDEADLK));
    }
    if Th(s, t).state == Zombie {
      JoinedKeeps(s, t);
    }
    CondTimedwaitKeeps(s, Term(t), None);
  }

  // ----- Going on after a switch -----

  lemma ResumedThread(s: State)
    requires Inv(s)
    ensures var th := Th(s, s.current);
            && th.state == Running && !th.onSleepq && s.current in s.threads && !Dead(th.cont)
            && (th.cont.IdleLoop? <==> s.current == s.idle)
    ensures s.current == s.idle || s.current !in s.runq
  {
    assert LinkOk(s, Some(s.current), s.current);
  }

  /** The current thread goes on after a call that waited; its wait queue is another matter. */
  ghost predicate Ended(s: State, s': State) {
    && Only(s, s', s.current)
    && (var th := Th(s', s.current);
        th.state == Running && !th.onSleepq && !th.timedout && th.cont.InProgram?)
    && s'.runq == s.runq && s'.zombieq == s.zombieq && s'.sleep == s.sleep
    && s'.idle == s.idle && s'.current == s.current && s'.fault == s.fault && s'.fds == s.fds
  }

  lemma EndKeeps(s: State, s': State)
    requires Inv(s) && s.current != s.idle && Ended(s, s')
    requires CondsOk(s') && LocksOk(s') && IoOk(s')
    ensures Calling(s')
  {
    hide QueuesOk, CondsOk, LocksOk, IoOk, LinkOk, Inv, IoWaits;
    InvLinks(s);
    CurrentLinks(s, s');
    IoWaitsOnly(s, s', s.current);
    InvFrom(s');
  }

  lemma EndedPlaces(s: State, s': State)
    requires Ended(s, s')
    ensures OtherPlaces(s, s', s.current) && ContOf(s', s.current).InProgram? && LockOk(s', s.current)
    ensures !ContOf(s, s.current).InCondWait? && !ContOf(s, s.current).InLock? ==> SamePlaces(s, s')
  {
  }

  lemma BeginKeeps(s: State, interrupt: bool)
    requires Inv(s) && s.current != s.idle && (ContOf(s, s.current).Begin? || ContOf(s, s.current).InUsleep?)
    ensures Calling(Put(s, s.current, Th(s, s.current).(cont := InProgram, interrupt := interrupt)))
  {
    var s' := Put(s, s.current, Th(s, s.current).(cont := InProgram, interrupt := interrupt));
    InvLinks(s);
    ResumedThread(s);
    assert LinkOk(s, Some(s.current), s.current);
    hide QueuesOk, CondsOk, LocksOk, IoOk, LinkOk, Inv;
    CondsFrame(s, s');
    LocksFrame(s, s', s.current);
    IoFrame(s, s');
    EndKeeps(s, s');
  }

  /** A thread that goes on after a wait is not the idle thread. */
  lemma Resumed(s: State)
    requires Inv(s) && (ContOf(s, s.current).InLock? || ContOf(s, s.current).InPoll?)
    ensures var th := Th(s, s.current);
            s.current != s.idle && th.state == Running && !th.onSleepq && !th.timedout
  {
    ResumedThread(s);
    assert LinkOk(s, Some(s.current), s.current);
  }

  lemma LockEndShape(s: State, m: nat)
    requires ContOf(s, s.current) == InLock(m)
    requires var th := Th(s, s.current); th.state == Running && !th.onSleepq && !th.timedout
    ensures var s' := LockEnd(s, m).0;
            && Ended(s, s') && s'.conds == s.conds && s'.io == s.io && (forall n :: Owner(s', n) == Owner(s, n))
            && s'.mutexes == s.mutexes[m := MutexOf(s, m).(waitq := Without(LockQ(s, m), s.current))]
  {
    hide Without;
  }

  lemma LockEndKeeps(s: State, m: nat)
    requires Inv(s) && ContOf(s, s.current) == InLock(m)
    ensures Calling(LockEnd(s, m).0)
  {
    hide QueuesOk, CondsOk, LocksOk, IoOk, LinkOk, LockOk, Inv, LockEnd, Ended, OtherPlaces, LockQ, Owner, ContOf, MutexOf;
    var me, s' := s.current, LockEnd(s, m).0;
    InvLinks(s);
    Resumed(s);
    LockEndShape(s, m);
    EndedPlaces(s, s');
    EndedFrame(s, s');
    LockOks(s, s', me);
    LocksRemove(s, s', m, me);
    CondsOther(s, s', me);
    EndedIo(s, s');
    EndKeeps(s, s');
  }

  lemma EndedFrame(s: State, s': State)
    requires Ended(s, s')
    ensures Only(s, s', s.current) && s'.fds == s.fds
  {
  }

  lemma EndedIo(s: State, s': State)
    requires IoOk(s) && Ended(s, s') && s'.io == s.io && (ContOf(s, s.current).InPoll? ==> !ContOf(s, s.current).onIoq)
    ensures IoOk(s')
  {
    hide IoOk;
    IoFrame(s, s');
  }

  lemma CondLeaveKeeps(s: State, c: Cond)
    requires Inv(s) && ContOf(s, s.current) == InCondWait(c)
    ensures Calling(CondLeave(s, c))
  {
    hide QueuesOk, CondsOk, LocksOk, IoOk, LinkOk, Inv;
    var me, s' := s.current, CondLeave(s, c);
    InvLinks(s);
    ResumedThread(s);
    CondsRemove(s, s', c, me);
    LocksOther(s, s', me);
    IoFrame(s, s');
    EndKeeps(s, s');
  }

  lemma CondEndKeeps(s: State, c: Cond)
    requires Inv(s) && ContOf(s, s.current) == InCondWait(c)
    ensures Inv(CondEnd(s, c).0)
  {
    hide Inv, Joined, CondTimedwait, CondLeave;
    var r, s1 := CondResult(Th(s, s.current)), CondLeave(s, c);
    CondLeaveKeeps(s, c);
    ReturnSame(s1, r);
    if c.Term? {
      if Th(s1, c.thread).state == Zombie {
        JoinedKeeps(s1, c.thread);
      }
      CondTimedwaitKeeps(s1, c, None);
    }
  }

  lemma PollEndShape(s: State)
    requires ContOf(s, s.current).InPoll? && (ContOf(s, s.current).onIoq ==> CanRelease(s, s.current))
    requires var th := Th(s, s.current); th.state == Running && !th.onSleepq && !th.timedout
    ensures var s' := PollEnd(s).0;
            && Ended(s, s') && s'.conds == s.conds && s'.mutexes == s.mutexes
            && s'.io == if ContOf(s, s.current).onIoq then IO.Release(s.fds, s.io, s.current) else s.io
  {
    hide IO.Release, IO.Legal, IO.CanDrop, CanRelease, CountReady;
  }

  lemma PollEndKeeps(s: State)
    requires Inv(s) && ContOf(s, s.current).InPoll?
    ensures Calling(PollEnd(s).0)
  {
    hide QueuesOk, CondsOk, LocksOk, IoOk, LinkOk, LockOk, Inv, Ended, OtherPlaces, SamePlaces, ContOf, Th;
    hide IO.Release, IO.Legal, IO.CanDrop, CanRelease, PollEnd;
    var me := s.current;
    InvLinks(s);
    Resumed(s);
    if ContOf(s, me).onIoq {
      ReleaseQueue(s, me);
    }
    PollEndShape(s);
    var s' := PollEnd(s).0;
    EndedPlaces(s, s');
    EndedFrame(s, s');
    if ContOf(s, me).onIoq {
      IoRemove(s, s', me);
    } else {
      EndedIo(s, s');
    }
    CondsFrame(s, s');
    LocksFrame(s, s', me);
    EndKeeps(s, s');
  }

  lemma ExitEndKeeps(s: State)
    requires Inv(s) && ContOf(s, s.current).InExit?
    ensures Inv(ExitEnd(s))
  {
    var s' := Put(s, s.current, Th(s, s.current).(joinable := false, cont := Gone));
    ResumedThread(s);
    assert LinkOk(s, Some(s.current), s.current);
    hide Inv, Core, Schedule, LinkOk;
    LeaveLinks(s, s');
    LeaveKeeps(s, s');
    SwitchKeeps(s');
  }

  // ----- The idle thread -----

  lemma IdleThread(s: State)
    requires Inv(s) && s.current == s.idle
    ensures s.runq == [] && Th(s, s.idle).state == Running && ContOf(s, s.idle).IdleLoop? && s.idle in s.threads
  {
    assert LinkOk(s, Some(s.current), s.idle);
  }

  /** When the idle thread looks for I/O, every thread with a request on the I/O queue waits for it. */
  lemma PollersWait(s: State, t: Tid)
    requires Inv(s) && s.current == s.idle && IO.Queued(s.io.queue, t)
    ensures Th(s, t).state == IoWait
  {
    IdleThread(s);
    assert LinkOk(s, Some(s.current), t) && PollOk(s, t);
  }

  /** The I/O queue and the places of its threads change together. */
  lemma MarkKeeps(s: State, r: Option<Tid>, io: IO.Io, notified: seq<IO.Request>, ready: set<IO.Key>)
    requires Core(s, r) && IO.Exact(s.fds, io)
    requires forall t :: IO.Queued(io.queue, t) <==> IO.Queued(s.io.queue, t) && !IO.Queued(notified, t)
    ensures var s' := s.(io := io, threads := Mark(s, notified, ready));
            && Core(s', r)
            && forall t :: MarkedOk(s, s', notified, t)
  {
    var s' := s.(io := io, threads := Mark(s, notified, ready));
    hide IO.Queued, IO.Exact, IO.Injective, Revents;
    assert forall t :: MarkedOk(s, s', notified, t);
    hide Mark;
    MarkLinks(s, r, s', notified);
    hide QueuesOk, LinkOk;
    assert SamePlaces(s, s') by {
      assert forall t :: MarkedOk(s, s', notified, t);
    }
    CondsFrame(s, s');
    forall t ensures LockOk(s', t) {
      assert LockOk(s, t) && MarkedOk(s, s', notified, t);
    }
    LockQsFrame(s, s');
    forall t ensures PollOk(s', t) {
      assert PollOk(s, t) && MarkedOk(s, s', notified, t);
    }
  }

  /** A thread that polls and was notified learns it; no other thread changes. */
  predicate MarkedOk(s: State, s': State, notified: seq<IO.Request>, t: Tid) {
    var th, th' := Th(s, t), Th(s', t);
    if IO.Queued(notified, t) && th.cont.InPoll? then
      th' == th.(cont := th'.cont) && th'.cont.InPoll? && !th'.cont.onIoq
    else th' == th
  }

  lemma MarkLinks(s: State, r: Option<Tid>, s': State, notified: seq<IO.Request>)
    requires QueuesOk(s) && (forall t :: LinkOk(s, r, t)) && forall t :: MarkedOk(s, s', notified, t)
    requires s'.runq == s.runq && s'.zombieq == s.zombieq && s'.sleep == s.sleep && s'.idle == s.idle
    ensures QueuesOk(s') && forall t :: LinkOk(s', r, t)
  {
    hide SQ.Has, SQ.Valid, SQ.Once, IO.Queued, Th;
    forall t ensures LinkOk(s', r, t) {
      assert LinkOk(s, r, t) && MarkedOk(s, s', notified, t);
    }
  }

  /** A thread waits for I/O only with a request on the queue, or among those about to be woken. */
  ghost predicate IoWaitsBut(s: State, notified: seq<IO.Request>) {
    forall t :: IoWaitOk(s, t) || IO.Queued(notified, t)
  }

  lemma QueuedHead(queue: seq<IO.Request>, t: Tid)
    requires queue != []
    ensures IO.Queued(queue, t) <==> queue[0].thread == t || IO.Queued(queue[1..], t)
  {
  }

  lemma QueuedMember(queue: seq<IO.Request>, r: IO.Request)
    requires r in queue
    ensures IO.Queued(queue, r.thread)
  {
    IO.FindNone(queue, r.thread);
  }

  lemma {:induction false} WakeAllKeeps(s: State, r: Option<Tid>, notified: seq<IO.Request>)
    requires Core(s, r) && IoWaitsBut(s, notified) && IO.OnePerThread(notified)
    requires forall q :: q in notified ==> Th(s, q.thread).state == IoWait
    ensures var s' := WakeAll(s, notified);
            Core(s', r) && IoWaits(s') && s'.current == s.current && s'.idle == s.idle && s'.lastClock == s.lastClock
    decreases notified
  {
    hide Core, Wake, IO.Queued;
    if notified == [] {
      assert forall t :: !IO.Queued(notified, t) by {
        NoneQueued();
      }
      assert forall t :: IoWaitOk(s, t) || IO.Queued(notified, t);
    } else {
      var t, s1 := notified[0].thread, Wake(s, notified[0].thread);
      WakeIo(s, r, t);
      forall u ensures IoWaitOk(s1, u) || IO.Queued(notified[1..], u) {
        QueuedHead(notified, u);
        assert IoWaitOk(s, u) || IO.Queued(notified, u);
      }
      forall q | q in notified[1..] ensures Th(s1, q.thread).state == IoWait {
        assert q in notified;
      }
      WakeAllKeeps(s1, r, notified[1..]);
    }
  }

  /** One round of that loop. */
  lemma WakeAllStep(s: State, r: Option<Tid>, notified: seq<IO.Request>)
    requires Core(s, r) && IO.OnePerThread(notified) && notified != []
    requires forall q :: q in notified ==> Th(s, q.thread).state == IoWait
    ensures var s1 := Wake(s, notified[0].thread);
            && Core(s1, r) && IO.OnePerThread(notified[1..]) && IsWaiting(Th(s, notified[0].thread))
            && forall q :: q in notified[1..] ==> Th(s1, q.thread).state == IoWait
  {
    hide Core, Wake;
    var t, s1 := notified[0].thread, Wake(s, notified[0].thread);
    assert notified[0] in notified;
    WakeIo(s, r, t);
    forall q | q in notified[1..] ensures Th(s1, q.thread).state == IoWait {
      assert q in notified;
    }
  }

  lemma NoneQueued()
    ensures forall t :: !IO.Queued([], t)
  {
  }

  lemma IoWaitPlace(s: State, r: Option<Tid>, t: Tid)
    requires LinkOk(s, r, t) && Th(s, t).state == IoWait
    ensures ContOf(s, t).InPoll? && IsWaiting(Th(s, t))
  {
  }

  lemma WakeIo(s: State, r: Option<Tid>, t: Tid)
    requires Core(s, r) && Th(s, t).state == IoWait
    ensures Core(Wake(s, t), r) && Woken(s, Wake(s, t), t, false)
  {
    hide CondsOk, LocksOk, IoOk, QueuesOk, LinkOk, Wake, Woken, ContOf, Th, Owner, IsWaiting;
    IoWaitPlace(s, r, t);
    hide Core;
    WakeKeeps(s, r, t);
  }

  /** The requests that stay are those that are not notified. */
  lemma ReadyQueued(fds: seq<int>, ready: set<IO.Key>, queue: seq<IO.Request>)
    requires IO.OnePerThread(queue)
    ensures forall t :: IO.Queued(IO.NotReady(fds, ready, queue), t)
                   <==> IO.Queued(queue, t) && !IO.Queued(IO.Ready(fds, ready, queue), t)
    ensures IO.OnePerThread(IO.Ready(fds, ready, queue))
    ensures forall q :: q in IO.Ready(fds, ready, queue) ==> q in queue
    decreases queue
  {
    hide *;
    if queue == [] {
      IO.NoneReady(fds, ready);
      NoneQueued();
      NoRequests();
    } else {
      var q, rest := queue[0], queue[1..];
      OnePerThreadTail(queue);
      ReadyQueued(fds, ready, rest);
      IO.ReadyParts(fds, ready, queue);
      var a, b := IO.Ready(fds, ready, rest), IO.NotReady(fds, ready, rest);
      OnePerThreadHead(q, rest, a);
      forall t ensures IO.Queued(IO.NotReady(fds, ready, queue), t)
                  <==> IO.Queued(queue, t) && !IO.Queued(IO.Ready(fds, ready, queue), t)
      {
        QueuedHead(queue, t);
        QueuedHead([q] + a, t);
        QueuedHead([q] + b, t);
        assert ([q] + a)[1..] == a && ([q] + b)[1..] == b;
        HeadAlone(q, rest);
        QueuedSubset(a, rest, t);
      }
    }
  }

  lemma NoRequests()
    ensures IO.OnePerThread([])
  {
  }

  lemma OnePerThreadTail(queue: seq<IO.Request>)
    requires queue != [] && IO.OnePerThread(queue)
    ensures IO.OnePerThread(queue[1..]) && queue == [queue[0]] + queue[1..]
  {
  }

  lemma HeadAlone(q: IO.Request, rest: seq<IO.Request>)
    requires IO.OnePerThread([q] + rest)
    ensures !IO.Queued(rest, q.thread)
  {
    hide IO.Queued;
    IO.FindNone(rest, q.thread);
    forall i | 0 <= i < |rest| ensures rest[i].thread != q.thread {
      assert ([q] + rest)[0] == q && ([q] + rest)[i + 1] == rest[i];
    }
  }

  lemma OnePerThreadHead(q: IO.Request, rest: seq<IO.Request>, some: seq<IO.Request>)
    requires IO.OnePerThread([q] + rest) && IO.OnePerThread(some) && forall x :: x in some ==> x in rest
    ensures IO.OnePerThread([q] + some)
  {
    forall i | 0 <= i < |some| ensures some[i].thread != q.thread {
      assert some[i] in rest;
      var j :| 0 <= j < |rest| && rest[j] == some[i];
      assert ([q] + rest)[0] == q && ([q] + rest)[j + 1] == rest[j];
    }
  }

  lemma QueuedSubset(some: seq<IO.Request>, queue: seq<IO.Request>, t: Tid)
    requires forall x :: x in some ==> x in queue
    ensures IO.Queued(some, t) ==> IO.Queued(queue, t)
  {
    IO.FindNone(some, t);
    if IO.Queued(some, t) {
      var i :| 0 <= i < |some| && some[i].thread == t;
      QueuedMember(queue, some[i]);
    }
  }

  /** After the notified requests are off the queue, before their threads are woken. */
  lemma MarkedKeeps(s: State, ready: set<IO.Key>)
    requires Inv(s) && s.current == s.idle
    ensures IO.CanScan(s.fds, ready, s.io.queue, IO.Start(s.io))
    ensures var (io, notified) := IO.Notify(s.fds, s.io, ready);
            var s1 := s.(io := io, threads := Mark(s, notified, ready));
            && VpIdle(s, Found(ready)) == WakeAll(s1, notified)
            && Core(s1, Some(s.idle)) && IoWaitsBut(s1, notified) && IO.OnePerThread(notified)
            && (forall q :: q in notified ==> Th(s1, q.thread).state == IoWait)
            && (forall t :: MarkedOk(s, s1, notified, t))
  {
    hide *;
    InvLinks(s);
    IoExact(s);
    IO.NotifyKeeps(s.fds, s.io, ready);
    ExactParts(s.fds, s.io);
    ReadyQueued(s.fds, ready, s.io.queue);
    var notified := IO.Ready(s.fds, ready, s.io.queue);
    FoundIs(s, ready);
    var io := IO.Notify(s.fds, s.io, ready).0;
    InvCore(s);
    MarkKeeps(s, Some(s.idle), io, notified, ready);
    var s1 := s.(io := io, threads := Mark(s, notified, ready));
    MarkedIoWaits(s, s1, notified);
    forall q | q in notified ensures Th(s1, q.thread).state == IoWait {
      QueuedMember(s.io.queue, q);
      PollersWait(s, q.thread);
      MarkedState(s, s1, notified, q.thread);
    }
  }

  lemma FoundKeeps(s: State, ready: set<IO.Key>)
    requires Inv(s) && s.current == s.idle
    ensures var s' := VpIdle(s, Found(ready));
            && Core(s', Some(s.idle)) && IoWaits(s')
            && s'.current == s.current && s'.idle == s.idle && s'.lastClock == s.lastClock
  {
    hide *;
    MarkedKeeps(s, ready);
    var (io, notified) := IO.Notify(s.fds, s.io, ready);
    WakeAllKeeps(s.(io := io, threads := Mark(s, notified, ready)), Some(s.idle), notified);
  }

  lemma InvCore(s: State)
    requires Inv(s)
    ensures Core(s, Some(s.current))
  {
  }

  lemma IoExact(s: State)
    requires IoOk(s)
    ensures IO.Injective(s.fds) && IO.Exact(s.fds, s.io)
  {
  }

  lemma ExactParts(fds: seq<int>, io: IO.Io)
    requires IO.Exact(fds, io)
    ensures IO.OnePerThread(io.queue)
  {
  }

  lemma FoundIs(s: State, ready: set<IO.Key>)
    requires IO.CanScan(s.fds, ready, s.io.queue, IO.Start(s.io))
    ensures var (io, notified) := IO.Notify(s.fds, s.io, ready);
            VpIdle(s, Found(ready)) == WakeAll(s.(io := io, threads := Mark(s, notified, ready)), notified)
  {
    hide IO.CanScan, IO.Notify, Mark, WakeAll;
  }

  lemma MarkedState(s: State, s': State, notified: seq<IO.Request>, t: Tid)
    requires MarkedOk(s, s', notified, t)
    ensures Th(s', t).state == Th(s, t).state
  {
  }

  lemma MarkedIoWaits(s: State, s': State, notified: seq<IO.Request>)
    requires IoWaits(s) && forall t :: MarkedOk(s, s', notified, t)
    ensures IoWaitsBut(s', notified)
  {
    hide IO.Queued;
    forall t ensures IoWaitOk(s', t) || IO.Queued(notified, t) {
      assert MarkedOk(s, s', notified, t) && IoWaitOk(s, t);
    }
  }

  lemma VpIdleKeeps(s: State, r: Selected)
    requires Inv(s) && s.current == s.idle
    ensures var s' := VpIdle(s, r);
            && Core(s', Some(s.idle)) && IoWaits(s')
            && s'.current == s.current && s'.idle == s.idle && s'.lastClock == s.lastClock
  {
    match r
    case Nothing =>
    case Bad =>
      var s' := VpIdle(s, Bad);
      InvLinks(s);
      IO.StepKeeps(s.fds, s.io, IO.BadFd);
      hide QueuesOk, CondsOk, LocksOk, LinkOk, IO.Exact, IO.Queued, IO.HighestOfInterest, Inv;
      BadLinks(s, s');
    case Found(ready) =>
      FoundKeeps(s, ready);
  }

  lemma BadLinks(s: State, s': State)
    requires QueuesOk(s) && (forall t :: LinkOk(s, Some(s.current), t)) && CondsOk(s) && LocksOk(s) && IoOk(s) && IoWaits(s)
    requires s' == s.(io := s'.io) && s'.io.queue == s.io.queue && IO.Exact(s'.fds, s'.io) && !s.fault
    ensures Core(s', Some(s.current)) && IoWaits(s')
  {
    hide SQ.Has, SQ.Valid, SQ.Once, IO.Exact, IO.Queued, Links;
    forall t ensures LinkOk(s', Some(s.current), t) {
      assert LinkOk(s, Some(s.current), t);
    }
    CondsFrame(s, s');
    forall t ensures LockOk(s', t) {
      assert LockOk(s, t);
    }
    LockQsFrame(s, s');
    forall t ensures PollOk(s', t) {
      assert PollOk(s, t);
    }
    forall t ensures IoWaitOk(s', t) {
      assert IoWaitOk(s, t);
    }
  }

  // ----- The clock -----

  lemma FirstSleeper(s: State)
    requires s.sleep.sleepers != []
    ensures SQ.Has(s.sleep.sleepers, s.sleep.sleepers[0].thread)
  {
  }

  /** A sleeper waits, and not for a mutex; the scheduler's assertions about it hold. */
  lemma SleeperWaits(s: State, r: Option<Tid>, t: Tid)
    requires LinkOk(s, r, t) && SQ.Has(s.sleep.sleepers, t)
    ensures var th := Th(s, t);
            && th.onSleepq && t != s.idle && IsWaiting(th) && th.state != LockWait && !th.timedout && !th.cont.InLock?
            && (th.state == CondWait ==> th.cont.InCondWait? && th.cont.cond.User?)
  {
  }

  lemma ExpireFirstEffect(s: State, r: Option<Tid>)
    requires QueuesOk(s) && (forall u :: LinkOk(s, r, u)) && !s.fault && s.sleep.sleepers != []
    ensures var t := s.sleep.sleepers[0].thread;
            Woken(s, ExpireFirst(s), t, Th(s, t).state == CondWait)
  {
    hide SQ.Has, SQ.Valid, SQ.Once, LinkOk;
    FirstSleeper(s);
    var t := s.sleep.sleepers[0].thread;
    SleeperWaits(s, r, t);
    SQ.TailThreads(s.sleep.sleepers);
  }

  lemma ExpireFirstKeeps(s: State, r: Option<Tid>)
    requires Core(s, r) && IoWaits(s) && s.sleep.sleepers != []
    ensures var t := s.sleep.sleepers[0].thread;
            && Core(ExpireFirst(s), r) && IoWaits(ExpireFirst(s))
            && Woken(s, ExpireFirst(s), t, Th(s, t).state == CondWait)
            && Th(s, t).onSleepq
  {
    hide QueuesOk, CondsOk, LocksOk, IoOk, LinkOk, Woken, ExpireFirst, Th, ContOf;
    var t := s.sleep.sleepers[0].thread;
    CoreSleep(s, r);
    FirstSleeper(s);
    assert LinkOk(s, r, t);
    SleeperOk(s, r, t);
    ExpireFirstEffect(s, r);
    WokenKeeps(s, r, ExpireFirst(s), t, Th(s, t).state == CondWait);
    WokenIoWaits(s, ExpireFirst(s), t);
  }

  lemma SleeperOk(s: State, r: Option<Tid>, t: Tid)
    requires LinkOk(s, r, t) && SQ.Has(s.sleep.sleepers, t)
    ensures IsWaiting(Th(s, t)) && !ContOf(s, t).InLock? && Th(s, t).onSleepq
    ensures Th(s, t).state == CondWait ==> ContOf(s, t).InCondWait? && ContOf(s, t).cond.User?
  {
  }

  lemma WokenIoWaits(s: State, s': State, t: Tid)
    requires IoWaits(s) && exists b :: Woken(s, s', t, b)
    ensures IoWaits(s')
  {
    IoWaitsOnly(s, s', t);
  }

  /** A thread whose time has come: one that waited for a condition variable has timed out. */
  function TimedOut(th: Thread): Thread {
    th.(state := Runnable, onSleepq := false, timedout := th.state == CondWait)
  }

  /** The sleepers that were woken, in their order, are last on the run queue; no other thread changed. */
  ghost predicate Expired(s: State, s': State, woken: seq<Tid>) {
    && s'.runq == s.runq + woken
    && s'.conds == s.conds && s'.mutexes == s.mutexes && s'.io == s.io && s'.fds == s.fds
    && s'.zombieq == s.zombieq && s'.idle == s.idle && s'.current == s.current
    && (forall t :: t in woken ==> Th(s', t) == TimedOut(Th(s, t)) && Th(s, t).onSleepq)
    && (forall t :: t !in woken ==> Th(s', t) == Th(s, t))
  }

  lemma {:induction false} ExpireKeeps(s: State, r: Option<Tid>, elapsed: nat)
    requires Core(s, r) && IoWaits(s)
    ensures var s' := Expire(s, elapsed);
            && Core(s', r) && IoWaits(s') && s'.lastClock == s.lastClock
            && Expired(s, s', SQ.Expire(s.sleep, elapsed).0) && s'.sleep == SQ.Expire(s.sleep, elapsed).1
    decreases |s.sleep.sleepers|
  {
    hide *;
    CoreSleep(s, r);
    if s.sleep.sleepers == [] {
      ExpireNone(s, elapsed);
    } else if elapsed < s.sleep.sleepers[0].sleep {
      ShortenKeeps(s, r, elapsed);
    } else {
      var s1, left := ExpireFirst(s), elapsed - s.sleep.sleepers[0].sleep;
      ExpireFirstKeeps(s, r);
      ExpireStep(s, elapsed);
      ExpireKeeps(s1, r, left);
      CoreLinks(s1, r);
      ExpiredStep(s, r, Expire(s, elapsed), SQ.Expire(s1.sleep, left).0);
    }
  }

  lemma CoreSleep(s: State, r: Option<Tid>)
    requires Core(s, r)
    ensures SQ.Valid(s.sleep)
  {
  }

  lemma CoreLinks(s: State, r: Option<Tid>)
    requires Core(s, r)
    ensures forall t :: LinkOk(s, r, t)
  {
  }

  lemma ExpireNone(s: State, elapsed: nat)
    requires SQ.Valid(s.sleep) && s.sleep.sleepers == []
    ensures Expire(s, elapsed) == s && SQ.Expire(s.sleep, elapsed) == ([], s.sleep)
    ensures Expired(s, s, [])
  {
  }

  lemma ExpireStep(s: State, elapsed: nat)
    requires SQ.Valid(s.sleep) && s.sleep.sleepers != [] && s.sleep.sleepers[0].sleep <= elapsed
    ensures var s1, left := ExpireFirst(s), elapsed - s.sleep.sleepers[0].sleep;
            && Expire(s, elapsed) == Expire(s1, left) && s1.sleep == SQ.DelExpired(s.sleep)
            && |s1.sleep.sleepers| < |s.sleep.sleepers| && s1.lastClock == s.lastClock && SQ.Valid(s1.sleep)
            && SQ.Expire(s.sleep, elapsed)
               == ([s.sleep.sleepers[0].thread] + SQ.Expire(s1.sleep, left).0, SQ.Expire(s1.sleep, left).1)
  {
    hide SQ.Valid, ExpireFirst;
    ExpireFirstSleep(s);
  }

  lemma ExpireFirstSleep(s: State)
    requires SQ.Valid(s.sleep) && s.sleep.sleepers != []
    ensures ExpireFirst(s).sleep == SQ.DelExpired(s.sleep) && ExpireFirst(s).lastClock == s.lastClock
  {
  }

  /** The first sleeper is woken, then the others. */
  lemma ExpiredStep(s: State, r: Option<Tid>, s': State, rest: seq<Tid>)
    requires SQ.Valid(s.sleep) && s.sleep.sleepers != []
    requires var t := s.sleep.sleepers[0].thread;
             && Woken(s, ExpireFirst(s), t, Th(s, t).state == CondWait) && Th(s, t).onSleepq
    requires Expired(ExpireFirst(s), s', rest)
    ensures Expired(s, s', [s.sleep.sleepers[0].thread] + rest)
  {
    hide ExpireFirst, SQ.Has, SQ.Valid, SQ.Once;
    var t, s1 := s.sleep.sleepers[0].thread, ExpireFirst(s);
    assert !Th(s1, t).onSleepq;
    assert s.runq + [t] + rest == s.runq + ([t] + rest);
  }

  lemma ShortenKeeps(s: State, r: Option<Tid>, elapsed: nat)
    requires Core(s, r) && IoWaits(s) && s.sleep.sleepers != [] && elapsed < s.sleep.sleepers[0].sleep
    ensures var s' := Expire(s, elapsed);
            && Core(s', r) && IoWaits(s') && s'.lastClock == s.lastClock
            && SQ.Expire(s.sleep, elapsed).0 == [] && Expired(s, s', [])
            && s'.sleep == SQ.Expire(s.sleep, elapsed).1
  {
    var s' := s.(sleep := SQ.Shorten(s.sleep, elapsed));
    SQ.SameThreads(s.sleep.sleepers, s'.sleep.sleepers);
    hide SQ.Has, SQ.Valid, SQ.Once, NoDup, Links;
    assert forall t :: LinkOk(s, r, t) ==> LinkOk(s', r, t);
    hide LinkOk, CondsOk, LocksOk, IoOk;
    CondsFrame(s, s');
    assert forall t :: LockOk(s', t) by {
      SameLocks(s, s');
    }
    LockQsFrame(s, s');
    IoFrame(s, s');
    assert forall t :: IoWaitOk(s, t) ==> IoWaitOk(s', t);
  }

  lemma SameLocks(s: State, s': State)
    requires LocksOk(s) && s'.threads == s.threads && s'.mutexes == s.mutexes
    ensures forall t :: LockOk(s', t)
  {
    forall t ensures LockOk(s', t) {
      assert LockOk(s, t);
    }
  }

  // ----- A round of the idle thread -----

  lemma ClockFrame(s: State, r: Option<Tid>, now: nat)
    requires QueuesOk(s) && (forall u :: LinkOk(s, r, u)) && IoWaits(s) && IoOk(s)
    ensures var s' := s.(lastClock := now);
            && QueuesOk(s') && (forall u :: LinkOk(s', r, u)) && IoWaits(s') && IoOk(s')
            && s'.conds == s.conds && s'.mutexes == s.mutexes && s'.threads == s.threads && s'.fault == s.fault
            && SamePlaces(s, s') && forall m :: LockQ(s', m) == LockQ(s, m)
  {
    var s' := s.(lastClock := now);
    hide SQ.Has, SQ.Valid, SQ.Once, NoDup, Links, IO.Queued, IO.Exact, IO.Injective;
    forall u ensures LinkOk(s', r, u) && IoWaitOk(s', u) && PollOk(s', u) {
      assert LinkOk(s, r, u) && IoWaitOk(s, u) && PollOk(s, u);
    }
  }

  lemma ClockSet(s: State, r: Option<Tid>, now: nat)
    requires Core(s, r) && IoWaits(s)
    ensures Core(s.(lastClock := now), r) && IoWaits(s.(lastClock := now))
  {
    hide *;
    var s' := s.(lastClock := now);
    CoreParts(s, r);
    ClockFrame(s, r, now);
    CondsFrame(s, s');
    SameLocks(s, s');
    LockQsFrame(s, s');
    CoreFrom(s', r);
  }

  lemma IdleYields(s: State)
    requires Core(s, Some(s.idle)) && IoWaits(s)
    ensures var s' := Put(s, s.idle, Th(s, s.idle).(state := Runnable));
            Core(s', None) && IoWaits(s')
  {
    hide *;
    var s' := Put(s, s.idle, Th(s, s.idle).(state := Runnable));
    CoreParts(s, Some(s.idle));
    IdleYieldsLinks(s);
    CondsFrame(s, s');
    LocksFrame(s, s', s.idle);
    IoFrame(s, s');
    IoWaitsOnly(s, s', s.idle);
    CoreFrom(s', None);
  }

  lemma CoreParts(s: State, r: Option<Tid>)
    requires Core(s, r)
    ensures QueuesOk(s) && (forall u :: LinkOk(s, r, u)) && CondsOk(s) && LocksOk(s) && IoOk(s) && !s.fault
  {
  }

  lemma CoreFrom(s: State, r: Option<Tid>)
    requires QueuesOk(s) && (forall u :: LinkOk(s, r, u)) && CondsOk(s) && LocksOk(s) && IoOk(s) && !s.fault
    ensures Core(s, r)
  {
  }

  lemma IdleYieldsLinks(s: State)
    requires QueuesOk(s) && (forall u :: LinkOk(s, Some(s.idle), u))
    ensures var s' := Put(s, s.idle, Th(s, s.idle).(state := Runnable));
            && QueuesOk(s') && (forall u :: LinkOk(s', None, u))
            && Only(s, s', s.idle) && SamePlaces(s, s') && (forall u :: ContOf(s', u) == ContOf(s, u))
            && LockOk(s', s.idle) && IoWaitOk(s', s.idle)
            && s'.conds == s.conds && s'.mutexes == s.mutexes && s'.io == s.io && s'.fds == s.fds
            && s'.fault == s.fault
  {
    hide SQ.Has, SQ.Valid, SQ.Once;
    var s' := Put(s, s.idle, Th(s, s.idle).(state := Runnable));
    assert LinkOk(s, Some(s.idle), s.idle);
    LinksFrame(s, Some(s.idle), s', None, s.idle);
  }

  lemma IdleRoundKeeps(s: State, r: Selected, now: nat)
    requires Inv(s) && s.current == s.idle && s.lastClock <= now
    ensures Inv(IdleRound(s, r, now))
  {
    hide *;
    var s1 := VpIdle(s, r);
    VpIdleKeeps(s, r);
    ClockSet(s1, Some(s.idle), now);
    CoreSleep(s1, Some(s.idle));
    ExpireKeeps(s1.(lastClock := now), Some(s.idle), now - s.lastClock);
    var s2 := Expire(s1.(lastClock := now), now - s.lastClock);
    SameIdle(s1.(lastClock := now), s2, SQ.Expire(s1.sleep, now - s.lastClock).0);
    IdleYields(s2);
    SwitchKeeps(Put(s2, s2.idle, Th(s2, s2.idle).(state := Runnable)));
    IdleRoundIs(s, r, now);
  }

  lemma SameIdle(s: State, s': State, woken: seq<Tid>)
    requires Expired(s, s', woken)
    ensures s'.idle == s.idle
  {
  }

  lemma IdleRoundIs(s: State, r: Selected, now: nat)
    requires VpIdle(s, r).lastClock == s.lastClock <= now
    requires Expire(VpIdle(s, r).(lastClock := now), now - s.lastClock).idle == s.idle
    ensures var s2 := Expire(VpIdle(s, r).(lastClock := now), now - s.lastClock);
            IdleRound(s, r, now) == Schedule(Put(s2, s2.idle, Th(s2, s2.idle).(state := Runnable)))
  {
    hide VpIdle, Expire, Schedule, Put, Th;
  }

  // ----- Every step and every run -----

  lemma CallKeeps(s: State, call: Call)
    requires Calling(s) && CallOk(s, call)
    ensures Inv(Perform(s, call).0)
  {
    hide Inv, Usleep, CondTimedwait, CondSignal, Lock, Unlock, Trylock, Poll, Interrupt, Create, Exit, Join, Return;
    match call
    case CUsleep(usecs) => UsleepKeeps(s, usecs);
    case CCondWait(c, timeout) => CondTimedwaitKeeps(s, User(c), timeout);
    case CCondSignal(c, broadcast) =>
      SignalCallKeeps(s, User(c), broadcast);
      ReturnSame(CondSignal(s, User(c), broadcast), Ok(0));
    case CLock(m) => LockKeeps(s, m);
    case CUnlock(m) => UnlockKeeps(s, m);
    case CTrylock(m) => TrylockKeeps(s, m);
    case CPoll(pds, timeout) => PollKeeps(s, pds, timeout);
    case CInterrupt(t) =>
      InterruptCallKeeps(s, t);
      ReturnSame(Interrupt(s, t), Ok(0));
    case CCreate(t, joinable) =>
      CreateKeeps(s, t, joinable);
      ReturnSame(Create(s, t, joinable), Ok(t));
    case CExit(retval) => ExitKeeps(s, retval);
    case CJoin(t) => JoinKeeps(s, t);
  }

  lemma InterruptCallKeeps(s: State, t: Tid)
    requires Calling(s) && !Dead(ContOf(s, t))
    ensures Calling(Interrupt(s, t))
  {
    hide Core, QueuesOk, LinkOk, CondsOk, LocksOk, IoOk, Interrupt;
    InvLinks(s);
    InvCore(s);
    CallingThread(s);
    InterruptKeeps(s, Some(s.current), t);
  }

  lemma UsleepEndIs(s: State)
    ensures UsleepEnd(s).0 == Put(s, s.current, Th(s, s.current).(cont := InProgram, interrupt := false))
  {
    if Interrupted(s) {
      var th := Th(s, s.current).(interrupt := false);
      assert s.threads[s.current := th][s.current := th.(cont := InProgram)]
          == s.threads[s.current := th.(cont := InProgram)];
    }
  }

  lemma GoOnKeeps(s: State)
    requires Inv(s) && s.current != s.idle && !ContOf(s, s.current).InProgram?
    ensures Inv(GoOn(s).0)
  {
    hide Inv, CondEnd, LockEnd, PollEnd, ExitEnd;
    ResumedThread(s);
    match ContOf(s, s.current)
    case Begin => BeginKeeps(s, Th(s, s.current).interrupt);
    case InUsleep =>
      UsleepEndIs(s);
      BeginKeeps(s, false);
    case InCondWait(c) => CondEndKeeps(s, c);
    case InLock(m) => LockEndKeeps(s, m);
    case InPoll(_, _, _) => PollEndKeeps(s);
    case InExit => ExitEndKeeps(s);
    case _ =>
  }

  /** One step keeps the invariant. */
  lemma NextKeeps(s: State, e: Event)
    requires Inv(s) && Enabled(s, e)
    ensures Inv(Next(s, e).0)
  {
    hide Inv, Perform, GoOn, IdleRound, CallOk;
    match e
    case Do(call) => CallKeeps(s, call);
    case Resume => GoOnKeeps(s);
    case Idle(selected, now) => IdleRoundKeeps(s, selected, now);
  }

  lemma InitKeeps(idle: Tid, primordial: Tid, now: nat, fds: seq<int>)
    requires idle != primordial && IO.Injective(fds)
    ensures Inv(Init(idle, primordial, now, fds))
  {
    var s := Init(idle, primordial, now, fds);
    forall t ensures LinkOk(s, Some(s.current), t) && CondsOk(s) && LockOk(s, t) && PollOk(s, t) {
    }
    assert IO.Registered([]) == multiset{};
  }

  lemma NoFault(s: State)
    requires Inv(s)
    ensures !s.fault
  {
  }

  /** A run of a program from st_init on. */
  ghost predicate IsRun(states: seq<State>, events: seq<Event>) {
    && |states| == |events| + 1
    && (exists idle, primordial, now ::
          idle != primordial && states[0] == Init(idle, primordial, now, states[0].fds) && IO.Injective(states[0].fds))
    && forall i :: 0 <= i < |events| ==> Enabled(states[i], events[i]) && states[i + 1] == Next(states[i], events[i]).0
  }

  /**
   In every state of every run no assertion of the scheduler has failed, each thread is on at most one of
   the run, sleep and zombie queues, as its state says, and the idle thread runs only when no other can.
   */
  lemma {:induction false} RunKeeps(states: seq<State>, events: seq<Event>, n: nat)
    requires IsRun(states, events) && n <= |events|
    ensures Inv(states[n])
  {
    hide Inv, Next, Enabled;
    if n == 0 {
      var idle, primordial, now :|
        idle != primordial && states[0] == Init(idle, primordial, now, states[0].fds) && IO.Injective(states[0].fds);
      InitKeeps(idle, primordial, now, states[0].fds);
    } else {
      RunKeeps(states, events, n - 1);
      assert Enabled(states[n - 1], events[n - 1]) && states[n - 1 + 1] == Next(states[n - 1], events[n - 1]).0;
      NextKeeps(states[n - 1], events[n - 1]);
    }
  }

  lemma RunLength(states: seq<State>, events: seq<Event>)
    requires IsRun(states, events)
    ensures |states| == |events| + 1
  {
  }

  lemma RunStep(states: seq<State>, events: seq<Event>, n: nat)
    requires IsRun(states, events) && n < |events|
    ensures |states| == |events| + 1
    ensures Inv(states[n]) && Enabled(states[n], events[n]) && states[n + 1] == Next(states[n], events[n]).0
  {
    hide Inv, Next, Enabled;
    RunKeeps(states, events, n);
  }
}
