/** What the invariant of the scheduler means for threads, and for the clock. */
module SchedulerTheorems {
  import opened Wrappers
  import opened Queues
  import opened Scheduler
  import opened SchedulerInvariant
  import opened SchedulerSteps
  import opened SchedulerEffects
  import SQ = SleepQueue
  import IO = IoQueue

  /**
   In every state of every run a thread that has not been freed is on at most one of the queues that share
   its links, once, and one that is not the idle thread is runnable exactly when it is on the run queue.
   */
  lemma OneQueue(states: seq<State>, events: seq<Event>, n: nat, t: Tid)
    requires IsRun(states, events) && n <= |events| && !Dead(ContOf(states[n], t))
    ensures var s := states[n];
            var onRun, onSleep, onZombie := t in s.runq, SQ.Has(s.sleep.sleepers, t), t in s.zombieq;
            && NoDup(s.runq) && NoDup(s.zombieq) && SQ.Once(s.sleep.sleepers)
            && !(onRun && onSleep) && !(onRun && onZombie) && !(onSleep && onZombie)
            && (t != s.idle ==> (onRun <==> Th(s, t).state == Runnable))
            && (Th(s, t).state == Running <==> t == s.current)
            && !s.fault
  {
    RunKeeps(states, events, n);
    hide IsRun;
    assert LinkOk(states[n], Some(states[n].current), t);
  }

  /** When the idle thread runs, no other thread can, and each request on the I/O queue has its thread waiting for it. */
  lemma IdleLast(states: seq<State>, events: seq<Event>, n: nat, t: Tid)
    requires IsRun(states, events) && n <= |events| && states[n].current == states[n].idle
    requires !Dead(ContOf(states[n], t)) && t != states[n].idle
    ensures Th(states[n], t).state !in {Running, Runnable}
    ensures IO.Queued(states[n].io.queue, t) ==> Th(states[n], t).state == IoWait
  {
    RunKeeps(states, events, n);
    hide IsRun;
    assert LinkOk(states[n], Some(states[n].current), t);
    if IO.Queued(states[n].io.queue, t) {
      PollersWait(states[n], t);
    }
  }

  /**
   A clock check wakes exactly the threads whose deadline has come, in the order of their deadlines and, for
   equal ones, of their going to sleep; they go last on the run queue in that order, a thread that waited on
   a condition variable is marked, and every other deadline stays.
   */
  lemma ClockWakesDue(s: State, r: Selected, now: nat)
    requires Inv(s) && s.current == s.idle && s.lastClock <= now
    ensures var s1 := VpIdle(s, r);
            var s2 := CheckClock(s1, now);
            var timers := SQ.Timers(s1.sleep.sleepers, s.lastClock);
            var due := SQ.Threads(SQ.Due(timers, now));
            && s2.runq == s1.runq + due
            && SQ.Timers(s2.sleep.sleepers, now) == SQ.NotDue(timers, now)
            && (forall t :: t in due ==> Th(s2, t) == TimedOut(Th(s1, t)))
            && (forall t :: t !in due ==> Th(s2, t) == Th(s1, t))
  {
    hide *;
    var s1 := VpIdle(s, r);
    VpIdleKeeps(s, r);
    ClockSet(s1, Some(s.idle), now);
    var s1' := s1.(lastClock := now);
    CoreSleep(s1, Some(s.idle));
    ExpireKeeps(s1', Some(s.idle), now - s.lastClock);
    CheckClockIs(s1, now);
    SQ.ExpireRefines(s1.sleep, now - s.lastClock, s.lastClock);
    WokenRunnable(s1, CheckClock(s1, now), SQ.Expire(s1.sleep, now - s.lastClock).0, now);
  }

  lemma WokenRunnable(s: State, s': State, woken: seq<Tid>, now: nat)
    requires Expired(s.(lastClock := now), s', woken)
    ensures s'.runq == s.runq + woken
    ensures forall t :: t in woken ==> Th(s', t) == TimedOut(Th(s, t))
    ensures forall t :: t !in woken ==> Th(s', t) == Th(s, t)
  {
    assert forall t :: Th(s.(lastClock := now), t) == Th(s, t);
  }

  // ----- A round of the idle thread -----

  function ThreadsOf(requests: seq<IO.Request>): seq<Tid> {
    if requests == [] then [] else [requests[0].thread] + ThreadsOf(requests[1..])
  }

  lemma WakeRunq(s: State, t: Tid)
    ensures Wake(s, t).runq == s.runq + [t]
  {
    hide SQ.Valid, SQ.Has, SQ.Del;
  }

  lemma {:induction false} WakeAllRunq(s: State, notified: seq<IO.Request>)
    ensures WakeAll(s, notified).runq == s.runq + ThreadsOf(notified)
    decreases notified
  {
    hide Wake;
    if notified == [] {
      assert s.runq + [] == s.runq;
    } else {
      WakeRunq(s, notified[0].thread);
      WakeAllRunq(Wake(s, notified[0].thread), notified[1..]);
      assert (s.runq + [notified[0].thread]) + ThreadsOf(notified[1..]) == s.runq + ThreadsOf(notified);
    }
  }

  /** The threads whose I/O a round finds, in the order of their requests. */
  function Found(s: State, r: Selected): seq<Tid> {
    if r.Found? then ThreadsOf(IO.Ready(s.fds, r.ready, s.io.queue)) else []
  }

  lemma LookRunq(s: State, r: Selected)
    requires Inv(s) && s.current == s.idle
    ensures VpIdle(s, r).runq == s.runq + Found(s, r)
  {
    hide *;
    if r.Found? {
      MarkedKeeps(s, r.ready);
      InvLinks(s);
      IoExact(s);
      IO.NotifyKeeps(s.fds, s.io, r.ready);
      var (io, notified) := IO.Notify(s.fds, s.io, r.ready);
      WakeAllRunq(s.(io := io, threads := Mark(s, notified, r.ready)), notified);
      FoundThreads(s, r);
    } else {
      FoundNothing(s, r);
    }
  }

  lemma FoundThreads(s: State, r: Selected)
    requires r.Found?
    ensures Found(s, r) == ThreadsOf(IO.Ready(s.fds, r.ready, s.io.queue))
  {
  }

  lemma FoundNothing(s: State, r: Selected)
    requires !r.Found?
    ensures VpIdle(s, r).runq == s.runq + Found(s, r)
  {
    assert s.runq + [] == s.runq;
  }

  lemma {:induction false} FoundMembers(requests: seq<IO.Request>, t: Tid)
    ensures t in ThreadsOf(requests) <==> exists q :: q in requests && q.thread == t
    decreases |requests|
  {
    if requests != [] {
      FoundMembers(requests[1..], t);
      assert requests == [requests[0]] + requests[1..];
    }
  }

  /** A thread is among them exactly if select shows an event that its request asks for. */
  lemma FoundExactly(s: State, ready: set<IO.Key>, t: Tid)
    ensures t in Found(s, Selected.Found(ready))
            <==> exists q :: q in s.io.queue && q.thread == t && IO.AnyShows(s.fds, ready, q.pds)
  {
    hide IO.Ready, IO.AnyShows, IO.IsReady, ThreadsOf;
    FoundMembers(IO.Ready(s.fds, ready, s.io.queue), t);
    IO.ReadyMembers(s.fds, ready, s.io.queue);
    forall q: IO.Request ensures IO.IsReady(s.fds, ready, q.pds) <==> IO.AnyShows(s.fds, ready, q.pds) {
      IO.ReadyShows(s.fds, ready, q.pds);
    }
  }

  lemma {:induction false} ThreadsAre(requests: seq<IO.Request>, i: nat)
    requires i < |requests|
    ensures i < |ThreadsOf(requests)| && ThreadsOf(requests)[i] == requests[i].thread
  {
    if i > 0 {
      ThreadsAre(requests[1..], i - 1);
    }
  }

  /** The thread of an earlier request comes first. */
  lemma FoundInOrder(s: State, ready: set<IO.Key>, i: nat, j: nat)
    requires i < j < |s.io.queue|
    requires IO.AnyShows(s.fds, ready, s.io.queue[i].pds) && IO.AnyShows(s.fds, ready, s.io.queue[j].pds)
    ensures var found := Found(s, Selected.Found(ready));
            exists a, b :: 0 <= a < b < |found| && found[a] == s.io.queue[i].thread && found[b] == s.io.queue[j].thread
  {
    hide IO.Ready, IO.AnyShows, ThreadsOf;
    var a, b := IO.ReadyOrder(s.fds, ready, s.io.queue, i, j);
    ThreadsAre(IO.Ready(s.fds, ready, s.io.queue), a);
    ThreadsAre(IO.Ready(s.fds, ready, s.io.queue), b);
    FoundThreads(s, Selected.Found(ready));
    var found := Found(s, Selected.Found(ready));
    assert found[a] == s.io.queue[i].thread && found[b] == s.io.queue[j].thread;
  }

  /**
   A round of the idle thread wakes the threads whose I/O is there, in the order of their requests, and then those whose
   deadline has come, in the order of their deadlines. The first of them runs, or the idle thread again if there is none.
   */
  lemma RoundCall(s: State, r: Selected, now: nat)
    requires Inv(s) && Enabled(s, Idle(r, now))
    ensures var s', s1 := Next(s, Idle(r, now)).0, VpIdle(s, r);
            var woken := Found(s, r) + SQ.Threads(SQ.Due(SQ.Timers(s1.sleep.sleepers, s.lastClock), now));
            && s'.current == (if woken == [] then s.idle else woken[0])
            && s'.runq == (if woken == [] then [] else woken[1..])
            && Th(s', s'.current).state == Running
  {
    hide *;
    IdleIs(s, Idle(r, now));
    IdleThread(s);
    LookRunq(s, r);
    ClockWakesDue(s, r, now);
    RoundIs(s, r, now);
    RoundRunq(s, r, now);
    var due := SQ.Threads(SQ.Due(SQ.Timers(VpIdle(s, r).sleep.sleepers, s.lastClock), now));
    assert ([] + Found(s, r)) + due == Found(s, r) + due;
    ScheduleTakes(Round(s, r, now));
    CheckedIdle(s, r, now);
  }

  lemma RoundRunq(s: State, r: Selected, now: nat)
    ensures Round(s, r, now).runq == CheckClock(VpIdle(s, r), now).runq
    ensures Round(s, r, now).idle == CheckClock(VpIdle(s, r), now).idle
  {
    hide CheckClock, VpIdle;
  }

  lemma CheckedIdle(s: State, r: Selected, now: nat)
    requires Inv(s) && s.current == s.idle && s.lastClock <= now
    ensures CheckClock(VpIdle(s, r), now).idle == s.idle
  {
    hide *;
    VpIdleKeeps(s, r);
    ClockSet(VpIdle(s, r), Some(s.idle), now);
    var s1 := VpIdle(s, r).(lastClock := now);
    CoreSleep(s1, Some(s.idle));
    ExpireKeeps(s1, Some(s.idle), now - s.lastClock);
    CheckClockIs(VpIdle(s, r), now);
    SameIdle(s1, Expire(s1, now - s.lastClock), SQ.Expire(s1.sleep, now - s.lastClock).0);
  }

  lemma ScheduleTakes(s: State)
    ensures var s' := Schedule(s);
            && s'.current == (if s.runq == [] then s.idle else s.runq[0])
            && s'.runq == (if s.runq == [] then [] else s.runq[1..])
            && Th(s', s'.current).state == Running
  {
  }
}
