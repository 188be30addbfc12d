/**
 The virtual processor in place: the calls of sched.c and sync.cpp on its fields, its sleep queue and its
 I/O queue, each proved to be a step of the state machine.
 */
module VirtualProcessor {
  import opened Wrappers
  import opened Queues
  import opened Scheduler
  import opened SchedulerInvariant
  import opened SchedulerSteps
  import SQ = SleepQueue
  import IO = IoQueue

  class Vp {
    var threads: map<Tid, Thread>
    var current: Tid
    const idle: Tid
    var runQ: seq<Tid>
    var zombieQ: seq<Tid>
    const sleepQ: SQ.SleepQ
    const ioQ: IO.IoQ
    var lastClock: nat
    var conds: map<Cond, seq<Tid>>
    var mutexes: map<nat, Mutex>

    /** st_init */
    constructor (idle: Tid, primordial: Tid, now: nat, fds: seq<int>)
      requires idle != primordial
      ensures Value() == Init(idle, primordial, now, fds)
      ensures fresh(sleepQ) && fresh(ioQ)
    {
      this.idle := idle;
      sleepQ := new SQ.SleepQ();
      ioQ := new IO.IoQ(fds);
      threads := map[idle := Thread(Runnable, IdleLoop, false, false, false, false, 0),
                     primordial := Thread(Running, InProgram, false, false, false, false, 0)];
      current, lastClock := primordial, now;
      runQ, zombieQ, conds, mutexes := [], [], map[], map[];
    }

    /** The state; a failed assertion would not verify here. */
    function Value(): State
      reads this, sleepQ, ioQ
    {
      State(threads, current, idle, runQ, zombieQ, sleepQ.Value(), lastClock, ioQ.fds, ioQ.Value(), conds, mutexes,
            false)
    }

    function Get(t: Tid): Thread
      reads this
    {
      if t in threads then threads[t] else ABSENT
    }

    // ----- Queues -----

    method MakeRunnable(t: Tid)
      modifies this`threads, this`runQ
      ensures Value() == Scheduler.MakeRunnable(old(Value()), t)
    {
      threads := threads[t := Get(t).(state := Runnable)];
      runQ := runQ + [t];
    }

    method AddSleepQ(t: Tid, timeout: nat)
      requires SQ.Valid(sleepQ.Value())
      modifies this`threads, sleepQ
      ensures Value() == Scheduler.AddSleepQ(old(Value()), t, timeout)
    {
      sleepQ.AddSleepQ(t, timeout);
      threads := threads[t := Get(t).(onSleepq := true)];
    }

    method DelSleepQ(t: Tid)
      requires SQ.Valid(sleepQ.Value()) && Get(t).onSleepq && SQ.Has(sleepQ.sleepers, t)
      modifies this`threads, sleepQ
      ensures Value() == Scheduler.DelSleepQ(old(Value()), t)
    {
      sleepQ.DelSleepQ(SQ.Index(sleepQ.sleepers, t), false);
      threads := threads[t := Get(t).(onSleepq := false)];
    }

    method Wake(t: Tid, ghost r: Option<Tid>)
      requires Core(Value(), r) && IsWaiting(Get(t))
      modifies this`threads, this`runQ, sleepQ
      ensures Value() == Scheduler.Wake(old(Value()), t)
    {
      hide Core, Scheduler.DelSleepQ, Scheduler.MakeRunnable, SQ.Has, SQ.Valid;
      ghost var s := Value();
      SleeperKnown(s, r, t);
      if Get(t).onSleepq {
        DelSleepQ(t);
      }
      MakeRunnable(t);
    }

    /** _ST_SWITCH_CONTEXT */
    method SwitchContext()
      requires !Schedule(Value()).fault
      modifies this`threads, this`runQ, this`current
      ensures Value() == Schedule(old(Value()))
    {
      var t := idle;
      if runQ != [] {
        t := runQ[0];
        runQ := runQ[1..];
      }
      assert Get(t).state == Runnable;
      threads := threads[t := Get(t).(state := Running)];
      current := t;
    }

    /** The start of a call that may block: an interrupt that is pending is taken instead. */
    method TakeInterrupt() returns (taken: bool)
      requires Calling(Value())
      modifies this`threads
      ensures taken == Interrupted(old(Value()))
      ensures Value() == if taken then Return(Scheduler.TakeInterrupt(old(Value())), Err(EINTR)).0 else old(Value())
    {
      hide Calling;
      ghost var s := Value();
      taken := Get(current).interrupt;
      if taken {
        TakeInterruptKeeps(s);
        ReturnSame(Scheduler.TakeInterrupt(s), Err(EINTR));
        threads := threads[current := Get(current).(interrupt := false)];
      }
    }

    method Suspend(state: Status, cont: Cont)
      modifies this`threads
      ensures Value() == Block(old(Value()), state, cont)
    {
      threads := threads[current := Get(current).(state := state, cont := cont)];
    }

    method GoTo(cont: Cont)
      modifies this`threads
      ensures Value() == Put(old(Value()), current, Th(old(Value()), current).(cont := cont))
    {
      threads := threads[current := Get(current).(cont := cont)];
    }

    // ----- Calls that wait -----

    method WaitFor(timeout: Option<nat>)
      requires SQ.Valid(sleepQ.Value())
      modifies this`threads, sleepQ
      ensures Value() == Timed(old(Value()), current, timeout)
    {
      hide Scheduler.AddSleepQ;
      if timeout.Some? {
        AddSleepQ(current, timeout.value);
      }
    }

    /** st_usleep up to its switch. */
    method Usleep(usecs: nat) returns (r: Option<Result>)
      requires Calling(Value()) && usecs < SQ.WORD
      modifies this, sleepQ
      ensures (Value(), r) == Scheduler.Usleep(old(Value()), usecs)
    {
      hide Calling, Inv, Schedule, Timed, SQ.Valid;
      ghost var s := Value();
      CallingQueues(s);
      UsleepKeeps(s, usecs);
      NoFault(Scheduler.Usleep(s, usecs).0);
      var taken := TakeInterrupt();
      if taken {
        return Some(Err(EINTR));
      }
      Suspend(Sleeping, InUsleep);
      WaitFor(Some(usecs));
      SwitchContext();
      r := None;
    }

    /** st_cond_timedwait up to its switch. */
    method CondTimedwait(c: Cond, timeout: Option<nat>) returns (r: Option<Result>)
      requires Calling(Value()) && Fits(timeout) && (c.Term? ==> timeout == None)
      modifies this, sleepQ
      ensures (Value(), r) == Scheduler.CondTimedwait(old(Value()), c, timeout)
    {
      hide Calling, CondBlock;
      ghost var s := Value();
      var taken := TakeInterrupt();
      if taken {
        return Some(Err(EINTR));
      }
      WaitOnCond(c, timeout);
      r := None;
    }

    method WaitOnCond(c: Cond, timeout: Option<nat>)
      requires Calling(Value()) && Fits(timeout) && (c.Term? ==> timeout == None)
      modifies this, sleepQ
      ensures Value() == CondBlock(old(Value()), c, timeout)
    {
      hide Calling, Inv, Schedule, Timed, SQ.Valid;
      ghost var s := Value();
      CallingQueues(s);
      CondBlockKeeps(s, c, timeout);
      NoFault(CondBlock(s, c, timeout));
      Suspend(CondWait, InCondWait(c));
      conds := conds[c := (if c in conds then conds[c] else []) + [current]];
      WaitFor(timeout);
      SwitchContext();
    }

    /** st_mutex_lock up to its return or its switch. */
    method MutexLock(m: nat) returns (r: Option<Result>)
      requires Calling(Value())
      modifies this
      ensures (Value(), r) == Lock(old(Value()), m)
    {
      hide Calling, Inv, Schedule;
      ghost var s := Value();
      LockKeeps(s, m);
      NoFault(Lock(s, m).0);
      LockReturnSame(s, m);
      var taken := TakeInterrupt();
      if taken {
        return Some(Err(EINTR));
      }
      var x := if m in mutexes then mutexes[m] else Mutex(None, []);
      if x.owner == None {
        mutexes := mutexes[m := x.(owner := Some(current))];
        return Some(Ok(0));
      }
      if x.owner == Some(current) {
        return Some(Err(EDEADLK));
      }
      Suspend(LockWait, InLock(m));
      mutexes := mutexes[m := x.(waitq := x.waitq + [current])];
      SwitchContext();
      r := None;
    }

    method MutexTrylock(m: nat) returns (r: Result)
      requires Calling(Value())
      modifies this`mutexes
      ensures (Value(), Some(r)) == Trylock(old(Value()), m)
    {
      hide Calling, Inv;
      ghost var s := Value();
      LockReturnSame(s, m);
      var x := if m in mutexes then mutexes[m] else Mutex(None, []);
      if x.owner != None {
        return Err(EBUSY);
      }
      mutexes := mutexes[m := x.(owner := Some(current))];
      r := Ok(0);
    }

    /** _st_poll up to its switch. */
    method Poll(pds: seq<IO.PollFd>, timeout: Option<nat>) returns (r: Option<Result>)
      requires Calling(Value()) && IO.Legal(ioQ.fds, pds) && Fits(timeout)
      modifies this, sleepQ, ioQ
      ensures (Value(), r) == Scheduler.Poll(old(Value()), pds, timeout)
    {
      hide Calling, Inv, Schedule, Timed, SQ.Valid, IO.Legal, IO.Register;
      ghost var s := Value();
      CallingQueues(s);
      PollKeeps(s, pds, timeout);
      NoFault(Scheduler.Poll(s, pds, timeout).0);
      var taken := TakeInterrupt();
      if taken {
        return Some(Err(EINTR));
      }
      ioQ.Poll(IO.Request(current, pds));
      Suspend(IoWait, InPoll(pds, true, []));
      WaitFor(timeout);
      SwitchContext();
      r := None;
    }

    // ----- Signals and mutexes -----

    /** _st_cond_signal */
    method CondSignal(c: Cond, broadcast: bool, ghost r: Option<Tid>)
      requires Core(Value(), r)
      modifies this`threads, this`runQ, sleepQ
      ensures Value() == Scheduler.CondSignal(old(Value()), c, broadcast)
    {
      hide Core, Scheduler.Wake;
      ghost var s := Value();
      var q := if c in conds then conds[c] else [];
      var i := 0;
      assert q[0..] == q;
      while i < |q|
        invariant 0 <= i <= |q| && Core(Value(), r)
        invariant Signal(s, q, broadcast) == Signal(Value(), q[i..], broadcast)
      {
        ghost var s1 := Value();
        assert q[i..][0] == q[i] && q[i..][1..] == q[i + 1..];
        if Get(q[i]).state == CondWait {
          CondWaitPlace(s1, r, q[i]);
          WakeKeeps(s1, r, q[i]);
          Wake(q[i], r);
          if !broadcast {
            return;
          }
        }
        i := i + 1;
      }
    }

    /** st_mutex_unlock */
    method MutexUnlock(m: nat) returns (r: Result)
      requires Calling(Value())
      modifies this`threads, this`runQ, this`mutexes
      ensures (Value(), Some(r)) == Unlock(old(Value()), m)
    {
      hide Calling;
      ghost var s := Value();
      var x := if m in mutexes then mutexes[m] else Mutex(None, []);
      if x.owner != Some(current) {
        ReturnSame(s, Err(EPERM));
        return Err(EPERM);
      }
      Unlocked(s, m);
      var i := 0;
      assert x.waitq[0..] == x.waitq;
      while i < |x.waitq|
        invariant 0 <= i <= |x.waitq| && Value() == s
        invariant HandOff(s, m, x.waitq) == HandOff(s, m, x.waitq[i..])
      {
        var t := x.waitq[i];
        assert x.waitq[i..][0] == t && x.waitq[i..][1..] == x.waitq[i + 1..];
        if Get(t).state == LockWait {
          mutexes := mutexes[m := x.(owner := Some(t))];
          MakeRunnable(t);
          return Ok(0);
        }
        i := i + 1;
      }
      mutexes := mutexes[m := x.(owner := None)];
      r := Ok(0);
    }

    // ----- Threads -----

    method ThreadInterrupt(t: Tid)
      requires Calling(Value()) && !Dead(ContOf(Value(), t))
      modifies this`threads, this`runQ, sleepQ
      ensures Value() == Interrupt(old(Value()), t)
    {
      ghost var s := Value();
      InvCore(s);
      FlagKeeps(s, Some(s.current), t);
      hide Calling, Inv, Core, Scheduler.Wake;
      var th := Get(t);
      if th.state == Zombie {
        return;
      }
      threads := threads[t := th.(interrupt := true)];
      if th.state == Running || th.state == Runnable {
        return;
      }
      Wake(t, Some(s.current));
    }

    method ThreadCreate(t: Tid, joinable: bool)
      requires t !in threads
      modifies this`threads, this`runQ
      ensures Value() == Create(old(Value()), t, joinable)
    {
      threads := threads[t := Thread(Runnable, Begin, false, false, false, joinable, 0)];
      runQ := runQ + [t];
    }

    /** st_thread_exit up to its first switch. */
    method ThreadExit(retval: int)
      requires Calling(Value())
      modifies this, sleepQ
      ensures Value() == Exit(old(Value()), retval)
    {
      hide Calling, Inv, Core, Schedule, Scheduler.CondSignal;
      ghost var s := Value();
      ExitKeeps(s, retval);
      NoFault(Exit(s, retval));
      if Get(current).joinable {
        DyingCore(s, retval);
      }
      var th := Get(current).(retval := retval);
      if th.joinable {
        threads := threads[current := th.(state := Zombie, cont := InExit)];
        zombieQ := zombieQ + [current];
        CondSignal(Term(current), false, None);
      } else {
        threads := threads[current := th.(cont := Gone)];
      }
      SwitchContext();
    }

    /** The end of st_thread_exit. */
    method ThreadExitEnd()
      requires Inv(Value()) && ContOf(Value(), current).InExit?
      modifies this
      ensures Value() == ExitEnd(old(Value()))
    {
      hide Inv, Schedule;
      ghost var s := Value();
      ExitEndKeeps(s);
      NoFault(ExitEnd(s));
      threads := threads[current := Get(current).(joinable := false, cont := Gone)];
      SwitchContext();
    }

    /** The end of a join, on a zombie. */
    method TakeZombie(t: Tid) returns (r: Result)
      requires Calling(Value()) && Get(t).state == Zombie
      modifies this`threads, this`runQ, this`zombieQ
      ensures (Value(), Some(r)) == Joined(old(Value()), t)
    {
      hide Calling, Without, Joined;
      ghost var s := Value();
      JoinedIs(s, t);
      r := Ok(Get(t).retval);
      zombieQ := Without(zombieQ, t);
      MakeRunnable(t);
    }

    /** st_thread_join up to its return or its switch. */
    method ThreadJoin(t: Tid) returns (r: Option<Result>)
      requires Calling(Value())
      modifies this, sleepQ
      ensures (Value(), r) == Join(old(Value()), t)
    {
      hide Calling, Joined, Scheduler.CondTimedwait;
      ghost var s := Value();
      ReturnSame(s, Err(EINVAL));
      ReturnSame(s, Err(EDEADLK));
      if !Get(t).joinable {
        return Some(Err(EINVAL));
      }
      if current == t {
        return Some(Err(EDEADLK));
      }
      if Term(t) in conds && conds[Term(t)] != [] {
        return Some(Err(EINVAL));
      }
      if Get(t).state == Zombie {
        var value := TakeZombie(t);
        return Some(value);
      }
      r := CondTimedwait(Term(t), None);
    }

    // ----- After a switch -----

    method UsleepEnd() returns (r: Result)
      modifies this`threads
      ensures (Value(), Some(r)) == Scheduler.UsleepEnd(old(Value()))
    {
      ghost var s := Value();
      UsleepEndIs(s);
      if Get(current).interrupt {
        threads := threads[current := Get(current).(interrupt := false, cont := InProgram)];
        return Err(EINTR);
      }
      threads := threads[current := Get(current).(cont := InProgram)];
      r := Ok(0);
    }

    /** The end of st_cond_timedwait, and of st_thread_join for a `term`. */
    method CondEnd(c: Cond) returns (r: Option<Result>)
      requires Inv(Value()) && ContOf(Value(), current) == InCondWait(c)
      modifies this, sleepQ
      ensures (Value(), r) == Scheduler.CondEnd(old(Value()), c)
    {
      hide Inv, Calling, Joined, Scheduler.CondTimedwait, Without;
      ghost var s := Value();
      CondLeaveKeeps(s, c);
      ReturnSame(CondLeave(s, c), CondResult(Th(s, s.current)));
      var th := Get(current);
      var result := if th.interrupt then Err(EINTR) else if th.timedout then Err(ETIME) else Ok(0);
      threads := threads[current := th.(timedout := false, interrupt := false, cont := InProgram)];
      conds := conds[c := Without(if c in conds then conds[c] else [], current)];
      if c.User? || result.Err? {
        return Some(result);
      }
      if Get(c.thread).state == Zombie {
        var value := TakeZombie(c.thread);
        return Some(value);
      }
      r := CondTimedwait(c, None);
    }

    /** The end of st_mutex_lock. */
    method LockEnd(m: nat) returns (r: Result)
      modifies this`threads, this`mutexes
      ensures (Value(), Some(r)) == Scheduler.LockEnd(old(Value()), m)
    {
      hide Without;
      var x := if m in mutexes then mutexes[m] else Mutex(None, []);
      mutexes := mutexes[m := x.(waitq := Without(x.waitq, current))];
      var th := Get(current);
      if th.interrupt && x.owner != Some(current) {
        threads := threads[current := th.(interrupt := false, cont := InProgram)];
        PutTwice(old(threads), current, th.(interrupt := false), th.(interrupt := false, cont := InProgram));
        return Err(EINTR);
      }
      GoTo(InProgram);
      r := Ok(0);
    }

    /** The end of _st_poll: a request that is still queued is taken out. */
    method PollEnd() returns (r: Result)
      requires Inv(Value()) && ContOf(Value(), current).InPoll?
      modifies this`threads, ioQ
      ensures (Value(), Some(r)) == Scheduler.PollEnd(old(Value()))
    {
      hide Inv, CountReady, IO.Release, CanRelease;
      var cont := Get(current).cont;
      if cont.onIoq {
        LeaveIoQ();
      }
      var th := Get(current);
      if th.interrupt {
        threads := threads[current := th.(interrupt := false, cont := InProgram)];
        PutTwice(old(threads), current, th.(interrupt := false), th.(interrupt := false, cont := InProgram));
        return Err(EINTR);
      }
      GoTo(InProgram);
      r := Ok(if cont.onIoq then 0 else CountReady(cont.revents));
    }

    /** _ST_DEL_IOQ and the counters. */
    method LeaveIoQ()
      requires Inv(Value()) && ContOf(Value(), current).InPoll? && ContOf(Value(), current).onIoq
      modifies ioQ
      ensures CanRelease(old(Value()), current)
      ensures Value() == old(Value()).(io := IO.Release(ioQ.fds, old(ioQ.Value()), current))
    {
      hide Inv, IO.Release, IO.Exact, IO.Injective, IO.Legal, IO.CanDrop, IO.Keys;
      ghost var s := Value();
      InvLinks(s);
      IoExact(s);
      ReleaseQueue(s, current);
      ioQ.Leave(IO.Find(ioQ.queue, current));
    }

    // ----- The idle thread -----

    /** The limit that select is given, in seconds and microseconds. */
    method Limit() returns (tvp: Option<(nat, nat)>)
      ensures tvp.Some? <==> SelectTimeout(Value()).Some?
      ensures tvp.Some? ==> tvp.value.0 * 1000000 + tvp.value.1 == SelectTimeout(Value()).value && tvp.value.1 < 1000000
    {
      if sleepQ.sleepers == [] {
        return None;
      }
      var least := sleepQ.sleepers[0].sleep;
      tvp := Some((least / 1000000, least % 1000000));
    }

    /** _st_vp_idle; select, given the limit, finds `selected`. */
    method VpIdle(selected: Selected) returns (tvp: Option<(nat, nat)>)
      requires Inv(Value()) && current == idle
      modifies this`threads, this`runQ, sleepQ, ioQ
      ensures Value() == Scheduler.VpIdle(old(Value()), selected)
      ensures tvp.Some? <==> SelectTimeout(old(Value())).Some?
      ensures tvp.Some? ==>
                tvp.value.0 * 1000000 + tvp.value.1 == SelectTimeout(old(Value())).value && tvp.value.1 < 1000000
    {
      ghost var s := Value();
      tvp := Limit();
      match selected {
        case Nothing =>
        case Bad => ioQ.FindBadFd();
        case Found(ready) => NotifyAll(ready);
      }
    }

    method NotifyAll(ready: set<IO.Key>)
      requires Inv(Value()) && current == idle
      modifies this`threads, this`runQ, sleepQ, ioQ
      ensures Value() == Scheduler.VpIdle(old(Value()), Found(ready))
    {
      ghost var s := Value();
      MarkedKeeps(s, ready);
      NotifiedPoll(s, ready);
      InvLinks(s);
      IoExact(s);
      hide Inv, Core, IO.Exact, IO.Injective, IO.CanScan, IO.Notify, IO.Ready, Mark, Scheduler.VpIdle, WakeAll;
      hide MarkedOk, IoWaitsBut, IO.OnePerThread, QueuesOk, CondsOk, LocksOk, IoOk, LinkOk, IoWaits;
      var notified := ioQ.Idle(ready);
      MarkAll(notified, ready);
      WakeThreads(notified);
    }

    method WakeThreads(notified: seq<IO.Request>)
      requires Core(Value(), Some(idle)) && IO.OnePerThread(notified)
      requires forall q :: q in notified ==> Get(q.thread).state == IoWait
      modifies this`threads, this`runQ, sleepQ
      ensures Value() == WakeAll(old(Value()), notified)
    {
      hide Core, Scheduler.Wake, IO.OnePerThread;
      ghost var s := Value();
      var todo := notified;
      while todo != []
        invariant Core(Value(), Some(idle)) && IO.OnePerThread(todo)
        invariant forall q :: q in todo ==> Get(q.thread).state == IoWait
        invariant WakeAll(Value(), todo) == WakeAll(s, notified)
        decreases todo
      {
        WakeAllStep(Value(), Some(idle), todo);
        Wake(todo[0].thread, Some(idle));
        todo := todo[1..];
      }
    }

    /** The notified requests are off the queue: their threads learn it, and what is ready for them. */
    method MarkAll(notified: seq<IO.Request>, ready: set<IO.Key>)
      requires forall q :: q in notified ==> Get(q.thread).cont.InPoll?
      modifies this`threads
      ensures threads == Mark(old(Value()), notified, ready)
    {
      hide Revents;
      ghost var s := Value();
      var i := 0;
      MarkNone(s, ready);
      assert notified[..0] == [];
      while i < |notified|
        invariant 0 <= i <= |notified| && threads == Mark(s, notified[..i], ready)
      {
        var t := notified[i].thread;
        assert notified[i] in notified;
        MarkStep(s, notified, i, ready);
        var cont := threads[t].cont;
        threads := threads[t := threads[t].(cont := cont.(onIoq := false, revents := Revents(ioQ.fds, ready, cont.pds)))];
        i := i + 1;
      }
      assert notified[..i] == notified;
    }

    /** _st_vp_check_clock */
    method CheckClock(now: nat)
      requires Core(Value(), Some(idle)) && IoWaits(Value()) && lastClock <= now
      modifies this`threads, this`runQ, this`lastClock, sleepQ
      ensures Value() == Scheduler.CheckClock(old(Value()), now)
    {
      hide Core, IoWaits, Expire, SQ.Valid, SQ.Shorten;
      ghost var s := Value();
      var elapsed: nat := now - lastClock;
      ClockSet(s, Some(idle), now);
      lastClock := now;
      ghost var goal := Expire(Value(), elapsed);
      while sleepQ.sleepers != [] && sleepQ.sleepers[0].sleep <= elapsed
        invariant Core(Value(), Some(idle)) && IoWaits(Value())
        invariant Expire(Value(), elapsed) == goal
        decreases |sleepQ.sleepers|
      {
        elapsed := ExpireOne(elapsed);
      }
      CoreSleep(Value(), Some(idle));
      ExpireEnds(Value(), elapsed);
      if sleepQ.sleepers != [] {
        sleepQ.ShortenFirst(elapsed);
      }
    }

    /** A round of that loop, with the time that is left then. */
    method ExpireOne(elapsed: nat) returns (left: nat)
      requires Core(Value(), Some(idle)) && IoWaits(Value())
      requires sleepQ.sleepers != [] && sleepQ.sleepers[0].sleep <= elapsed
      modifies this`threads, this`runQ, sleepQ
      ensures Core(Value(), Some(idle)) && IoWaits(Value())
      ensures Expire(Value(), left) == Expire(old(Value()), elapsed)
      ensures |sleepQ.sleepers| < |old(sleepQ.sleepers)|
    {
      hide Core, IoWaits, Woken, Expire, SQ.Valid, SQ.Expire, SQ.DelExpired, Scheduler.ExpireFirst;
      ghost var s := Value();
      CoreSleep(s, Some(idle));
      ExpireFirstKeeps(s, Some(idle));
      ExpireStep(s, elapsed);
      left := elapsed - sleepQ.sleepers[0].sleep;
      ExpireFirst();
    }

    /** The first sleeper has expired. */
    method ExpireFirst()
      requires Core(Value(), Some(idle)) && sleepQ.sleepers != []
      modifies this`threads, this`runQ, sleepQ
      ensures SQ.Valid(old(sleepQ.Value())) && Value() == Scheduler.ExpireFirst(old(Value()))
    {
      hide Core, SQ.Valid;
      ghost var s := Value();
      CoreSleep(s, Some(idle));
      FirstExpires(s, Some(idle));
      var t := sleepQ.sleepers[0].thread;
      assert Get(t).onSleepq && t != idle;
      sleepQ.DelSleepQ(0, true);
      // A thread that waits on a condition variable has timed out.
      var th := Get(t);
      threads := threads[t := th.(onSleepq := false, timedout := th.timedout || th.state == CondWait)];
      MakeRunnable(t);
    }

    /** A round of _st_idle_thread_start. */
    method IdleRound(selected: Selected, now: nat)
      requires Inv(Value()) && current == idle && lastClock <= now
      modifies this, sleepQ, ioQ
      ensures Value() == Scheduler.IdleRound(old(Value()), selected, now)
    {
      hide Inv, Core, Schedule, Scheduler.VpIdle, Scheduler.CheckClock;
      ghost var s := Value();
      VpIdleKeeps(s, selected);
      IdleRoundKeeps(s, selected, now);
      NoFault(Scheduler.IdleRound(s, selected, now));
      var _ := VpIdle(selected);
      CheckClock(now);
      threads := threads[idle := Get(idle).(state := Runnable)];
      SwitchContext();
    }

    // ----- Steps -----

    /** A call of the current thread. */
    method Call(call: Call) returns (r: Option<Result>)
      requires Calling(Value()) && CallOk(Value(), call)
      modifies this, sleepQ, ioQ
      ensures (Value(), r) == Perform(old(Value()), call)
    {
      hide Calling, Core, Inv, IO.Legal, Scheduler.Usleep, Scheduler.CondTimedwait, Scheduler.CondSignal, Lock, Unlock, Trylock;
      hide Scheduler.Poll, Interrupt, Create, Exit, Join, Return;
      ghost var s := Value();
      CallReturns(s, call);
      match call {
        case CUsleep(usecs) => r := Usleep(usecs);
        case CCondWait(c, timeout) => r := CondTimedwait(User(c), timeout);
        case CCondSignal(c, broadcast) =>
          InvCoreOf(s);
          CondSignal(User(c), broadcast, Some(current));
          r := Some(Ok(0));
        case CLock(m) => r := MutexLock(m);
        case CUnlock(m) =>
          var result := MutexUnlock(m);
          r := Some(result);
        case CTrylock(m) =>
          var result := MutexTrylock(m);
          r := Some(result);
        case CPoll(pds, timeout) => r := Poll(pds, timeout);
        case CInterrupt(t) =>
          ThreadInterrupt(t);
          r := Some(Ok(0));
        case CCreate(t, joinable) =>
          ThreadCreate(t, joinable);
          r := Some(Ok(t));
        case CExit(retval) =>
          ThreadExit(retval);
          r := None;
        case CJoin(t) => r := ThreadJoin(t);
      }
    }

    /** What the current thread does when it is given the processor again. */
    method GoOn() returns (r: Option<Result>)
      requires Inv(Value()) && current != idle && !ContOf(Value(), current).InProgram?
      modifies this, sleepQ, ioQ
      ensures (Value(), r) == Scheduler.GoOn(old(Value()))
    {
      hide Inv, Scheduler.UsleepEnd, Scheduler.CondEnd, Scheduler.LockEnd, Scheduler.PollEnd, ExitEnd;
      r := None;
      match Get(current).cont {
        case Begin => GoTo(InProgram);
        case InUsleep =>
          var result := UsleepEnd();
          r := Some(result);
        case InCondWait(c) => r := CondEnd(c);
        case InLock(m) =>
          var result := LockEnd(m);
          r := Some(result);
        case InPoll(_, _, _) =>
          var result := PollEnd();
          r := Some(result);
        case InExit => ThreadExitEnd();
        case _ =>
      }
    }

    /** Any step of the state machine, on the fields: the next one can always be taken from where it ends. */
    method Step(e: Event) returns (r: Option<Result>)
      requires Inv(Value()) && Enabled(Value(), e)
      modifies this, sleepQ, ioQ
      ensures (Value(), r) == Next(old(Value()), e)
      ensures Inv(Value())
    {
      hide Inv, Perform, Scheduler.GoOn, Scheduler.IdleRound, CallOk;
      NextKeeps(Value(), e);
      match e {
        case Do(call) => r := Call(call);
        case Resume => r := GoOn();
        case Idle(selected, now) =>
          IdleRound(selected, now);
          r := None;
      }
    }
  }

  lemma SleeperKnown(s: State, r: Option<Tid>, t: Tid)
    requires Core(s, r)
    ensures SQ.Valid(s.sleep) && (Th(s, t).onSleepq ==> SQ.Has(s.sleep.sleepers, t))
  {
    assert LinkOk(s, r, t);
  }

  lemma Unlocked(s: State, m: nat)
    requires Calling(s) && Owner(s, m) == Some(s.current)
    ensures Unlock(s, m) == (HandOff(s, m, LockQ(s, m)), Some(Ok(0)))
  {
    hide HandOff, Core;
    CallingThread(s);
    HandOffKeeps(s, Some(s.current), s.current, m, LockQ(s, m));
    ReturnSame(HandOff(s, m, LockQ(s, m)), Ok(0));
  }

  lemma CallingQueues(s: State)
    requires Calling(s)
    ensures SQ.Valid(s.sleep) && IO.Exact(s.fds, s.io) && -1 <= s.io.maxFd
  {
  }

  /** The calls on a mutex that return leave the current thread as it is. */
  lemma LockReturnSame(s: State, m: nat)
    requires Calling(s)
    ensures Return(s, Err(EDEADLK)) == (s, Some(Err(EDEADLK))) && Return(s, Err(EBUSY)) == (s, Some(Err(EBUSY)))
    ensures Owner(s, m) == None ==>
              var s' := PutMutex(s, m, MutexOf(s, m).(owner := Some(s.current)));
              Return(s', Ok(0)) == (s', Some(Ok(0)))
  {
    ReturnSame(s, Err(EDEADLK));
    ReturnSame(s, Err(EBUSY));
    if Owner(s, m) == None {
      OwnKeeps(s, m);
    }
  }

  lemma DyingCore(s: State, retval: int)
    requires Calling(s) && Th(s, s.current).joinable
    ensures Core(Put(s, s.current, Th(s, s.current).(retval := retval, state := Zombie, cont := InExit))
                 .(zombieq := s.zombieq + [s.current]), None)
  {
    hide Inv, Core;
    var s1 := Put(s, s.current, Th(s, s.current).(retval := retval, state := Zombie, cont := InExit))
              .(zombieq := s.zombieq + [s.current]);
    CallingThread(s);
    LeaveLinks(s, s1);
    LeaveKeeps(s, s1);
  }

  lemma JoinedIs(s: State, t: Tid)
    requires Calling(s) && Th(s, t).state == Zombie
    ensures Joined(s, t) == (Scheduler.MakeRunnable(s.(zombieq := Without(s.zombieq, t)), t), Some(Ok(Th(s, t).retval)))
  {
    hide Inv, Without, Joined;
    JoinedKeeps(s, t);
  }

  lemma PutTwice(threads: map<Tid, Thread>, t: Tid, a: Thread, b: Thread)
    ensures threads[t := a][t := b] == threads[t := b]
  {
  }

  /** The first sleeper: what the clock check asserts of it, and its part of the loop. */
  lemma FirstExpires(s: State, r: Option<Tid>)
    requires Core(s, r) && s.sleep.sleepers != []
    ensures var t := s.sleep.sleepers[0].thread;
            Th(s, t).onSleepq && t != s.idle && SQ.Index(s.sleep.sleepers, t) == 0
  {
    var t := s.sleep.sleepers[0].thread;
    FirstSleeper(s);
    assert LinkOk(s, r, t);
    SleeperWaits(s, r, t);
  }

  /** The loop ends on an empty queue, and before the first sleeper that has not expired. */
  lemma ExpireEnds(s: State, elapsed: nat)
    requires SQ.Valid(s.sleep) && (s.sleep.sleepers != [] ==> elapsed < s.sleep.sleepers[0].sleep)
    ensures Expire(s, elapsed)
         == if s.sleep.sleepers == [] then s else s.(sleep := SQ.Shorten(s.sleep, elapsed))
  {
    hide SQ.Valid;
  }

  lemma MarkNone(s: State, ready: set<IO.Key>)
    ensures Mark(s, [], ready) == s.threads
  {
    hide Revents;
    NoneQueued();
  }

  lemma MarkStep(s: State, notified: seq<IO.Request>, i: nat, ready: set<IO.Key>)
    requires i < |notified| && ContOf(s, notified[i].thread).InPoll?
    ensures var t, m := notified[i].thread, Mark(s, notified[..i], ready);
            && t in m && m[t].cont.InPoll? && m[t].cont.pds == ContOf(s, t).pds
            && Mark(s, notified[..i + 1], ready)
               == m[t := m[t].(cont := m[t].cont.(onIoq := false, revents := Revents(s.fds, ready, m[t].cont.pds)))]
  {
    hide Revents, IO.Queued;
    assert notified[..i + 1] == notified[..i] + [notified[i]];
    FindAppend(notified[..i], notified[i]);
  }

  lemma NotifiedPoll(s: State, ready: set<IO.Key>)
    requires Inv(s) && s.current == s.idle
    ensures forall q :: q in IO.Ready(s.fds, ready, s.io.queue) ==> ContOf(s, q.thread).InPoll?
  {
    hide *;
    InvLinks(s);
    IoExact(s);
    ExactParts(s.fds, s.io);
    ReadyQueued(s.fds, ready, s.io.queue);
    forall q | q in IO.Ready(s.fds, ready, s.io.queue) ensures ContOf(s, q.thread).InPoll? {
      QueuedMember(s.io.queue, q);
      PollersWait(s, q.thread);
      InvCore(s);
      IoWaitsInPoll(s, q.thread);
    }
  }

  lemma IoWaitsInPoll(s: State, t: Tid)
    requires Core(s, Some(s.current)) && Th(s, t).state == IoWait
    ensures ContOf(s, t).InPoll?
  {
    assert LinkOk(s, Some(s.current), t);
  }

  lemma InvCoreOf(s: State)
    requires Calling(s)
    ensures Core(s, Some(s.current))
  {
  }

  /** The calls that always return leave the current thread in the program. */
  lemma CallReturns(s: State, call: Call)
    requires Calling(s) && CallOk(s, call)
    ensures call.CCondSignal? ==>
              var s' := Scheduler.CondSignal(s, User(call.cond), call.broadcast); Return(s', Ok(0)) == (s', Some(Ok(0)))
    ensures call.CInterrupt? ==> var s' := Interrupt(s, call.thread); Return(s', Ok(0)) == (s', Some(Ok(0)))
    ensures call.CCreate? ==>
              var s' := Create(s, call.thread, call.joinable); Return(s', Ok(call.thread)) == (s', Some(Ok(call.thread)))
  {
    hide Inv, Scheduler.CondSignal, Interrupt, Create, IO.Legal;
    if call.CCondSignal? {
      SignalCallKeeps(s, User(call.cond), call.broadcast);
      ReturnSame(Scheduler.CondSignal(s, User(call.cond), call.broadcast), Ok(0));
    } else if call.CInterrupt? {
      InterruptCallKeeps(s, call.thread);
      ReturnSame(Interrupt(s, call.thread), Ok(0));
    } else if call.CCreate? {
      CreateKeeps(s, call.thread, call.joinable);
      ReturnSame(Create(s, call.thread, call.joinable), Ok(call.thread));
    }
  }
}
