/**
 The virtual processor of sched.c and sync.cpp as a state machine. A step is what happens between two
 points at which the current thread can be seen from outside: a call into the library up to its return or
 its context switch, the part of such a call after the switch, or a round of the idle thread. A thread that
 has been switched away keeps in `cont` where it will go on.
 */
module Scheduler {
  import opened Wrappers
  import opened Queues
  import SQ = SleepQueue
  import IO = IoQueue

  type Tid = nat

  datatype Status = Running | Runnable | IoWait | LockWait | CondWait | Sleeping | Zombie

  /** Condition variables of the program, and the `term` of a thread. */
  datatype Cond = User(id: nat) | Term(thread: Tid)

  /** Where a thread is: in the program, before its start function, in a call, freed, or not yet created. */
  datatype Cont =
    | InProgram | Begin | InUsleep | InCondWait(cond: Cond) | InLock(mutex: nat)
    | InPoll(pds: seq<IO.PollFd>, onIoq: bool, revents: seq<set<IO.Event>>) | InExit | IdleLoop | Gone | Absent

  /** st_thread_t; `joinable` says that term is not null. */
  datatype Thread = Thread(state: Status, cont: Cont, onSleepq: bool, interrupt: bool, timedout: bool,
                           joinable: bool, retval: int)

  /** st_mutex_t */
  datatype Mutex = Mutex(owner: Option<Tid>, waitq: seq<Tid>)

  /** The virtual processor, its threads and what they wait for; `fault` after a failed ST_ASSERT. */
  datatype State = State(
    threads: map<Tid, Thread>, current: Tid, idle: Tid, runq: seq<Tid>, zombieq: seq<Tid>,
    sleep: SQ.Queue, lastClock: nat, fds: seq<int>, io: IO.Io, conds: map<Cond, seq<Tid>>, mutexes: map<nat, Mutex>,
    fault: bool)

  datatype Errno = EINTR | ETIME | EINVAL | EDEADLK | EPERM | EBUSY

  datatype Result = Ok(value: int) | Err(errno: Errno)

  // ----- Parts of the state -----

  const ABSENT := Thread(Running, Absent, false, false, false, false, 0)

  function Th(s: State, t: Tid): Thread {
    if t in s.threads then s.threads[t] else ABSENT
  }

  function ContOf(s: State, t: Tid): Cont {
    Th(s, t).cont
  }

  /** There is no such thread, or no longer. */
  predicate Dead(k: Cont) {
    k.Gone? || k.Absent?
  }

  function CondQ(s: State, c: Cond): seq<Tid> {
    if c in s.conds then s.conds[c] else []
  }

  function MutexOf(s: State, m: nat): Mutex {
    if m in s.mutexes then s.mutexes[m] else Mutex(None, [])
  }

  function Owner(s: State, m: nat): Option<Tid> {
    MutexOf(s, m).owner
  }

  function LockQ(s: State, m: nat): seq<Tid> {
    MutexOf(s, m).waitq
  }

  function Put(s: State, t: Tid, th: Thread): State {
    s.(threads := s.threads[t := th])
  }

  /** ST_ASSERT */
  function Assert(s: State, ok: bool): State {
    s.(fault := s.fault || !ok)
  }

  // ----- Queues -----

  /** _ST_ADD_RUNQ for a thread that becomes runnable. */
  function MakeRunnable(s: State, t: Tid): State {
    Put(s, t, Th(s, t).(state := Runnable)).(runq := s.runq + [t])
  }

  /** _ST_ADD_SLEEPQ */
  function AddSleepQ(s: State, t: Tid, timeout: nat): State {
    if !SQ.Valid(s.sleep) then Assert(s, false)
    else Put(s, t, Th(s, t).(onSleepq := true)).(sleep := SQ.Add(s.sleep, t, timeout))
  }

  /** A wait that may be limited in time. */
  function Timed(s: State, t: Tid, timeout: Option<nat>): State {
    if timeout.Some? then AddSleepQ(s, t, timeout.value) else s
  }

  /** _ST_DEL_SLEEPQ(t, 0), with its assertion. */
  function DelSleepQ(s: State, t: Tid): State {
    if !SQ.Valid(s.sleep) || !Th(s, t).onSleepq || !SQ.Has(s.sleep.sleepers, t) then Assert(s, false)
    else Put(s, t, Th(s, t).(onSleepq := false)).(sleep := SQ.Del(s.sleep, t))
  }

  /** What signal, interrupt and I/O do to a waiting thread. */
  function Wake(s: State, t: Tid): State {
    MakeRunnable(if Th(s, t).onSleepq then DelSleepQ(s, t) else s, t)
  }

  /** _st_vp_schedule */
  function Schedule(s: State): State {
    var t := if s.runq != [] then s.runq[0] else s.idle;
    var s1 := Assert(s.(runq := if s.runq != [] then s.runq[1..] else []), Th(s, t).state == Runnable);
    Put(s1, t, Th(s, t).(state := Running)).(current := t)
  }

  /** The current thread waits at a place and switches away. */
  function Block(s: State, state: Status, cont: Cont): State {
    Put(s, s.current, Th(s, s.current).(state := state, cont := cont))
  }

  // ----- sync.cpp -----

  /** The flag that is taken at the start of a call that may block. */
  function TakeInterrupt(s: State): State {
    Put(s, s.current, Th(s, s.current).(interrupt := false))
  }

  predicate Interrupted(s: State) {
    Th(s, s.current).interrupt
  }

  function Return(s: State, r: Result): (State, Option<Result>) {
    (Put(s, s.current, Th(s, s.current).(cont := InProgram)), Some(r))
  }

  /** st_usleep up to its switch. */
  function Usleep(s: State, usecs: nat): (State, Option<Result>) {
    if Interrupted(s) then Return(TakeInterrupt(s), Err(EINTR))
    else (Schedule(Timed(Block(s, Sleeping, InUsleep), s.current, Some(usecs))), None)
  }

  /** The end of st_usleep. */
  function UsleepEnd(s: State): (State, Option<Result>) {
    if Interrupted(s) then Return(TakeInterrupt(s), Err(EINTR)) else Return(s, Ok(0))
  }

  /** st_cond_timedwait up to its switch, once no interrupt is pending. */
  function CondBlock(s: State, c: Cond, timeout: Option<nat>): State {
    var s1 := Block(s, CondWait, InCondWait(c)).(conds := s.conds[c := CondQ(s, c) + [s.current]]);
    Schedule(Timed(s1, s.current, timeout))
  }

  function CondTimedwait(s: State, c: Cond, timeout: Option<nat>): (State, Option<Result>) {
    if Interrupted(s) then Return(TakeInterrupt(s), Err(EINTR)) else (CondBlock(s, c, timeout), None)
  }

  /** What st_cond_timedwait returns: an interrupt hides a timeout. */
  function CondResult(th: Thread): Result {
    if th.interrupt then Err(EINTR) else if th.timedout then Err(ETIME) else Ok(0)
  }

  /** The state when st_cond_timedwait returns. */
  function CondLeave(s: State, c: Cond): State {
    Put(s, s.current, Th(s, s.current).(timedout := false, interrupt := false, cont := InProgram))
      .(conds := s.conds[c := Without(CondQ(s, c), s.current)])
  }

  /** The loop of _st_cond_signal over what is left of the wait queue. */
  function Signal(s: State, q: seq<Tid>, broadcast: bool): State
    decreases q
  {
    if q == [] then s
    else if Th(s, q[0]).state == CondWait then
      if broadcast then Signal(Wake(s, q[0]), q[1..], true) else Wake(s, q[0])
    else Signal(s, q[1..], broadcast)
  }

  function CondSignal(s: State, c: Cond, broadcast: bool): State {
    Signal(s, CondQ(s, c), broadcast)
  }

  function PutMutex(s: State, m: nat, x: Mutex): State {
    s.(mutexes := s.mutexes[m := x])
  }

  /** st_mutex_lock up to its return or its switch. */
  function Lock(s: State, m: nat): (State, Option<Result>) {
    var x := MutexOf(s, m);
    if Interrupted(s) then Return(TakeInterrupt(s), Err(EINTR))
    else if x.owner == None then Return(PutMutex(s, m, x.(owner := Some(s.current))), Ok(0))
    else if x.owner == Some(s.current) then Return(s, Err(EDEADLK))
    else (Schedule(PutMutex(Block(s, LockWait, InLock(m)), m, x.(waitq := x.waitq + [s.current]))), None)
  }

  /** The end of st_mutex_lock: a thread that was given the mutex has it, even if it was interrupted. */
  function LockEnd(s: State, m: nat): (State, Option<Result>) {
    var x := MutexOf(s, m);
    var s1 := PutMutex(s, m, x.(waitq := Without(x.waitq, s.current)));
    if Interrupted(s) && x.owner != Some(s.current) then Return(TakeInterrupt(s1), Err(EINTR))
    else Return(s1, Ok(0))
  }

  /** The loop of st_mutex_unlock over what is left of the wait queue. */
  function HandOff(s: State, m: nat, q: seq<Tid>): State
    decreases q
  {
    if q == [] then PutMutex(s, m, MutexOf(s, m).(owner := None))
    else if Th(s, q[0]).state == LockWait then
      MakeRunnable(PutMutex(s, m, MutexOf(s, m).(owner := Some(q[0]))), q[0])
    else HandOff(s, m, q[1..])
  }

  function Unlock(s: State, m: nat): (State, Option<Result>) {
    if Owner(s, m) != Some(s.current) then Return(s, Err(EPERM))
    else Return(HandOff(s, m, LockQ(s, m)), Ok(0))
  }

  function Trylock(s: State, m: nat): (State, Option<Result>) {
    var x := MutexOf(s, m);
    if x.owner != None then Return(s, Err(EBUSY))
    else Return(PutMutex(s, m, x.(owner := Some(s.current))), Ok(0))
  }

  // ----- sched.c -----

  /** _st_poll up to its switch. */
  function Poll(s: State, pds: seq<IO.PollFd>, timeout: Option<nat>): (State, Option<Result>)
    requires IO.Legal(s.fds, pds)
  {
    if Interrupted(s) then Return(TakeInterrupt(s), Err(EINTR))
    else
      var s1 := Block(s, IoWait, InPoll(pds, true, []))
                .(io := IO.Register(s.fds, s.io, IO.Request(s.current, pds)));
      (Schedule(Timed(s1, s.current, timeout)), None)
  }

  function CountReady(revents: seq<set<IO.Event>>): nat {
    if revents == [] then 0 else (if revents[0] != {} then 1 else 0) + CountReady(revents[1..])
  }

  /** Whether a request can be taken out; it is not when a counter would go below zero. */
  predicate CanRelease(s: State, t: Tid) {
    IO.Queued(s.io.queue, t)
    && var q := s.io.queue[IO.Find(s.io.queue, t)];
       IO.Legal(s.fds, q.pds) && IO.CanDrop(s.fds, s.io.interest, IO.Keys(q.pds))
  }

  /** The end of _st_poll: a request that timed out or was interrupted is still queued. */
  function PollEnd(s: State): (State, Option<Result>)
    requires ContOf(s, s.current).InPoll?
  {
    var c := ContOf(s, s.current);
    var s1 := if !c.onIoq then s
              else if CanRelease(s, s.current) then s.(io := IO.Release(s.fds, s.io, s.current))
              else Assert(s, false);
    if Interrupted(s) then Return(TakeInterrupt(s1), Err(EINTR))
    else Return(s1, Ok(if c.onIoq then 0 else CountReady(c.revents)))
  }

  /** st_thread_interrupt for a thread that was not freed. */
  function Interrupt(s: State, t: Tid): State {
    var th := Th(s, t);
    if th.state == Zombie then s
    else
      var s1 := Put(s, t, th.(interrupt := true));
      if th.state == Running || th.state == Runnable then s1 else Wake(s1, t)
  }

  /** st_thread_create, with a stack for t. */
  function Create(s: State, t: Tid, joinable: bool): State {
    Put(s, t, Thread(Runnable, Begin, false, false, false, joinable, 0)).(runq := s.runq + [t])
  }

  /** st_thread_exit up to its first switch. */
  function Exit(s: State, retval: int): State {
    var me := s.current;
    var th := Th(s, me).(retval := retval);
    if th.joinable then
      var s1 := Put(s, me, th.(state := Zombie, cont := InExit)).(zombieq := s.zombieq + [me]);
      Schedule(CondSignal(s1, Term(me), false))
    else Schedule(Put(s, me, th.(cont := Gone)))
  }

  /** st_thread_exit once the thread has been joined: st_cond_destroy frees an empty wait queue only. */
  function ExitEnd(s: State): State {
    Schedule(Put(s, s.current, Th(s, s.current).(joinable := false, cont := Gone)))
  }

  /** st_thread_join on a thread in its exit. */
  function Joined(s: State, t: Tid): (State, Option<Result>) {
    var th := Th(s, t);
    Return(MakeRunnable(s.(zombieq := Without(s.zombieq, t)), t), Ok(th.retval))
  }

  /** st_thread_join up to its return or its switch. */
  function Join(s: State, t: Tid): (State, Option<Result>) {
    if !Th(s, t).joinable then Return(s, Err(EINVAL))
    else if s.current == t then Return(s, Err(EDEADLK))
    else if CondQ(s, Term(t)) != [] then Return(s, Err(EINVAL))
    else if Th(s, t).state == Zombie then Joined(s, t)
    else CondTimedwait(s, Term(t), None)
  }

  /** The end of st_cond_timedwait, and for a join its loop. */
  function CondEnd(s: State, c: Cond): (State, Option<Result>) {
    var r := CondResult(Th(s, s.current));
    var s1 := CondLeave(s, c);
    if c.User? then Return(s1, r)
    else if r.Err? then Return(s1, r)
    else if Th(s1, c.thread).state == Zombie then Joined(s1, c.thread)
    else CondTimedwait(s1, c, None)
  }

  /** How long _st_vp_idle lets select wait, in microseconds; without a sleeper there is no limit. */
  function SelectTimeout(s: State): Option<nat> {
    if s.sleep.sleepers == [] then None else Some(s.sleep.sleepers[0].sleep)
  }

  /** What select gives _st_vp_idle: sockets that are ready, nothing, or a closed descriptor. */
  datatype Selected = Found(ready: set<IO.Key>) | Nothing | Bad

  /** The requests that are notified are off the queue, and know what is ready for them. */
  function Mark(s: State, notified: seq<IO.Request>, ready: set<IO.Key>): map<Tid, Thread> {
    map t | t in s.threads ::
      if IO.Queued(notified, t) && s.threads[t].cont.InPoll? then
        s.threads[t].(cont := s.threads[t].cont.(onIoq := false,
                                                 revents := Revents(s.fds, ready, s.threads[t].cont.pds)))
      else s.threads[t]
  }

  function Revents(fds: seq<int>, ready: set<IO.Key>, pds: seq<IO.PollFd>): seq<set<IO.Event>> {
    seq(|pds|, i requires 0 <= i < |pds| => IO.Revents(fds, ready, pds[i]))
  }

  function WakeAll(s: State, notified: seq<IO.Request>): State
    decreases notified
  {
    if notified == [] then s else WakeAll(Wake(s, notified[0].thread), notified[1..])
  }

  /** _st_vp_idle */
  function VpIdle(s: State, r: Selected): State {
    match r
    case Nothing => s
    case Bad => s.(io := s.io.(maxFd := IO.HighestOfInterest(s.io.queue)))
    case Found(ready) =>
      if !IO.CanScan(s.fds, ready, s.io.queue, IO.Start(s.io)) then Assert(s, false)
      else
        var (io, notified) := IO.Notify(s.fds, s.io, ready);
        WakeAll(s.(io := io, threads := Mark(s, notified, ready)), notified)
  }

  /** The first sleeper has expired: _ST_DEL_SLEEPQ(t, 1), the flag for a condition wait, and the run queue. */
  function ExpireFirst(s: State): State
    requires SQ.Valid(s.sleep) && s.sleep.sleepers != []
  {
    var t := s.sleep.sleepers[0].thread;
    var th := Th(s, t);
    var s1 := Assert(s, th.onSleepq && t != s.idle).(sleep := SQ.DelExpired(s.sleep));
    MakeRunnable(Put(s1, t, th.(onSleepq := false, timedout := th.timedout || th.state == CondWait)), t)
  }

  /** The loop of _st_vp_check_clock. */
  function Expire(s: State, elapsed: nat): State
    decreases |s.sleep.sleepers|
  {
    if !SQ.Valid(s.sleep) then Assert(s, false)
    else if s.sleep.sleepers == [] then s
    else if elapsed < s.sleep.sleepers[0].sleep then s.(sleep := SQ.Shorten(s.sleep, elapsed))
    else Expire(ExpireFirst(s), elapsed - s.sleep.sleepers[0].sleep)
  }

  /** _st_vp_check_clock; a clock that went back would make the elapsed time wrap around. */
  function CheckClock(s: State, now: nat): State {
    if now < s.lastClock then Assert(s, false) else Expire(s.(lastClock := now), now - s.lastClock)
  }

  /** A round of _st_idle_thread_start. */
  function IdleRound(s: State, r: Selected, now: nat): State {
    var s1 := CheckClock(VpIdle(s, r), now);
    Schedule(Put(s1, s.idle, Th(s1, s.idle).(state := Runnable)))
  }

  // ----- Steps -----

  datatype Call =
    | CUsleep(usecs: nat) | CCondWait(cond: nat, timeout: Option<nat>) | CCondSignal(cond: nat, broadcast: bool)
    | CLock(mutex: nat) | CUnlock(mutex: nat) | CTrylock(mutex: nat)
    | CPoll(pds: seq<IO.PollFd>, timeout: Option<nat>)
    | CInterrupt(thread: Tid) | CCreate(thread: Tid, joinable: bool) | CExit(retval: int) | CJoin(thread: Tid)

  /** The current thread calls, it goes on after a switch, or the idle thread runs a round. */
  datatype Event = Do(call: Call) | Resume | Idle(selected: Selected, now: nat)

  predicate Fits(timeout: Option<nat>) {
    timeout.Some? ==> timeout.value < SQ.WORD
  }

  /**
   What the program must see to: time values fit their type, descriptors are in the table, a thread that is
   created is new, and one that was freed is not named. The clock does not go back.
   */
  predicate Enabled(s: State, e: Event) {
    match e
    case Do(call) => ContOf(s, s.current).InProgram? && CallOk(s, call)
    case Resume => !ContOf(s, s.current).InProgram? && s.current != s.idle
    case Idle(_, now) => s.current == s.idle && s.lastClock <= now
  }

  predicate CallOk(s: State, call: Call) {
    match call
    case CUsleep(usecs) => usecs < SQ.WORD
    case CCondWait(_, timeout) => Fits(timeout)
    case CPoll(pds, timeout) => IO.Legal(s.fds, pds) && Fits(timeout)
    case CInterrupt(t) => !Dead(ContOf(s, t)) && t != s.idle
    case CCreate(t, _) => t !in s.threads
    case CJoin(t) => !Dead(ContOf(s, t)) && t != s.idle
    case _ => true
  }

  function Perform(s: State, call: Call): (State, Option<Result>)
    requires CallOk(s, call)
  {
    match call
    case CUsleep(usecs) => Usleep(s, usecs)
    case CCondWait(c, timeout) => CondTimedwait(s, User(c), timeout)
    case CCondSignal(c, broadcast) => Return(CondSignal(s, User(c), broadcast), Ok(0))
    case CLock(m) => Lock(s, m)
    case CUnlock(m) => Unlock(s, m)
    case CTrylock(m) => Trylock(s, m)
    case CPoll(pds, timeout) => Poll(s, pds, timeout)
    case CInterrupt(t) => Return(Interrupt(s, t), Ok(0))
    case CCreate(t, joinable) => Return(Create(s, t, joinable), Ok(t))
    case CExit(retval) => (Exit(s, retval), None)
    case CJoin(t) => Join(s, t)
  }

  function GoOn(s: State): (State, Option<Result>) {
    match ContOf(s, s.current)
    case Begin => (Put(s, s.current, Th(s, s.current).(cont := InProgram)), None)
    case InUsleep => UsleepEnd(s)
    case InCondWait(c) => CondEnd(s, c)
    case InLock(m) => LockEnd(s, m)
    case InPoll(_, _, _) => PollEnd(s)
    case InExit => (ExitEnd(s), None)
    case _ => (s, None)
  }

  /** The next state, and what the current thread's call returns if it returns. */
  function Next(s: State, e: Event): (State, Option<Result>)
    requires Enabled(s, e)
  {
    match e
    case Do(call) => Perform(s, call)
    case Resume => GoOn(s)
    case Idle(selected, now) => (IdleRound(s, selected, now), None)
  }

  /** st_init: the idle thread, and the primordial thread running. */
  function Init(idle: Tid, primordial: Tid, now: nat, fds: seq<int>): State
    requires idle != primordial
  {
    State(map[idle := Thread(Runnable, IdleLoop, false, false, false, false, 0),
              primordial := Thread(Running, InProgram, false, false, false, false, 0)],
          primordial, idle, [], [], SQ.Queue([], 0), now, fds, IO.Io([], IO.Interest(map[], {}), -1), map[], map[], false)
  }
}
