/**
 The sleep queue of sched.c. Each sleeper holds the time between its deadline and the one before it; the
 first one counts from the last reading of the clock. The queue refines a list of absolute deadlines.
 */
module SleepQueue {
  import opened Queues

  type Tid = nat

  datatype Sleeper = Sleeper(thread: Tid, sleep: nat)

  /** The queue and _ST_SLEEPQMAX. */
  datatype Queue = Queue(sleepers: seq<Sleeper>, max: nat)

  /** The values of st_utime_t. */
  const WORD := 0x1_0000_0000

  function Total(sleepers: seq<Sleeper>): nat {
    if sleepers == [] then 0 else sleepers[0].sleep + Total(sleepers[1..])
  }

  /** The longest remaining time is kept, and every time fits an unsigned word. */
  predicate Valid(q: Queue) {
    q.max == Total(q.sleepers) < WORD
  }

  /** Where a thread is in the queue, or the length of the queue. */
  function Index(sleepers: seq<Sleeper>, t: Tid): (i: nat)
    ensures i <= |sleepers| && (i < |sleepers| ==> sleepers[i].thread == t)
    ensures forall j :: 0 <= j < i ==> sleepers[j].thread != t
  {
    if sleepers == [] || sleepers[0].thread == t then 0 else 1 + Index(sleepers[1..], t)
  }

  predicate Has(sleepers: seq<Sleeper>, t: Tid) {
    Index(sleepers, t) < |sleepers|
  }

  /** The sleeper after the one at i waits longer by d. */
  function Lengthen(sleepers: seq<Sleeper>, i: nat, d: nat): (r: seq<Sleeper>)
    requires i < |sleepers|
    ensures |r| == |sleepers|
  {
    sleepers[i := sleepers[i].(sleep := sleepers[i].sleep + d)]
  }

  // ----- What the code does -----

  /** The place that the scan finds for a timeout, and the time it has left there. */
  function Place(sleepers: seq<Sleeper>, sleep: nat): (r: (nat, nat))
    ensures r.0 <= |sleepers| && r.1 <= sleep
    ensures sleep == Total(sleepers[..r.0]) + r.1
    ensures r.0 < |sleepers| ==> r.1 < sleepers[r.0].sleep
  {
    if sleepers == [] || sleep < sleepers[0].sleep then
      assert sleepers[..0] == [];
      (0, sleep)
    else
      var (i, rest) := Place(sleepers[1..], sleep - sleepers[0].sleep);
      assert sleepers[..i + 1][1..] == sleepers[1..][..i];
      (i + 1, rest)
  }

  lemma {:induction false} PlaceInside(sleepers: seq<Sleeper>, sleep: nat)
    ensures sleep < Total(sleepers) <==> Place(sleepers, sleep).0 < |sleepers|
  {
    if sleepers != [] && sleepers[0].sleep <= sleep {
      PlaceInside(sleepers[1..], sleep - sleepers[0].sleep);
    }
  }

  /** _st_add_sleep_q */
  function Add(q: Queue, t: Tid, timeout: nat): (r: Queue)
    requires Valid(q)
  {
    if timeout >= q.max then Queue(q.sleepers + [Sleeper(t, timeout - q.max)], timeout)
    else
      var (i, sleep) := Place(q.sleepers, timeout);
      PlaceInside(q.sleepers, timeout);
      var next := q.sleepers[i].(sleep := q.sleepers[i].sleep - sleep);
      Queue(q.sleepers[..i] + [Sleeper(t, sleep)] + [next] + q.sleepers[i + 1..], q.max)
  }

  /** _st_del_sleep_q for a thread that has not expired. */
  function Del(q: Queue, t: Tid): (r: Queue)
    requires Valid(q) && Has(q.sleepers, t)
  {
    var i := Index(q.sleepers, t);
    var max := if i + 1 < |q.sleepers| then q.max
               else if i > 0 then assert q.sleepers[i].sleep <= q.max by { Part(q.sleepers, i); }
                                  q.max - q.sleepers[i].sleep
               else 0;
    if i + 1 < |q.sleepers| then
      var longer := Lengthen(q.sleepers, i + 1, q.sleepers[i].sleep);
      Queue(longer[..i] + longer[i + 1..], max)
    else Queue(q.sleepers[..i], max)
  }

  /** _st_del_sleep_q for the first sleeper once it has expired. */
  function DelExpired(q: Queue): (r: Queue)
    requires Valid(q) && q.sleepers != []
    ensures Valid(r)
  {
    Queue(q.sleepers[1..], if |q.sleepers| > 1 then q.max - q.sleepers[0].sleep else 0)
  }

  /** The end of the loop of _st_vp_check_clock, before the first sleeper that has not expired. */
  function Shorten(q: Queue, elapsed: nat): (r: Queue)
    requires Valid(q) && q.sleepers != [] && elapsed < q.sleepers[0].sleep
    ensures Valid(r)
  {
    Queue([q.sleepers[0].(sleep := q.sleepers[0].sleep - elapsed)] + q.sleepers[1..], q.max - elapsed)
  }

  /** The loop of _st_vp_check_clock: the threads it wakes, in order, and the queue it leaves. */
  function Expire(q: Queue, elapsed: nat): (r: (seq<Tid>, Queue))
    requires Valid(q)
    ensures Valid(r.1)
    decreases |q.sleepers|
  {
    if q.sleepers == [] then ([], q)
    else if elapsed < q.sleepers[0].sleep then ([], Shorten(q, elapsed))
    else
      var (woken, r) := Expire(DelExpired(q), elapsed - q.sleepers[0].sleep);
      ([q.sleepers[0].thread] + woken, r)
  }

  lemma {:induction false} Part(sleepers: seq<Sleeper>, i: nat)
    requires i < |sleepers|
    ensures sleepers[i].sleep <= Total(sleepers)
  {
    if i > 0 {
      Part(sleepers[1..], i - 1);
    }
  }

  // ----- What it means: a list of deadlines -----

  datatype Timer = Timer(thread: Tid, deadline: nat)

  /** The deadlines of the sleepers, counted from a base. */
  function Timers(sleepers: seq<Sleeper>, base: nat): (r: seq<Timer>)
    ensures |r| == |sleepers|
  {
    if sleepers == [] then []
    else
      var deadline := base + sleepers[0].sleep;
      [Timer(sleepers[0].thread, deadline)] + Timers(sleepers[1..], deadline)
  }

  predicate Sorted(timers: seq<Timer>) {
    forall i, j :: 0 <= i < j < |timers| ==> timers[i].deadline <= timers[j].deadline
  }

  /** A new timer goes behind all those that are due no later. */
  function Insert(timers: seq<Timer>, x: Timer): seq<Timer> {
    if timers == [] || x.deadline < timers[0].deadline then [x] + timers
    else [timers[0]] + Insert(timers[1..], x)
  }

  function Remove(timers: seq<Timer>, t: Tid): seq<Timer> {
    if timers == [] then [] else if timers[0].thread == t then timers[1..] else [timers[0]] + Remove(timers[1..], t)
  }

  /** The timers due at a time, and those that are not. */
  function Due(timers: seq<Timer>, now: nat): seq<Timer> {
    if timers == [] then []
    else if timers[0].deadline <= now then [timers[0]] + Due(timers[1..], now) else Due(timers[1..], now)
  }

  function NotDue(timers: seq<Timer>, now: nat): seq<Timer> {
    if timers == [] then []
    else if timers[0].deadline <= now then NotDue(timers[1..], now) else [timers[0]] + NotDue(timers[1..], now)
  }

  function Threads(timers: seq<Timer>): seq<Tid> {
    seq(|timers|, i requires 0 <= i < |timers| => timers[i].thread)
  }

  // ----- Totals and timers of parts -----

  lemma {:induction false} TotalConcat(a: seq<Sleeper>, b: seq<Sleeper>)
    ensures Total(a + b) == Total(a) + Total(b)
  {
    if a == [] {
      assert a + b == b;
    } else {
      assert (a + b)[1..] == a[1..] + b;
      TotalConcat(a[1..], b);
    }
  }

  lemma {:induction false} TimersConcat(a: seq<Sleeper>, b: seq<Sleeper>, base: nat)
    ensures Timers(a + b, base) == Timers(a, base) + Timers(b, base + Total(a))
  {
    hide *;
    if a == [] {
      NoTimers(b, base);
    } else {
      var rest := a[1..];
      assert a == [a[0]] + rest && a + b == [a[0]] + (rest + b);
      Split(a[0], rest, base);
      Split(a[0], rest + b, base);
      TimersConcat(rest, b, base + a[0].sleep);
      Assoc([Timer(a[0].thread, base + a[0].sleep)], Timers(rest, base + a[0].sleep), Timers(b, base + Total(a)));
    }
  }

  lemma NoTimers(b: seq<Sleeper>, base: nat)
    ensures Timers([] + b, base) == Timers([], base) + Timers(b, base + Total([]))
  {
    assert [] + b == b;
  }

  /** The last deadline is the base plus _ST_SLEEPQMAX, and no deadline is before the base or after that. */
  lemma {:induction false} TimersSorted(sleepers: seq<Sleeper>, base: nat)
    ensures Sorted(Timers(sleepers, base))
    ensures forall x :: x in Timers(sleepers, base) ==> base <= x.deadline <= base + Total(sleepers)
    ensures sleepers != [] ==> Timers(sleepers, base)[|sleepers| - 1].deadline == base + Total(sleepers)
  {
    if sleepers != [] {
      var deadline := base + sleepers[0].sleep;
      TimersSorted(sleepers[1..], deadline);
      var timers, rest := Timers(sleepers, base), Timers(sleepers[1..], deadline);
      assert timers == [Timer(sleepers[0].thread, deadline)] + rest;
      forall i, j | 0 <= i < j < |timers| ensures timers[i].deadline <= timers[j].deadline {
        assert rest[j - 1] in rest;
      }
    }
  }

  // ----- The operations refine those on deadlines -----

  lemma {:induction false} InsertAt(a: seq<Timer>, b: seq<Timer>, x: Timer)
    requires forall y :: y in a ==> y.deadline <= x.deadline
    requires b != [] ==> x.deadline < b[0].deadline
    ensures Insert(a + b, x) == a + ([x] + b)
  {
    if a == [] {
      assert a + b == b;
    } else {
      assert (a + b)[1..] == a[1..] + b;
      InsertAt(a[1..], b, x);
    }
  }

  lemma AppendParts(q: Queue, t: Tid, timeout: nat)
    requires Valid(q) && q.max <= timeout
    ensures Add(q, t, timeout) == Queue(q.sleepers + ([Sleeper(t, timeout - q.max)] + []), timeout)
    ensures Total([]) == 0 && q.max == Total(q.sleepers)
  {
    assert [Sleeper(t, timeout - q.max)] + [] == [Sleeper(t, timeout - q.max)];
  }

  /** The place of a new sleeper that is not the last. */
  lemma AddIs(q: Queue, t: Tid, timeout: nat)
    requires Valid(q) && timeout < q.max
    ensures var (i, sleep) := Place(q.sleepers, timeout);
            && i < |q.sleepers| && sleep < q.sleepers[i].sleep && Total(q.sleepers[..i]) + sleep == timeout
            && Add(q, t, timeout)
               == Queue(q.sleepers[..i] + [Sleeper(t, sleep)] + [q.sleepers[i].(sleep := q.sleepers[i].sleep - sleep)]
                        + q.sleepers[i + 1..], q.max)
    ensures q.max == Total(q.sleepers) < WORD
  {
    hide Place, Total;
    PlaceInside(q.sleepers, timeout);
  }

  lemma AddParts(q: Queue, t: Tid, timeout: nat)
    returns (a: seq<Sleeper>, x: Sleeper, b: seq<Sleeper>, mine: Sleeper, x': Sleeper)
    requires Valid(q) && timeout < q.max
    ensures q.sleepers == a + ([x] + b)
    ensures Add(q, t, timeout) == Queue(a + ([mine] + ([x'] + b)), q.max)
    ensures mine.thread == t && Total(a) + mine.sleep == timeout && mine.sleep < x.sleep
    ensures x' == x.(sleep := x.sleep - mine.sleep)
    ensures q.max == Total(q.sleepers) < WORD
  {
    hide *;
    AddIs(q, t, timeout);
    var (i, sleep) := Place(q.sleepers, timeout);
    a, x, b, mine := q.sleepers[..i], q.sleepers[i], q.sleepers[i + 1..], Sleeper(t, sleep);
    x' := x.(sleep := x.sleep - sleep);
    SplitAt(q.sleepers, i);
    Regroup(a, [mine], [x'], b);
  }

  lemma Regroup(a: seq<Sleeper>, b: seq<Sleeper>, c: seq<Sleeper>, d: seq<Sleeper>)
    ensures a + b + c + d == a + (b + (c + d))
  {
  }

  lemma IsValid(q: Queue)
    requires q.max == Total(q.sleepers) < WORD
    ensures Valid(q)
  {
  }

  /** Setting a timer inserts its deadline and leaves the others; the remaining times stay within a word. */
  lemma AddRefines(q: Queue, t: Tid, timeout: nat, clock: nat)
    requires Valid(q) && timeout < WORD
    ensures Valid(Add(q, t, timeout))
    ensures Timers(Add(q, t, timeout).sleepers, clock)
         == Insert(Timers(q.sleepers, clock), Timer(t, clock + timeout))
  {
    hide *;
    if timeout >= q.max {
      AppendParts(q, t, timeout);
      var mine := Sleeper(t, timeout - q.max);
      TotalConcat(q.sleepers, [mine] + []);
      TimersConcat(q.sleepers, [mine] + [], clock);
      Split(mine, [], clock + q.max);
      TimersBounds(q.sleepers, clock);
      InsertAt(Timers(q.sleepers, clock), [], Timer(t, clock + timeout));
      assert Timers(q.sleepers, clock) + [] == Timers(q.sleepers, clock);
      assert Timers([], clock + timeout) == [];
    } else {
      var a, x, b, mine, x' := AddParts(q, t, timeout);
      TotalConcat(a, [x] + b);
      TotalConcat(a, [mine] + ([x'] + b));
      TimersConcat(a, [x] + b, clock);
      TimersConcat(a, [mine] + ([x'] + b), clock);
      Split(mine, [x'] + b, clock + Total(a));
      Split(x', b, clock + timeout);
      Split(x, b, clock + Total(a));
      TimersBounds(a, clock);
      InsertAt(Timers(a, clock), Timers([x] + b, clock + Total(a)), Timer(t, clock + timeout));
    }
    IsValid(Add(q, t, timeout));
  }

  lemma TimersBounds(sleepers: seq<Sleeper>, base: nat)
    ensures forall x :: x in Timers(sleepers, base) ==> base <= x.deadline <= base + Total(sleepers)
  {
    TimersSorted(sleepers, base);
  }

  lemma Split(x: Sleeper, b: seq<Sleeper>, base: nat)
    ensures Timers([x] + b, base) == [Timer(x.thread, base + x.sleep)] + Timers(b, base + x.sleep)
    ensures Total([x] + b) == x.sleep + Total(b)
  {
    assert ([x] + b)[1..] == b;
  }

  lemma {:induction false} RemoveAt(a: seq<Timer>, x: Timer, b: seq<Timer>)
    requires forall y :: y in a ==> y.thread != x.thread
    ensures Remove(a + ([x] + b), x.thread) == a + b
  {
    if a == [] {
      assert a + ([x] + b) == [x] + b && a + b == b;
    } else {
      assert (a + ([x] + b))[1..] == a[1..] + ([x] + b);
      RemoveAt(a[1..], x, b);
      assert [a[0]] + (a[1..] + b) == a + b;
    }
  }

  lemma {:induction false} TimersThreads(sleepers: seq<Sleeper>, base: nat)
    ensures forall i :: 0 <= i < |sleepers| ==> Timers(sleepers, base)[i].thread == sleepers[i].thread
  {
    if sleepers != [] {
      TimersThreads(sleepers[1..], base + sleepers[0].sleep);
    }
  }

  lemma NoTotal()
    ensures Total([]) == 0
  {
  }

  lemma DelParts(q: Queue, t: Tid) returns (a: seq<Sleeper>, x: Sleeper, b: seq<Sleeper>)
    requires Valid(q) && Has(q.sleepers, t)
    ensures q.sleepers == a + ([x] + b) && x.thread == t && Total([]) == 0
    ensures forall i :: 0 <= i < |a| ==> a[i].thread != t
    ensures q.max == Total(q.sleepers) < WORD
    ensures b == [] ==> Del(q, t) == Queue(a, if a == [] then 0 else q.max - x.sleep)
    ensures b != [] ==> b == [b[0]] + b[1..]
                        && Del(q, t) == Queue(a + ([b[0].(sleep := b[0].sleep + x.sleep)] + b[1..]), q.max)
  {
    hide Index, Total, Lengthen;
    NoTotal();
    var i := Index(q.sleepers, t);
    a, x, b := q.sleepers[..i], q.sleepers[i], q.sleepers[i + 1..];
    SplitAt(q.sleepers, i);
    if b != [] {
      LengthenParts(q.sleepers, i, x.sleep);
    }
  }

  lemma SplitAt(sleepers: seq<Sleeper>, i: nat)
    requires i < |sleepers|
    ensures sleepers == sleepers[..i] + ([sleepers[i]] + sleepers[i + 1..])
  {
  }

  lemma LengthenParts(sleepers: seq<Sleeper>, i: nat, d: nat)
    requires i + 1 < |sleepers|
    ensures var longer, b := Lengthen(sleepers, i + 1, d), sleepers[i + 1..];
            && b == [b[0]] + b[1..]
            && longer[..i] + longer[i + 1..] == sleepers[..i] + ([b[0].(sleep := b[0].sleep + d)] + b[1..])
  {
    var longer, b := Lengthen(sleepers, i + 1, d), sleepers[i + 1..];
    assert longer[i + 1..] == [b[0].(sleep := b[0].sleep + d)] + b[1..];
  }

  /** Taking a thread out removes its deadline and leaves the others. */
  lemma DelRefines(q: Queue, t: Tid, clock: nat)
    requires Valid(q) && Has(q.sleepers, t)
    ensures Valid(Del(q, t))
    ensures Timers(Del(q, t).sleepers, clock) == Remove(Timers(q.sleepers, clock), t)
  {
    hide *;
    var a, x, b := DelParts(q, t);
    var base := clock + Total(a);
    TotalConcat(a, [x] + b);
    TimersConcat(a, [x] + b, clock);
    Split(x, b, base);
    TimersThreads(a, clock);
    RemoveAt(Timers(a, clock), Timer(t, base + x.sleep), Timers(b, base + x.sleep));
    if b == [] {
      assert Timers(a, clock) + [] == Timers(a, clock);
    } else {
      var y := b[0].(sleep := b[0].sleep + x.sleep);
      TotalConcat(a, [y] + b[1..]);
      TimersConcat(a, [y] + b[1..], clock);
      Split(y, b[1..], base);
      Split(b[0], b[1..], base + x.sleep);
    }
    IsValid(Del(q, t));
  }

  lemma {:induction false} NoneDue(timers: seq<Timer>, now: nat)
    requires forall x :: x in timers ==> now < x.deadline
    ensures Due(timers, now) == [] && NotDue(timers, now) == timers
  {
    if timers != [] {
      NoneDue(timers[1..], now);
    }
  }

  lemma ExpireParts(q: Queue, elapsed: nat)
    requires Valid(q) && q.sleepers != []
    ensures var x, rest := q.sleepers[0], q.sleepers[1..];
            && q.sleepers == [x] + rest
            && (elapsed < x.sleep ==>
                  && Expire(q, elapsed).0 == []
                  && Expire(q, elapsed).1.sleepers == [x.(sleep := x.sleep - elapsed)] + rest)
            && (elapsed >= x.sleep ==>
                  && Valid(DelExpired(q)) && DelExpired(q).sleepers == rest
                  && Expire(q, elapsed).0 == [x.thread] + Expire(DelExpired(q), elapsed - x.sleep).0
                  && Expire(q, elapsed).1 == Expire(DelExpired(q), elapsed - x.sleep).1)
  {
    hide Total;
  }

  lemma DueSplit(x: Timer, rest: seq<Timer>, now: nat)
    ensures Due([x] + rest, now) == if x.deadline <= now then [x] + Due(rest, now) else Due(rest, now)
    ensures NotDue([x] + rest, now) == if x.deadline <= now then NotDue(rest, now) else [x] + NotDue(rest, now)
  {
    assert ([x] + rest)[0] == x && ([x] + rest)[1..] == rest;
  }

  lemma ThreadsSplit(x: Timer, rest: seq<Timer>)
    ensures Threads([x] + rest) == [x.thread] + Threads(rest)
  {
  }

  /** The clock check wakes the threads whose deadline has come, in order, and keeps the other deadlines. */
  lemma {:induction false} ExpireRefines(q: Queue, elapsed: nat, clock: nat)
    requires Valid(q)
    ensures Expire(q, elapsed).0 == Threads(Due(Timers(q.sleepers, clock), clock + elapsed))
    ensures Timers(Expire(q, elapsed).1.sleepers, clock + elapsed)
         == NotDue(Timers(q.sleepers, clock), clock + elapsed)
    decreases |q.sleepers|
  {
    hide *;
    if q.sleepers == [] {
      ExpireNone(q, elapsed, clock);
    } else {
      var x, rest, now := q.sleepers[0], q.sleepers[1..], clock + elapsed;
      ExpireParts(q, elapsed);
      Split(x, rest, clock);
      DueSplit(Timer(x.thread, clock + x.sleep), Timers(rest, clock + x.sleep), now);
      if elapsed < x.sleep {
        TimersBounds(rest, clock + x.sleep);
        NoneDue(Timers(rest, clock + x.sleep), now);
        Split(x.(sleep := x.sleep - elapsed), rest, now);
        NoThreads();
      } else {
        ExpireRefines(DelExpired(q), elapsed - x.sleep, clock + x.sleep);
        ThreadsSplit(Timer(x.thread, clock + x.sleep), Due(Timers(rest, clock + x.sleep), now));
      }
    }
  }

  lemma NoThreads()
    ensures Threads([]) == []
  {
  }

  lemma ExpireNone(q: Queue, elapsed: nat, clock: nat)
    requires Valid(q) && q.sleepers == []
    ensures Expire(q, elapsed).0 == Threads(Due(Timers(q.sleepers, clock), clock + elapsed))
    ensures Timers(Expire(q, elapsed).1.sleepers, clock + elapsed)
         == NotDue(Timers(q.sleepers, clock), clock + elapsed)
  {
  }

  // ----- Whole runs -----

  datatype Op = SetTimer(thread: Tid, timeout: nat) | Cancel(thread: Tid) | Check(now: nat)

  /** The queue and the last reading of the clock. */
  datatype State = State(queue: Queue, clock: nat)

  /** The calls the scheduler makes: a thread that is queued is not queued again, and the clock does not go back. */
  predicate Enabled(s: State, op: Op) {
    match op
    case SetTimer(t, timeout) => !Has(s.queue.sleepers, t) && timeout < WORD
    case Cancel(t) => Has(s.queue.sleepers, t)
    case Check(now) => s.clock <= now
  }

  function Step(s: State, op: Op): (r: State)
    requires Valid(s.queue) && Enabled(s, op)
  {
    match op
    case SetTimer(t, timeout) => s.(queue := Add(s.queue, t, timeout))
    case Cancel(t) => s.(queue := Del(s.queue, t))
    case Check(now) => State(Expire(s.queue, now - s.clock).1, now)
  }

  lemma StepValid(s: State, op: Op)
    requires Valid(s.queue) && Enabled(s, op)
    ensures Valid(Step(s, op).queue)
  {
    hide Valid, Has, Add, Del, Expire;
    match op
    case SetTimer(t, timeout) => AddRefines(s.queue, t, timeout, s.clock);
    case Cancel(t) => DelRefines(s.queue, t, s.clock);
    case Check(now) =>
  }

  /** A run from a queue that is in order; that it stays in order is proved, not asked. */
  ghost predicate IsRun(states: seq<State>, ops: seq<Op>) {
    && |states| == |ops| + 1 && Valid(states[0].queue)
    && forall i :: 0 <= i < |ops| ==>
         Enabled(states[i], ops[i]) && (Valid(states[i].queue) ==> states[i + 1] == Step(states[i], ops[i]))
  }

  /** The same calls on a list of deadlines. */
  function AbstractStep(timers: seq<Timer>, clock: nat, op: Op): seq<Timer> {
    match op
    case SetTimer(t, timeout) => Insert(timers, Timer(t, clock + timeout))
    case Cancel(t) => Remove(timers, t)
    case Check(now) => NotDue(timers, now)
  }

  function TimersOf(s: State): seq<Timer> {
    Timers(s.queue.sleepers, s.clock)
  }

  /**
   Over any run, the deltas are those of a sorted list of absolute deadlines, their total is
   _ST_SLEEPQMAX, and each call changes that list alone: it puts one deadline in, takes one out, or
   drops those that are due, which are the threads it wakes.
   */
  lemma RunRefines(states: seq<State>, ops: seq<Op>, i: nat)
    requires IsRun(states, ops) && i < |ops|
    ensures TimersOf(states[i + 1]) == AbstractStep(TimersOf(states[i]), states[i].clock, ops[i])
    ensures Sorted(TimersOf(states[i])) && Valid(states[i].queue) && Valid(states[i + 1].queue)
    ensures ops[i].Check? ==>
              Expire(states[i].queue, ops[i].now - states[i].clock).0
              == Threads(Due(TimersOf(states[i]), ops[i].now))
  {
    hide IsRun, Valid, Enabled, Step, AbstractStep, Expire, Timers, Sorted, Due, Threads;
    RunLength(states, ops);
    RunStep(states, ops, i);
    var s, op := states[i], ops[i];
    TimersSorted(s.queue.sleepers, s.clock);
    StepTimers(s, op);
  }

  lemma RunLength(states: seq<State>, ops: seq<Op>)
    requires IsRun(states, ops)
    ensures |states| == |ops| + 1
  {
  }

  lemma StepTimers(s: State, op: Op)
    requires Valid(s.queue) && Enabled(s, op)
    ensures TimersOf(Step(s, op)) == AbstractStep(TimersOf(s), s.clock, op)
    ensures op.Check? ==>
              Expire(s.queue, op.now - s.clock).0 == Threads(Due(TimersOf(s), op.now))
  {
    hide Valid, Has, Add, Del, Expire, Timers, Insert, Remove, NotDue, Due, Threads;
    match op
    case SetTimer(t, timeout) => AddRefines(s.queue, t, timeout, s.clock);
    case Cancel(t) => DelRefines(s.queue, t, s.clock);
    case Check(now) => ExpireRefines(s.queue, now - s.clock, s.clock);
  }

  lemma {:induction false} RunValid(states: seq<State>, ops: seq<Op>, i: nat)
    requires IsRun(states, ops) && i <= |ops|
    ensures Valid(states[i].queue)
  {
    hide Valid, Enabled, Step;
    if i > 0 {
      RunValid(states, ops, i - 1);
      assert Enabled(states[i - 1], ops[i - 1]) && states[i - 1 + 1] == Step(states[i - 1], ops[i - 1]);
      StepValid(states[i - 1], ops[i - 1]);
    }
  }

  lemma RunStep(states: seq<State>, ops: seq<Op>, i: nat)
    requires IsRun(states, ops) && i < |ops|
    ensures Valid(states[i].queue) && Enabled(states[i], ops[i]) && states[i + 1] == Step(states[i], ops[i])
    ensures Valid(states[i + 1].queue)
  {
    hide Valid, Enabled, Step;
    RunValid(states, ops, i);
    RunValid(states, ops, i + 1);
  }

  // ----- The list of deadlines as a map -----

  /** Setting a timer keeps every other timer. */
  lemma {:induction false} InsertKeeps(timers: seq<Timer>, x: Timer)
    ensures multiset(Insert(timers, x)) == multiset(timers) + multiset{x}
  {
    if timers != [] && timers[0].deadline <= x.deadline {
      InsertKeeps(timers[1..], x);
      assert timers == [timers[0]] + timers[1..];
      MoveFront(timers[0], timers[1..], Insert(timers[1..], x), x);
    } else {
      assert multiset([x] + timers) == multiset([x]) + multiset(timers);
    }
  }

  lemma MoveFront(first: Timer, rest: seq<Timer>, rest': seq<Timer>, x: Timer)
    requires multiset(rest') == multiset(rest) + multiset{x}
    ensures multiset([first] + rest') == multiset([first] + rest) + multiset{x}
  {
  }

  lemma {:induction false} InsertMembers(timers: seq<Timer>, x: Timer)
    ensures forall y :: y in Insert(timers, x) ==> y == x || y in timers
  {
    if timers != [] && timers[0].deadline <= x.deadline {
      InsertMembers(timers[1..], x);
    }
  }

  lemma {:induction false} InsertSorted(timers: seq<Timer>, x: Timer)
    requires Sorted(timers)
    ensures Sorted(Insert(timers, x))
  {
    if timers != [] && timers[0].deadline <= x.deadline {
      InsertSorted(timers[1..], x);
      InsertMembers(timers[1..], x);
      Front(timers[0], Insert(timers[1..], x));
    }
  }

  lemma Front(x: Timer, timers: seq<Timer>)
    requires Sorted(timers) && forall y :: y in timers ==> x.deadline <= y.deadline
    ensures Sorted([x] + timers)
  {
  }

  predicate Distinct(timers: seq<Timer>) {
    forall i, j :: 0 <= i < j < |timers| ==> timers[i].thread != timers[j].thread
  }

  /** Cancelling takes out the timer of that thread alone. */
  lemma {:induction false} RemoveKeeps(timers: seq<Timer>, t: Tid)
    requires Distinct(timers)
    ensures forall x :: x in Remove(timers, t) <==> x in timers && x.thread != t
  {
    if timers != [] {
      assert timers == [timers[0]] + timers[1..];
      RemoveKeeps(timers[1..], t);
    }
  }

  lemma SortedParts(timers: seq<Timer>, now: nat)
    requires Sorted(timers) && timers != []
    ensures Sorted(timers[1..])
    ensures timers[0].deadline > now ==> forall x :: x in timers[1..] ==> now < x.deadline
  {
  }

  lemma Assoc(a: seq<Timer>, b: seq<Timer>, c: seq<Timer>)
    ensures (a + b) + c == a + (b + c)
  {
  }

  lemma {:induction false} DueFirst(timers: seq<Timer>, now: nat)
    requires Sorted(timers)
    ensures Due(timers, now) + NotDue(timers, now) == timers
  {
    if timers != [] {
      hide *;
      var x, rest := timers[0], timers[1..];
      assert timers == [x] + rest;
      DueSplit(x, rest, now);
      SortedParts(timers, now);
      DueFirst(rest, now);
      if x.deadline > now {
        NoneDue(rest, now);
      } else {
        Assoc([x], Due(rest, now), NotDue(rest, now));
      }
    }
  }

  lemma {:induction false} DueMembers(timers: seq<Timer>, now: nat)
    ensures forall x :: x in Due(timers, now) <==> x in timers && x.deadline <= now
  {
    if timers != [] {
      assert timers == [timers[0]] + timers[1..];
      DueMembers(timers[1..], now);
    }
  }

  lemma {:induction false} NotDueMembers(timers: seq<Timer>, now: nat)
    ensures forall x :: x in NotDue(timers, now) <==> x in timers && now < x.deadline
  {
    if timers != [] {
      assert timers == [timers[0]] + timers[1..];
      NotDueMembers(timers[1..], now);
    }
  }

  /** The timers that are due come first, and a clock check takes exactly those. */
  lemma DueExactly(timers: seq<Timer>, now: nat)
    requires Sorted(timers)
    ensures Due(timers, now) + NotDue(timers, now) == timers
    ensures forall x :: x in Due(timers, now) <==> x in timers && x.deadline <= now
  {
    hide *;
    DueFirst(timers, now);
    DueMembers(timers, now);
  }

  /** Whether a thread is woken is a matter of its own deadline. */
  lemma DueByDeadline(timers: seq<Timer>, now: nat, x: Timer)
    requires Distinct(timers) && x in timers
    ensures x.thread in Threads(Due(timers, now)) <==> x.deadline <= now
    ensures x in NotDue(timers, now) <==> now < x.deadline
  {
    hide Due, NotDue;
    DueMembers(timers, now);
    NotDueMembers(timers, now);
    var due := Due(timers, now);
    assert forall y :: y in timers && y.thread == x.thread ==> y == x;
    if x in due {
      var i :| 0 <= i < |due| && due[i] == x;
      assert Threads(due)[i] == x.thread;
    }
    forall i | 0 <= i < |due| ensures due[i] in timers {
      assert due[i] in due;
    }
  }

  // ----- Which threads are queued -----

  function Names(sleepers: seq<Sleeper>): (r: seq<Tid>)
    ensures |r| == |sleepers|
    ensures forall i :: 0 <= i < |r| ==> r[i] == sleepers[i].thread
  {
    seq(|sleepers|, i requires 0 <= i < |sleepers| => sleepers[i].thread)
  }

  predicate Once(sleepers: seq<Sleeper>) {
    NoDup(Names(sleepers))
  }

  /** A thread that is queued once has one timer. */
  lemma OnceDistinct(sleepers: seq<Sleeper>, base: nat)
    requires Once(sleepers)
    ensures Distinct(Timers(sleepers, base))
    ensures forall x :: x in Timers(sleepers, base) ==> Has(sleepers, x.thread)
  {
    hide Timers, Has;
    TimersThreads(sleepers, base);
    HasNames(sleepers);
    forall x | x in Timers(sleepers, base) ensures Has(sleepers, x.thread) {
      var i :| 0 <= i < |sleepers| && Timers(sleepers, base)[i] == x;
      assert Names(sleepers)[i] == x.thread;
    }
  }

  lemma HasName(sleepers: seq<Sleeper>, t: Tid)
    ensures Has(sleepers, t) <==> t in Names(sleepers)
    ensures Index(sleepers, t) == Position(Names(sleepers), t)
  {
    var i := Index(sleepers, t);
    if i < |sleepers| {
      assert Names(sleepers)[i] == t;
    }
  }

  lemma HasNames(sleepers: seq<Sleeper>)
    ensures forall t :: Has(sleepers, t) <==> t in Names(sleepers)
  {
    forall t ensures Has(sleepers, t) <==> t in Names(sleepers) {
      HasName(sleepers, t);
    }
  }

  lemma AddNames(q: Queue, t: Tid, timeout: nat)
    requires Valid(q)
    ensures exists i :: 0 <= i <= |q.sleepers| &&
              Names(Add(q, t, timeout).sleepers) == Names(q.sleepers)[..i] + [t] + Names(q.sleepers)[i..]
  {
    var names, names' := Names(q.sleepers), Names(Add(q, t, timeout).sleepers);
    if timeout >= q.max {
      assert names' == names[..|names|] + [t] + names[|names|..];
    } else {
      PlaceInside(q.sleepers, timeout);
      var i := Place(q.sleepers, timeout).0;
      assert names' == names[..i] + [t] + names[i..];
    }
  }

  lemma InsertName(names: seq<Tid>, i: nat, t: Tid)
    requires i <= |names| && NoDup(names) && t !in names
    ensures var r := names[..i] + [t] + names[i..];
            NoDup(r) && forall u :: u in r <==> u in names || u == t
  {
    assert names == names[..i] + names[i..];
  }

  /** A thread that is put on the queue is on it once, with all the others. */
  lemma AddThreads(q: Queue, t: Tid, timeout: nat)
    requires Valid(q) && Once(q.sleepers) && !Has(q.sleepers, t)
    ensures var r := Add(q, t, timeout).sleepers;
            Once(r) && forall u :: Has(r, u) <==> Has(q.sleepers, u) || u == t
  {
    hide Add, Has, Valid, Names;
    AddNames(q, t, timeout);
    HasNames(q.sleepers);
    HasNames(Add(q, t, timeout).sleepers);
    var i :| 0 <= i <= |q.sleepers| &&
             Names(Add(q, t, timeout).sleepers) == Names(q.sleepers)[..i] + [t] + Names(q.sleepers)[i..];
    InsertName(Names(q.sleepers), i, t);
  }

  lemma DelNames(q: Queue, t: Tid)
    requires Valid(q) && Has(q.sleepers, t)
    ensures Names(Del(q, t).sleepers) == Without(Names(q.sleepers), t)
  {
    hide Total;
    HasName(q.sleepers, t);
  }

  lemma DelThreads(q: Queue, t: Tid)
    requires Valid(q) && Once(q.sleepers) && Has(q.sleepers, t)
    ensures var r := Del(q, t).sleepers;
            Once(r) && forall u :: Has(r, u) <==> Has(q.sleepers, u) && u != t
  {
    hide Del, Has, Valid, Names, Without;
    DelNames(q, t);
    HasNames(q.sleepers);
    HasNames(Del(q, t).sleepers);
    WithoutMembers(Names(q.sleepers), t);
  }

  lemma TailThreads(sleepers: seq<Sleeper>)
    requires Once(sleepers) && sleepers != []
    ensures Once(sleepers[1..])
    ensures forall u :: Has(sleepers[1..], u) <==> Has(sleepers, u) && u != sleepers[0].thread
  {
    hide Has, Names;
    HasNames(sleepers);
    HasNames(sleepers[1..]);
    assert Names(sleepers[1..]) == Names(sleepers)[1..];
    TailMembers(Names(sleepers));
  }

  /** The order and the threads are the same when only the times change. */
  lemma SameThreads(sleepers: seq<Sleeper>, sleepers': seq<Sleeper>)
    requires |sleepers| == |sleepers'| && forall i :: 0 <= i < |sleepers| ==> sleepers[i].thread == sleepers'[i].thread
    ensures Once(sleepers) <==> Once(sleepers')
    ensures forall u :: Has(sleepers', u) <==> Has(sleepers, u)
  {
    hide Has;
    HasNames(sleepers);
    HasNames(sleepers');
    assert Names(sleepers) == Names(sleepers');
  }

  // ----- The queue in place -----

  lemma PlaceStops(sleepers: seq<Sleeper>, sleep: nat)
    requires sleepers == [] || sleep < sleepers[0].sleep
    ensures Place(sleepers, sleep) == (0, sleep)
  {
  }

  lemma PlaceStep(sleepers: seq<Sleeper>, i: nat, sleep: nat)
    requires i < |sleepers| && sleepers[i].sleep <= sleep
    ensures Place(sleepers[i..], sleep)
         == (1 + Place(sleepers[i + 1..], sleep - sleepers[i].sleep).0,
             Place(sleepers[i + 1..], sleep - sleepers[i].sleep).1)
  {
    assert sleepers[i..][1..] == sleepers[i + 1..];
  }

  lemma InsertBefore(q: Queue, i: nat, sleep: nat, t: Tid, timeout: nat)
    requires Valid(q) && timeout < q.max && (i, sleep) == Place(q.sleepers, timeout) && i < |q.sleepers|
    ensures var r := q.sleepers[..i] + [Sleeper(t, sleep)] + q.sleepers[i..];
            && i + 1 < |r| && r[i + 1] == q.sleepers[i] && sleep < q.sleepers[i].sleep
            && Add(q, t, timeout) == Queue(r[i + 1 := r[i + 1].(sleep := r[i + 1].sleep - sleep)], q.max)
  {
    hide Total;
    var r := q.sleepers[..i] + [Sleeper(t, sleep)] + q.sleepers[i..];
    assert r[i + 1 := r[i + 1].(sleep := r[i + 1].sleep - sleep)]
        == q.sleepers[..i] + [Sleeper(t, sleep)] + [r[i + 1].(sleep := r[i + 1].sleep - sleep)] + q.sleepers[i + 1..];
  }

  class SleepQ {
    var sleepers: seq<Sleeper>
    var max: nat

    constructor ()
      ensures Value() == Queue([], 0)
    {
      sleepers, max := [], 0;
    }

    function Value(): Queue
      reads this
    {
      Queue(sleepers, max)
    }

    /** _st_add_sleep_q */
    method AddSleepQ(thread: Tid, timeout: nat)
      requires Valid(Value())
      modifies this`sleepers, this`max
      ensures Value() == Add(old(Value()), thread, timeout)
    {
      if timeout >= max {
        sleepers := sleepers + [Sleeper(thread, timeout - max)];
        max := timeout;
      } else {
        ghost var q := Value();
        PlaceInside(sleepers, timeout);
        var i, sleep := FindPlace(timeout);
        InsertBefore(q, i, sleep, thread, timeout);
        hide Place, Total;
        sleepers := sleepers[..i] + [Sleeper(thread, sleep)] + sleepers[i..];
        // The sleeper that follows counts from this one.
        sleepers := sleepers[i + 1 := sleepers[i + 1].(sleep := sleepers[i + 1].sleep - sleep)];
      }
    }

    /** The scan for the sleeper to queue before. */
    method FindPlace(timeout: nat) returns (i: nat, sleep: nat)
      ensures (i, sleep) == Place(sleepers, timeout)
    {
      hide Place;
      i, sleep := 0, timeout;
      assert sleepers[0..] == sleepers;
      while i < |sleepers| && sleep >= sleepers[i].sleep
        invariant 0 <= i <= |sleepers|
        invariant Place(sleepers, timeout) == (i + Place(sleepers[i..], sleep).0, Place(sleepers[i..], sleep).1)
      {
        PlaceStep(sleepers, i, sleep);
        sleep := sleep - sleepers[i].sleep;
        i := i + 1;
      }
      PlaceStops(sleepers[i..], sleep);
    }

    /** _st_del_sleep_q; i is where the thread's links are. */
    method DelSleepQ(i: nat, expired: bool)
      requires Valid(Value()) && i < |sleepers| && i == Index(sleepers, sleepers[i].thread)
      requires expired ==> i == 0
      modifies this`sleepers, this`max
      ensures Value() == if expired then DelExpired(old(Value())) else Del(old(Value()), old(sleepers[i].thread))
    {
      ghost var q := Value();
      Part(sleepers, i);
      if i + 1 < |sleepers| {
        if expired {
          max := max - sleepers[i].sleep;
        } else {
          sleepers := Lengthen(sleepers, i + 1, sleepers[i].sleep);
        }
      } else if i > 0 {
        max := max - sleepers[i].sleep;
      } else {
        max := 0;
      }
      sleepers := sleepers[..i] + sleepers[i + 1..];
      assert Value() == if expired then DelExpired(q) else Del(q, q.sleepers[i].thread);
    }

    /** The end of the loop of _st_vp_check_clock. */
    method ShortenFirst(elapsed: nat)
      requires Valid(Value()) && sleepers != [] && elapsed < sleepers[0].sleep
      modifies this`sleepers, this`max
      ensures Value() == Shorten(old(Value()), elapsed)
    {
      Part(sleepers, 0);
      sleepers := [sleepers[0].(sleep := sleepers[0].sleep - elapsed)] + sleepers[1..];
      max := max - elapsed;
    }
  }
}
