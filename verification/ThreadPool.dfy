/** The thread pool of examples/server.c: its limits, its counters and the threads that keep them. */
module ThreadPool {
  import opened Wrappers

  type Tid = nat

  /** Where a thread of handle_connections can be seen: created, in st_accept, or in its session. */
  datatype Phase = Fresh | Accepting | Serving

  datatype Worker = Worker(socket: nat, phase: Phase)

  /** min_wait_threads, max_wait_threads and max_threads of a process. */
  datatype Limits = Limits(minWait: int, maxWait: int, max: int)

  /** The counters of each listening socket, and the threads that have not returned. */
  datatype Pool = Pool(limits: Limits, wait: seq<int>, busy: seq<int>, threads: map<Tid, Worker>)

  // ----- The limits -----

  const MAX_WAIT_THREADS_DEFAULT := 8
  const FD_PER_THREAD := 2

  /** A value for all processes, shared out: the least that covers it. */
  predicate IsCeiling(q: int, n: int, parts: int) {
    q * parts >= n && (q - 1) * parts < n
  }

  method DivideUp(n: int, parts: int) returns (q: int)
    requires n >= 0 && parts >= 1
    ensures IsCeiling(q, n, parts) && q >= 0
  {
    if n % parts != 0 {
      q := n / parts + 1;
    } else {
      q := n / parts;
    }
    assert n == parts * (n / parts) + n % parts;
    Product(q, n / parts, parts);
  }

  lemma Product(q: int, d: int, parts: int)
    requires parts >= 1 && (q == d || q == d + 1)
    ensures q * parts == d * parts + (q - d) * parts && (q - 1) * parts == q * parts - parts
    ensures parts * d == d * parts
  {
    if q == d + 1 {
      assert (d + 1) * parts == d * parts + parts;
    }
    assert (q - 1) * parts == q * parts - parts;
  }

  lemma {:induction false} CeilingMonotone(q: int, n: int, r: int, m: int, parts: int)
    requires parts >= 1 && IsCeiling(q, n, parts) && IsCeiling(r, m, parts) && n <= m
    ensures q <= r
  {
    if r < q {
      ProductMonotone(r, q - 1, parts);
    }
  }

  lemma ProductMonotone(a: int, b: int, parts: int)
    requires a <= b && parts >= 1
    ensures a * parts <= b * parts
  {
    assert (b - a) * parts >= 0;
    assert b * parts == a * parts + (b - a) * parts;
  }

  predicate Ordered(l: Limits) {
    0 <= l.maxWait <= l.max && l.minWait <= l.maxWait
  }

  /** set_thread_throttling, from the limits of all processes, zero for the defaults. */
  method SetThreadThrottling(l: Limits, vpCount: int, skCount: int, fdLimit: int) returns (r: Limits)
    requires l.maxWait >= 0 && l.max >= 0 && vpCount >= 1 && skCount >= 1 && fdLimit >= 0
    ensures Ordered(r)
    ensures var wait := if l.maxWait == 0 then 8 * vpCount else l.maxWait;
            var max := if l.max == 0 then (fdLimit * vpCount) / 2 / skCount else l.max;
            && IsCeiling(r.max, max, vpCount)
            && IsCeiling(r.maxWait, if wait > max then max else wait, vpCount)
            && r.minWait == if l.minWait > r.maxWait then r.maxWait else l.minWait
  {
    var maxWait, max, minWait := l.maxWait, l.max, l.minWait;
    if maxWait == 0 {
      maxWait := MAX_WAIT_THREADS_DEFAULT * vpCount;
    }
    if max == 0 {
      assert fdLimit * vpCount >= 0;
      max := (fdLimit * vpCount) / FD_PER_THREAD / skCount;
    }
    if maxWait > max {
      maxWait := max;
    }
    ghost var wait0, max0 := maxWait, max;
    maxWait := DivideUp(maxWait, vpCount);
    max := DivideUp(max, vpCount);
    CeilingMonotone(maxWait, wait0, max, max0, vpCount);
    if minWait > maxWait {
      minWait := maxWait;
    }
    r := Limits(minWait, maxWait, max);
  }

  // ----- Steps -----

  /** A thread runs until it may be switched away; `spawned` is what st_thread_create gives if it is called. */
  datatype Event =
    | Begins(thread: Tid) | AcceptFails(thread: Tid) | Accepts(thread: Tid, spawned: Option<Tid>) | Finishes(thread: Tid)

  predicate Enabled(p: Pool, e: Event) {
    && e.thread in p.threads && p.threads[e.thread].socket < |p.wait| == |p.busy|
    && match e
       case Begins(t) => p.threads[t].phase == Fresh
       case AcceptFails(t) => p.threads[t].phase == Accepting
       case Accepts(t, spawned) =>
         p.threads[t].phase == Accepting && (spawned.Some? ==> spawned.value !in p.threads)
       case Finishes(t) => p.threads[t].phase == Serving
  }

  /** The loop condition: accept again, or stop waiting and return. */
  function Again(p: Pool, t: Tid): Pool
    requires t in p.threads && p.threads[t].socket < |p.wait|
  {
    var i := p.threads[t].socket;
    if p.wait[i] <= p.limits.maxWait then p.(threads := p.threads[t := Worker(i, Accepting)])
    else p.(threads := p.threads - {t}, wait := p.wait[i := p.wait[i] - 1])
  }

  /** A connection was accepted: perhaps another spare thread is created. */
  function Serve(p: Pool, t: Tid, spawned: Option<Tid>): Pool
    requires t in p.threads && p.threads[t].socket < |p.wait| == |p.busy|
  {
    var i := p.threads[t].socket;
    var wait, busy := p.wait[i] - 1, p.busy[i] + 1;
    var q := p.(wait := p.wait[i := wait], busy := p.busy[i := busy], threads := p.threads[t := Worker(i, Serving)]);
    if wait < p.limits.minWait && wait + busy < p.limits.max && spawned.Some? then
      q.(wait := q.wait[i := wait + 1], threads := q.threads[spawned.value := Worker(i, Fresh)])
    else q
  }

  function Next(p: Pool, e: Event): Pool
    requires Enabled(p, e)
  {
    match e
    case Begins(t) => Again(p, t)
    case AcceptFails(t) => Again(p, t)
    case Accepts(t, spawned) => Serve(p, t, spawned)
    case Finishes(t) =>
      var i := p.threads[t].socket;
      Again(p.(wait := p.wait[i := p.wait[i] + 1], busy := p.busy[i := p.busy[i] - 1]), t)
  }

  /**
   An accepted connection leaves one thread less waiting; exactly if fewer than min_wait_threads are left and there are
   fewer than max_threads in all another is asked for. A thread that begins, fails to accept or ends a session stays
   exactly if no more than max_wait_threads wait.
   */
  lemma Pieces(p: Pool, e: Event)
    requires Enabled(p, e)
    ensures var q, t, i := Next(p, e), e.thread, p.threads[e.thread].socket;
            match e
            case Accepts(_, spawned) =>
              var more := p.wait[i] - 1 < p.limits.minWait && p.wait[i] + p.busy[i] < p.limits.max && spawned.Some?;
              && q.threads.Keys == p.threads.Keys + (if more then {spawned.value} else {})
              && (more ==> q.threads[spawned.value] == Worker(i, Fresh)) && q.threads[t] == Worker(i, Serving)
              && q.wait == p.wait[i := if more then p.wait[i] else p.wait[i] - 1] && q.busy == p.busy[i := p.busy[i] + 1]
            case Finishes(_) =>
              var stays := p.wait[i] + 1 <= p.limits.maxWait;
              && q.threads == (if stays then p.threads[t := Worker(i, Accepting)] else p.threads - {t})
              && q.wait == p.wait[i := if stays then p.wait[i] + 1 else p.wait[i]] && q.busy == p.busy[i := p.busy[i] - 1]
            case _ =>
              var stays := p.wait[i] <= p.limits.maxWait;
              && q.threads == (if stays then p.threads[t := Worker(i, Accepting)] else p.threads - {t})
              && q.wait == p.wait[i := if stays then p.wait[i] else p.wait[i] - 1] && q.busy == p.busy
    ensures Next(p, e).limits == p.limits
    ensures forall u :: u in p.threads && u in Next(p, e).threads && u != e.thread ==> Next(p, e).threads[u] == p.threads[u]
  {
  }

  // ----- The invariant -----

  function Waiting(p: Pool, i: nat): set<Tid> {
    set t | t in p.threads && p.threads[t].socket == i && p.threads[t].phase != Serving
  }

  function Busy(p: Pool, i: nat): set<Tid> {
    set t | t in p.threads && p.threads[t].socket == i && p.threads[t].phase == Serving
  }

  /** The counters count the threads, and keep the limits. */
  predicate SocketOk(p: Pool, i: nat)
    requires i < |p.wait| == |p.busy|
  {
    && p.wait[i] == |Waiting(p, i)| && p.busy[i] == |Busy(p, i)|
    && 0 <= p.wait[i] <= p.limits.maxWait && p.wait[i] + p.busy[i] <= p.limits.max
  }

  ghost predicate Inv(p: Pool) {
    && |p.wait| == |p.busy| && Ordered(p.limits)
    && (forall t :: t in p.threads ==> p.threads[t].socket < |p.wait|)
    && (forall i :: 0 <= i < |p.wait| ==> SocketOk(p, i))
  }

  /** There are enough threads to accept, or as many threads as there may be. */
  predicate Balanced(p: Pool, i: nat)
    requires i < |p.wait| == |p.busy|
  {
    p.wait[i] >= p.limits.minWait || p.wait[i] + p.busy[i] == p.limits.max
  }

  /** The threads of a socket after a step, from those before. */
  predicate SetsStep(p: Pool, e: Event, q: Pool, i: nat)
    requires Enabled(p, e) && |q.wait| == |p.wait|
  {
    var t, j := e.thread, p.threads[e.thread].socket;
    if i != j then Waiting(q, i) == Waiting(p, i) && Busy(q, i) == Busy(p, i)
    else
      match e
      case Begins(_) => Waiting(q, i) == Waiting(p, i) && Busy(q, i) == Busy(p, i)
      case AcceptFails(_) => Waiting(q, i) == Waiting(p, i) && Busy(q, i) == Busy(p, i)
      case Accepts(_, spawned) =>
        && Waiting(q, i) == Waiting(p, i) - {t} + (if Spawns(p, e) then {spawned.value} else {})
        && Busy(q, i) == Busy(p, i) + {t}
      case Finishes(_) =>
        && Waiting(q, i) == Waiting(p, i) + (if p.wait[i] < p.limits.maxWait then {t} else {})
        && Busy(q, i) == Busy(p, i) - {t}
  }

  lemma Sets(p: Pool, e: Event, i: nat)
    requires Inv(p) && Enabled(p, e) && i < |p.wait|
    ensures var q := Next(p, e);
            |q.wait| == |q.busy| == |p.wait| && q.limits == p.limits && SetsStep(p, e, q, i)
  {
    hide SetsStep, Inv;
    InvAt(p, p.threads[e.thread].socket);
    match e
    case Begins(_) => WaitSets(p, e, i);
    case AcceptFails(_) => WaitSets(p, e, i);
    case Accepts(_, _) => ServeSets(p, e, i);
    case Finishes(t) => FinishSets(p, t, i);
  }

  lemma WaitSets(p: Pool, e: Event, i: nat)
    requires Inv(p) && Enabled(p, e) && (e.Begins? || e.AcceptFails?) && i < |p.wait|
    ensures |Next(p, e).wait| == |p.wait| && SetsStep(p, e, Next(p, e), i)
  {
    hide Waiting, Busy, Inv, SocketOk;
    InvAt(p, p.threads[e.thread].socket);
    Where(p, e.thread, i);
    AgainSets(p, e.thread, i);
  }

  lemma ServeSets(p: Pool, e: Event, i: nat)
    requires Enabled(p, e) && e.Accepts?
    ensures SetsStep(p, e, Next(p, e), i)
  {
    hide Waiting, Busy;
    var q, t, j := Next(p, e), e.thread, p.threads[e.thread].socket;
    var p1 := p.(threads := p.threads[t := Worker(j, Serving)]);
    Where(p, t, i);
    PutSets(p, p1, t, Worker(j, Serving), i);
    if Spawns(p, e) {
      PutSets(p1, q, e.spawned.value, Worker(j, Fresh), i);
      NotThere(p, e.spawned.value, i);
    } else {
      SameSets(p1, q, i);
    }
  }

  lemma FinishSets(p: Pool, t: Tid, i: nat)
    requires Enabled(p, Finishes(t))
    ensures SetsStep(p, Finishes(t), Next(p, Finishes(t)), i)
  {
    hide Waiting, Busy;
    var j := p.threads[t].socket;
    var p1 := p.(wait := p.wait[j := p.wait[j] + 1], busy := p.busy[j := p.busy[j] - 1]);
    Where(p, t, i);
    SameSets(p, p1, i);
    AgainSets(p1, t, i);
  }

  lemma InvAt(p: Pool, i: nat)
    requires Inv(p) && i < |p.wait|
    ensures |p.wait| == |p.busy| && SocketOk(p, i) && p.wait[i] <= p.limits.maxWait && Ordered(p.limits)
  {
  }

  lemma SameSets(p: Pool, q: Pool, i: nat)
    requires q.threads == p.threads
    ensures Waiting(q, i) == Waiting(p, i) && Busy(q, i) == Busy(p, i)
  {
  }

  lemma PutSets(p: Pool, q: Pool, t: Tid, w: Worker, i: nat)
    requires q.threads == p.threads[t := w]
    ensures Waiting(q, i) == Waiting(p, i) - {t} + (if w.socket == i && w.phase != Serving then {t} else {})
    ensures Busy(q, i) == Busy(p, i) - {t} + (if w.socket == i && w.phase == Serving then {t} else {})
  {
  }

  lemma DropSets(p: Pool, q: Pool, t: Tid, i: nat)
    requires q.threads == p.threads - {t}
    ensures Waiting(q, i) == Waiting(p, i) - {t} && Busy(q, i) == Busy(p, i) - {t}
  {
  }

  lemma AgainSets(p: Pool, t: Tid, i: nat)
    requires t in p.threads && p.threads[t].socket < |p.wait|
    ensures var q, j := Again(p, t), p.threads[t].socket;
            && Waiting(q, i) == Waiting(p, i) - {t} + (if j == i && p.wait[j] <= p.limits.maxWait then {t} else {})
            && Busy(q, i) == Busy(p, i) - {t}
  {
    hide Waiting, Busy;
    var q, j := Again(p, t), p.threads[t].socket;
    if p.wait[j] <= p.limits.maxWait {
      PutSets(p, q, t, Worker(j, Accepting), i);
    } else {
      DropSets(p, q, t, i);
    }
  }

  lemma Where(p: Pool, t: Tid, i: nat)
    requires t in p.threads
    ensures t in Waiting(p, i) <==> p.threads[t].socket == i && p.threads[t].phase != Serving
    ensures t in Busy(p, i) <==> p.threads[t].socket == i && p.threads[t].phase == Serving
  {
  }

  lemma NotThere(p: Pool, t: Tid, i: nat)
    requires t !in p.threads
    ensures t !in Waiting(p, i) && t !in Busy(p, i)
  {
  }

  predicate Spawns(p: Pool, e: Event)
    requires Enabled(p, e) && e.Accepts?
  {
    var i := p.threads[e.thread].socket;
    p.wait[i] - 1 < p.limits.minWait && p.wait[i] + p.busy[i] < p.limits.max && e.spawned.Some?
  }

  lemma SetSizes(s: set<Tid>, t: Tid)
    ensures t in s ==> |s - {t}| == |s| - 1
    ensures t !in s ==> |s + {t}| == |s| + 1
  {
  }

  /** The counters of a socket after a step, from what happened to its threads. */
  lemma AgainCounts(p: Pool, e: Event, i: nat)
    requires Inv(p) && Enabled(p, e) && i < |p.wait| && SetsStep(p, e, Next(p, e), i)
    requires i != p.threads[e.thread].socket || e.Begins? || e.AcceptFails?
    ensures SocketOk(Next(p, e), i) && (Balanced(p, i) ==> Balanced(Next(p, e), i))
  {
    hide Waiting, Busy, Inv;
    InvAt(p, i);
    InvAt(p, p.threads[e.thread].socket);
  }

  lemma AcceptSizes(w: set<Tid>, b: set<Tid>, t: Tid, spawned: Option<Tid>)
    requires t in w && t !in b && (spawned.Some? ==> spawned.value !in w)
    ensures |w - {t} + (if spawned.Some? then {spawned.value} else {})| == |w| - 1 + (if spawned.Some? then 1 else 0)
    ensures |b + {t}| == |b| + 1
  {
    SetSizes(w, t);
    SetSizes(b, t);
    if spawned.Some? {
      SetSizes(w - {t}, spawned.value);
    }
  }

  lemma AcceptParts(p: Pool, e: Event, i: nat)
    requires Enabled(p, e) && e.Accepts? && i == p.threads[e.thread].socket && |Next(p, e).wait| == |p.wait|
    requires SetsStep(p, e, Next(p, e), i)
    ensures var spawned := if Spawns(p, e) then e.spawned else None;
            && (spawned.Some? <==> Spawns(p, e)) && (spawned.Some? ==> spawned.value !in Waiting(p, i))
            && Waiting(Next(p, e), i) == Waiting(p, i) - {e.thread} + (if spawned.Some? then {spawned.value} else {})
            && Busy(Next(p, e), i) == Busy(p, i) + {e.thread}
            && e.thread in Waiting(p, i) && e.thread !in Busy(p, i)
  {
    hide Waiting, Busy;
    Where(p, e.thread, i);
    if e.spawned.Some? {
      NotThere(p, e.spawned.value, i);
    }
  }

  lemma AcceptCounts(p: Pool, e: Event, i: nat)
    requires Inv(p) && Enabled(p, e) && i < |p.wait| && SetsStep(p, e, Next(p, e), i)
    requires i == p.threads[e.thread].socket && e.Accepts?
    ensures SocketOk(Next(p, e), i) && (Balanced(p, i) && e.spawned.Some? ==> Balanced(Next(p, e), i))
  {
    hide Waiting, Busy, Inv, SetsStep;
    InvAt(p, i);
    AcceptParts(p, e, i);
    AcceptSizes(Waiting(p, i), Busy(p, i), e.thread, if Spawns(p, e) then e.spawned else None);
  }

  lemma FinishCounts(p: Pool, e: Event, i: nat)
    requires Inv(p) && Enabled(p, e) && i < |p.wait| && SetsStep(p, e, Next(p, e), i)
    requires i == p.threads[e.thread].socket && e.Finishes?
    ensures SocketOk(Next(p, e), i) && (Balanced(p, i) ==> Balanced(Next(p, e), i))
  {
    hide Waiting, Busy, Inv;
    InvAt(p, i);
    Where(p, e.thread, i);
    SetSizes(Waiting(p, i), e.thread);
    SetSizes(Busy(p, i), e.thread);
  }

  /** A step keeps the counters of every socket. */
  lemma SocketKeeps(p: Pool, e: Event, i: nat)
    requires Inv(p) && Enabled(p, e) && i < |p.wait|
    ensures |Next(p, e).wait| == |Next(p, e).busy| == |p.wait| && SocketOk(Next(p, e), i)
    ensures Balanced(p, i) && (e.Accepts? ==> e.spawned.Some?) ==> Balanced(Next(p, e), i)
  {
    hide *;
    Sets(p, e, i);
    SocketOf(p, e);
    if i != p.threads[e.thread].socket || e.Begins? || e.AcceptFails? {
      AgainCounts(p, e, i);
    } else if e.Accepts? {
      AcceptCounts(p, e, i);
    } else {
      FinishCounts(p, e, i);
    }
  }

  lemma SocketOf(p: Pool, e: Event)
    requires Enabled(p, e)
    ensures e.thread in p.threads
  {
  }

  /** A step keeps the invariant, and the balance if a thread that is asked for is created. */
  lemma NextKeeps(p: Pool, e: Event)
    requires Inv(p) && Enabled(p, e)
    ensures Inv(Next(p, e))
  {
    var q := Next(p, e);
    forall i | 0 <= i < |p.wait| ensures |q.wait| == |q.busy| == |p.wait| && SocketOk(q, i) {
      SocketKeeps(p, e, i);
    }
  }

  // ----- Runs -----

  /** A run of one process, after start_threads; which thread goes next is up to the connections that come. */
  ghost predicate IsRun(pools: seq<Pool>, events: seq<Event>) {
    && |pools| == |events| + 1 && Inv(pools[0])
    && forall k :: 0 <= k < |events| ==> Enabled(pools[k], events[k]) && pools[k + 1] == Next(pools[k], events[k])
  }

  /** No thread that is asked for fails to be created. */
  predicate NeverFails(events: seq<Event>) {
    forall k :: 0 <= k < |events| ==> (events[k].Accepts? ==> events[k].spawned.Some?)
  }

  /**
   Whatever the order of events, WAIT and BUSY count the threads that wait and serve, WAIT is at most
   max_wait_threads and both together at most max_threads; and as long as threads can be created there are
   min_wait_threads waiting or max_threads in all.
   */
  lemma {:induction false} Equilibrium(pools: seq<Pool>, events: seq<Event>, n: nat, i: nat)
    requires IsRun(pools, events) && n <= |events| && i < |pools[0].wait|
    ensures Inv(pools[n]) && |pools[n].wait| == |pools[0].wait| && SocketOk(pools[n], i)
    ensures NeverFails(events) && Balanced(pools[0], i) ==> Balanced(pools[n], i)
  {
    hide Next, Enabled, SocketOk, Balanced;
    if n > 0 {
      Equilibrium(pools, events, n - 1, i);
      assert Enabled(pools[n - 1], events[n - 1]) && pools[n - 1 + 1] == Next(pools[n - 1], events[n - 1]);
      SocketKeeps(pools[n - 1], events[n - 1], i);
      NextKeeps(pools[n - 1], events[n - 1]);
    }
  }

  // ----- A server process -----

  /** The creations for socket j that succeed, of the first `many`. */
  function Successes(created: (nat, nat) -> bool, j: nat, many: int): set<nat> {
    set n: nat | n < many && created(j, n)
  }

  /** Some creation for socket j succeeds, of the first `many`. */
  ghost predicate Starts(created: (nat, nat) -> bool, j: nat, many: int) {
    exists n: nat :: n < many && created(j, n)
  }

  lemma NoSockets(p: Pool)
    requires p == Pool(p.limits, [], [], map[]) && Ordered(p.limits)
    ensures Inv(p)
  {
  }

  lemma Limited(p: Pool)
    requires Inv(p)
    ensures p.limits.maxWait >= 0
  {
  }

  lemma NoSuccess(created: (nat, nat) -> bool, j: nat)
    ensures Successes(created, j, 0) == {}
  {
  }

  lemma OneMoreSuccess(created: (nat, nat) -> bool, j: nat, n: nat)
    ensures |Successes(created, j, n + 1)| == |Successes(created, j, n)| + (if created(j, n) then 1 else 0)
  {
    var before := Successes(created, j, n);
    assert Successes(created, j, n + 1) == if created(j, n) then before + {n} else before;
  }

  lemma SomeSuccess(created: (nat, nat) -> bool, j: nat, many: int)
    ensures |Successes(created, j, many)| > 0 <==> Starts(created, j, many)
  {
    if n: nat :| n < many && created(j, n) {
      assert n in Successes(created, j, many);
    } else {
      assert Successes(created, j, many) == {};
    }
  }

  class Server {
    var limits: Limits
    var wait: seq<int>
    var busy: seq<int>
    var threads: map<Tid, Worker>

    function Value(): Pool
      reads this
    {
      Pool(limits, wait, busy, threads)
    }

    constructor (limits: Limits)
      ensures Value() == Pool(limits, [], [], map[])
    {
      this.limits, wait, busy, threads := limits, [], [], map[];
    }

    /** start_threads: `created` says which creations succeed. It gives up when a socket gets no thread at all. */
    method StartThreads(skCount: nat, created: (nat, nat) -> bool) returns (ok: bool)
      requires Value() == Pool(limits, [], [], map[]) && Ordered(limits)
      modifies this
      ensures limits == old(limits)
      ensures ok <==> forall j: nat :: j < skCount ==> Starts(created, j, limits.maxWait)
      ensures ok ==> Inv(Value()) && |wait| == skCount
      ensures ok ==> forall j: nat :: j < skCount ==> wait[j] == |Successes(created, j, limits.maxWait)| && busy[j] == 0
    {
      hide Inv, Successes, Starts;
      NoSockets(Value());
      var id, i := 0, 0;
      while i < skCount
        invariant 0 <= i <= skCount && |wait| == |busy| == i && Inv(Value()) && limits == old(limits)
        invariant forall t :: t in threads ==> t < id
        invariant forall j: nat :: j < i ==> wait[j] == |Successes(created, j, limits.maxWait)| && busy[j] == 0
        invariant forall j: nat :: j < i ==> Starts(created, j, limits.maxWait)
      {
        id := StartSocket(i, created, id);
        SomeSuccess(created, i, limits.maxWait);
        if wait[i] == 0 {
          return false;
        }
        i := i + 1;
      }
      ok := true;
    }

    /** The threads of one socket. */
    method StartSocket(i: nat, created: (nat, nat) -> bool, firstId: nat) returns (id: nat)
      requires |wait| == |busy| == i && Inv(Value()) && forall t :: t in threads ==> t < firstId
      modifies this`wait, this`busy, this`threads
      ensures Inv(Value()) && forall t :: t in threads ==> t < id
      ensures wait == old(wait) + [|Successes(created, i, limits.maxWait)|] && busy == old(busy) + [0]
    {
      hide Waiting, Busy, SocketOk, Successes, Inv;
      id := firstId;
      wait, busy := wait + [0], busy + [0];
      NewSocket(Value(), i);
      NoSuccess(created, i);
      Limited(Value());
      var n := 0;
      while n < limits.maxWait
        invariant 0 <= n <= limits.maxWait && |wait| == i + 1 && Inv(Value())
        invariant n >= wait[i] == |Successes(created, i, n)|
        invariant wait[..i] == old(wait) && busy == old(busy) + [0]
        invariant forall t :: t in threads ==> t < id
      {
        OneMoreSuccess(created, i, n);
        if created(i, n) {
          Started(Value(), i, id);
          threads := threads[id := Worker(i, Fresh)];
          wait := wait[i := wait[i] + 1];
          id := id + 1;
        }
        n := n + 1;
      }
    }

    /** The condition of the loop of handle_connections. */
    method CheckWaiting(t: Tid)
      requires t in threads && threads[t].socket < |wait|
      modifies this`wait, this`threads
      ensures Value() == Again(old(Value()), t)
    {
      var i := threads[t].socket;
      if wait[i] <= limits.maxWait {
        threads := threads[t := Worker(i, Accepting)];
      } else {
        wait := wait[i := wait[i] - 1];
        threads := threads - {t};
      }
    }

    /** The body of that loop up to handle_session. */
    method Accepted(t: Tid, spawned: Option<Tid>)
      requires t in threads && threads[t].socket < |wait| == |busy|
      modifies this`wait, this`busy, this`threads
      ensures Value() == Serve(old(Value()), t, spawned)
    {
      var i := threads[t].socket;
      wait := wait[i := wait[i] - 1];
      busy := busy[i := busy[i] + 1];
      threads := threads[t := Worker(i, Serving)];
      if wait[i] < limits.minWait && wait[i] + busy[i] < limits.max {
        if spawned.Some? {
          threads := threads[spawned.value := Worker(i, Fresh)];
          wait := wait[i := wait[i] + 1];
        }
      }
    }

    /** One piece of handle_connections, between two points at which its thread may be switched away. */
    method Step(e: Event)
      requires Inv(Value()) && Enabled(Value(), e)
      modifies this`wait, this`busy, this`threads
      ensures Value() == Next(old(Value()), e) && Inv(Value())
    {
      hide Inv;
      NextKeeps(Value(), e);
      match e {
        case Begins(t) => CheckWaiting(t);
        case AcceptFails(t) => CheckWaiting(t);
        case Accepts(t, spawned) => Accepted(t, spawned);
        case Finishes(t) =>
          var i := threads[t].socket;
          wait := wait[i := wait[i] + 1];
          busy := busy[i := busy[i] - 1];
          CheckWaiting(t);
      }
    }
  }

  lemma NewSocket(p: Pool, i: nat)
    requires |p.wait| == |p.busy| == i + 1 && p.wait[i] == p.busy[i] == 0
    requires Inv(p.(wait := p.wait[..i], busy := p.busy[..i]))
    ensures Inv(p)
  {
    var q := p.(wait := p.wait[..i], busy := p.busy[..i]);
    assert Waiting(p, i) == {} && Busy(p, i) == {};
    forall j | 0 <= j < |p.wait| ensures SocketOk(p, j) {
      if j < i {
        assert SocketOk(q, j) && Waiting(p, j) == Waiting(q, j) && Busy(p, j) == Busy(q, j);
      }
    }
  }

  /** A thread more at the start. */
  lemma Started(p: Pool, i: nat, id: Tid)
    requires Inv(p) && i < |p.wait| && id !in p.threads && p.wait[i] < p.limits.maxWait && p.busy[i] == 0
    ensures Inv(p.(threads := p.threads[id := Worker(i, Fresh)], wait := p.wait[i := p.wait[i] + 1]))
  {
    hide SocketOk, Waiting, Busy;
    var q := p.(threads := p.threads[id := Worker(i, Fresh)], wait := p.wait[i := p.wait[i] + 1]);
    forall j | 0 <= j < |p.wait| ensures SocketOk(q, j) {
      StartedSocket(p, q, i, id, j);
    }
  }

  lemma StartedSocket(p: Pool, q: Pool, i: nat, id: Tid, j: nat)
    requires Inv(p) && i < |p.wait| && id !in p.threads && p.wait[i] < p.limits.maxWait && p.busy[i] == 0
    requires q == p.(threads := p.threads[id := Worker(i, Fresh)], wait := p.wait[i := p.wait[i] + 1])
    requires j < |p.wait|
    ensures SocketOk(q, j)
  {
    hide Waiting, Busy, Inv;
    InvAt(p, j);
    PutSets(p, q, id, Worker(i, Fresh), j);
    NotThere(p, id, j);
    SetSizes(Waiting(p, j), id);
  }
}
