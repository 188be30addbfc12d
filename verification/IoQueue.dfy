/**
 The I/O queue of sched.c: the requests of _st_poll, the counters of interest for each descriptor and
 event, the three fd_sets for select and the highest descriptor of interest.
 */
module IoQueue {
  type Tid = nat

  datatype Event = Read | Write | Exception

  /** A struct pollfd with its events. */
  datatype PollFd = PollFd(fd: int, events: set<Event>)

  /** A st_pollq_t: a thread has at most one. */
  datatype Request = Request(thread: Tid, pds: seq<PollFd>)

  datatype Key = Key(fd: int, event: Event)

  /** fd_ref_cnts, zero where it has no entry, and the fd_sets, of sockets. */
  datatype Interest = Interest(counts: map<Key, nat>, sets: set<Key>)

  datatype Io = Io(queue: seq<Request>, interest: Interest, maxFd: int)

  /** The table that maps descriptors to sockets, no two to the same. */
  predicate Injective(fds: seq<int>) {
    forall i, j :: 0 <= i < j < |fds| ==> fds[i] != fds[j]
  }

  // ----- What the code does -----

  function Count(counts: map<Key, nat>, k: Key): nat {
    if k in counts then counts[k] else 0
  }

  predicate InTable(fds: seq<int>, k: Key) {
    0 <= k.fd < |fds|
  }

  function Socket(fds: seq<int>, k: Key): Key
    requires InTable(fds, k)
  {
    Key(fds[k.fd], k.event)
  }

  /** The descriptors and events of a request, in the order the loops meet them. */
  function EventKeys(pd: PollFd): seq<Key> {
    (if Read in pd.events then [Key(pd.fd, Read)] else [])
    + (if Write in pd.events then [Key(pd.fd, Write)] else [])
    + (if Exception in pd.events then [Key(pd.fd, Exception)] else [])
  }

  function Keys(pds: seq<PollFd>): seq<Key> {
    if pds == [] then [] else EventKeys(pds[0]) + Keys(pds[1..])
  }

  /** FD_SET and the counter's increment. */
  function AddKey(fds: seq<int>, x: Interest, k: Key): Interest
    requires InTable(fds, k)
  {
    Interest(x.counts[k := Count(x.counts, k) + 1], x.sets + {Socket(fds, k)})
  }

  /** The counter's decrement, and FD_CLR when it comes to zero. */
  function DropKey(fds: seq<int>, x: Interest, k: Key): Interest
    requires InTable(fds, k) && Count(x.counts, k) > 0
  {
    Interest(x.counts[k := Count(x.counts, k) - 1],
             if Count(x.counts, k) == 1 then x.sets - {Socket(fds, k)} else x.sets)
  }

  predicate AllInTable(fds: seq<int>, keys: seq<Key>) {
    forall k :: k in keys ==> InTable(fds, k)
  }

  function AddKeys(fds: seq<int>, x: Interest, keys: seq<Key>): Interest
    requires AllInTable(fds, keys)
    decreases keys
  {
    if keys == [] then x else AddKeys(fds, AddKey(fds, x, keys[0]), keys[1..])
  }

  /** Whether each decrement is of a positive counter. */
  predicate CanDrop(fds: seq<int>, x: Interest, keys: seq<Key>)
    requires AllInTable(fds, keys)
    decreases keys
  {
    keys == [] || (Count(x.counts, keys[0]) > 0 && CanDrop(fds, DropKey(fds, x, keys[0]), keys[1..]))
  }

  function DropKeys(fds: seq<int>, x: Interest, keys: seq<Key>): Interest
    requires AllInTable(fds, keys) && CanDrop(fds, x, keys)
    decreases keys
  {
    if keys == [] then x else DropKeys(fds, DropKey(fds, x, keys[0]), keys[1..])
  }

  function Highest(pds: seq<PollFd>): (m: int)
    ensures -1 <= m && forall pd :: pd in pds ==> pd.fd <= m
  {
    if pds == [] then -1
    else if Highest(pds[1..]) < pds[0].fd then pds[0].fd else Highest(pds[1..])
  }

  function Max(a: int, b: int): int {
    if a < b then b else a
  }

  /** A request that _st_poll may make: a descriptor with events is in the table. */
  predicate Legal(fds: seq<int>, pds: seq<PollFd>) {
    AllInTable(fds, Keys(pds))
  }

  /** _st_poll up to its context switch. */
  function Register(fds: seq<int>, io: Io, r: Request): Io
    requires Legal(fds, r.pds)
  {
    Io(io.queue + [r], AddKeys(fds, io.interest, Keys(r.pds)), Max(io.maxFd, Highest(r.pds)))
  }

  /** Where a thread's request is in the queue. */
  function Find(queue: seq<Request>, t: Tid): (i: nat)
    ensures i <= |queue| && (i < |queue| ==> queue[i].thread == t)
    ensures forall j :: 0 <= j < i ==> queue[j].thread != t
  {
    if queue == [] || queue[0].thread == t then 0 else 1 + Find(queue[1..], t)
  }

  predicate Queued(queue: seq<Request>, t: Tid) {
    Find(queue, t) < |queue|
  }

  /** _st_poll after the switch, for a request that is still queued: it timed out or was interrupted. */
  function Release(fds: seq<int>, io: Io, t: Tid): Io
    requires Queued(io.queue, t)
    requires var r := io.queue[Find(io.queue, t)];
             Legal(fds, r.pds) && CanDrop(fds, io.interest, Keys(r.pds))
  {
    var i := Find(io.queue, t);
    Io(io.queue[..i] + io.queue[i + 1..], DropKeys(fds, io.interest, Keys(io.queue[i].pds)), io.maxFd)
  }

  /** What select found for a descriptor of a request. */
  function Revents(fds: seq<int>, ready: set<Key>, pd: PollFd): set<Event> {
    set e | e in pd.events && InTable(fds, Key(pd.fd, e)) && Socket(fds, Key(pd.fd, e)) in ready
  }

  predicate IsReady(fds: seq<int>, ready: set<Key>, pds: seq<PollFd>) {
    exists i :: 0 <= i < |pds| && Revents(fds, ready, pds[i]) != {}
  }

  /** The loop of _st_vp_idle over the requests from i on, after the ones kept and the ones notified so far. */
  datatype Scan = Scan(kept: seq<Request>, notified: seq<Request>, interest: Interest, maxFd: int)

  predicate CanScan(fds: seq<int>, ready: set<Key>, todo: seq<Request>, x: Scan)
    decreases todo
  {
    todo == []
    || (&& Legal(fds, todo[0].pds)
        && (IsReady(fds, ready, todo[0].pds) ==> CanDrop(fds, x.interest, Keys(todo[0].pds)))
        && CanScan(fds, ready, todo[1..], ScanOne(fds, ready, todo[0], x)))
  }

  function ScanOne(fds: seq<int>, ready: set<Key>, r: Request, x: Scan): Scan
    requires Legal(fds, r.pds)
    requires IsReady(fds, ready, r.pds) ==> CanDrop(fds, x.interest, Keys(r.pds))
  {
    if IsReady(fds, ready, r.pds) then
      x.(notified := x.notified + [r], interest := DropKeys(fds, x.interest, Keys(r.pds)))
    else x.(kept := x.kept + [r], maxFd := Max(x.maxFd, Highest(r.pds)))
  }

  function ScanAll(fds: seq<int>, ready: set<Key>, todo: seq<Request>, x: Scan): Scan
    requires CanScan(fds, ready, todo, x)
    decreases todo
  {
    if todo == [] then x else ScanAll(fds, ready, todo[1..], ScanOne(fds, ready, todo[0], x))
  }

  /** The first state of that loop. */
  function Start(io: Io): Scan {
    Scan([], [], io.interest, -1)
  }

  // ----- What the counters mean -----

  /** The registrations of all queued requests. */
  function Registered(queue: seq<Request>): multiset<Key> {
    if queue == [] then multiset{} else multiset(Keys(queue[0].pds)) + Registered(queue[1..])
  }

  /** Each counter is the number of registrations, and the fd_sets hold the descriptors with a positive one. */
  ghost predicate Counted(fds: seq<int>, x: Interest, regs: multiset<Key>) {
    && (forall k :: k in regs ==> InTable(fds, k))
    && (forall k :: Count(x.counts, k) == regs[k])
    && (forall k :: InTable(fds, k) ==> (Socket(fds, k) in x.sets <==> k in regs))
    && (forall s :: s in x.sets ==> s.fd in fds)
  }

  ghost predicate Bounded(io: Io) {
    -1 <= io.maxFd && forall k :: k in Registered(io.queue) ==> k.fd <= io.maxFd
  }

  predicate OnePerThread(queue: seq<Request>) {
    forall i, j :: 0 <= i < j < |queue| ==> queue[i].thread != queue[j].thread
  }

  ghost predicate Exact(fds: seq<int>, io: Io) {
    Counted(fds, io.interest, Registered(io.queue)) && Bounded(io) && OnePerThread(io.queue)
  }

  // ----- What a request asks for, and what select shows -----

  /** How many of these descriptors ask for an event. */
  function AskedIn(pds: seq<PollFd>, fd: int, e: Event): nat {
    |set i | 0 <= i < |pds| && pds[i].fd == fd && e in pds[i].events|
  }

  /** How many descriptors of queued requests do. */
  function Asked(queue: seq<Request>, fd: int, e: Event): nat {
    if queue == [] then 0 else AskedIn(queue[0].pds, fd, e) + Asked(queue[1..], fd, e)
  }

  /** Counters count what is asked for, and a socket is in an fd_set exactly if its event is. */
  ghost predicate Counts(fds: seq<int>, io: Io) {
    && (forall fd, e :: Count(io.interest.counts, Key(fd, e)) == Asked(io.queue, fd, e))
    && (forall fd, e :: 0 <= fd < |fds| ==> (Key(fds[fd], e) in io.interest.sets <==> Asked(io.queue, fd, e) > 0))
    && (forall k :: k in io.interest.sets ==> k.fd in fds)
  }

  /** pd asks for e, and select shows it for the socket of pd. */
  predicate Shows(fds: seq<int>, ready: set<Key>, pd: PollFd, e: Event) {
    e in pd.events && 0 <= pd.fd < |fds| && Key(fds[pd.fd], e) in ready
  }

  ghost predicate AnyShows(fds: seq<int>, ready: set<Key>, pds: seq<PollFd>) {
    exists i, e :: 0 <= i < |pds| && Shows(fds, ready, pds[i], e)
  }

  /** The descriptors of a request for which select shows something. */
  ghost function Showing(fds: seq<int>, ready: set<Key>, pds: seq<PollFd>): set<nat> {
    set i: nat | i < |pds| && exists e :: Shows(fds, ready, pds[i], e)
  }

  /** m is the highest of these descriptors and the floor. */
  predicate IsHighest(m: int, pds: seq<PollFd>, floor: int) {
    floor <= m && (forall pd :: pd in pds ==> pd.fd <= m) && (m == floor || exists pd :: pd in pds && pd.fd == m)
  }

  lemma {:induction false} KeysConcat(a: seq<PollFd>, b: seq<PollFd>)
    ensures Keys(a + b) == Keys(a) + Keys(b)
  {
    hide EventKeys;
    if a == [] {
      assert a + b == b;
    } else {
      assert (a + b)[1..] == a[1..] + b;
      KeysConcat(a[1..], b);
    }
  }

  lemma EventKeysAsked(pd: PollFd, fd: int, e: Event)
    ensures multiset(EventKeys(pd))[Key(fd, e)] == if pd.fd == fd && e in pd.events then 1 else 0
  {
  }

  lemma AskedLast(pds: seq<PollFd>, fd: int, e: Event)
    requires pds != []
    ensures var last := pds[|pds| - 1];
            AskedIn(pds, fd, e) == AskedIn(pds[..|pds| - 1], fd, e) + (if last.fd == fd && e in last.events then 1 else 0)
  {
    var n := |pds| - 1;
    var all := set i | 0 <= i < |pds| && pds[i].fd == fd && e in pds[i].events;
    var some := set i | 0 <= i < |pds[..n]| && pds[..n][i].fd == fd && e in pds[..n][i].events;
    assert forall i :: 0 <= i < n ==> pds[..n][i] == pds[i];
    if pds[n].fd == fd && e in pds[n].events {
      assert all == some + {n};
    } else {
      assert all == some;
    }
  }

  /** The loops of a request meet each event as often as it is asked for. */
  lemma {:induction false} KeysAsked(pds: seq<PollFd>, fd: int, e: Event)
    ensures multiset(Keys(pds))[Key(fd, e)] == AskedIn(pds, fd, e)
    decreases |pds|
  {
    hide EventKeys, AskedIn;
    if pds == [] {
      NothingAsked(fd, e);
    } else {
      var n := |pds| - 1;
      KeysAsked(pds[..n], fd, e);
      AskedLast(pds, fd, e);
      EventKeysAsked(pds[n], fd, e);
      assert pds == pds[..n] + [pds[n]];
      KeysConcat(pds[..n], [pds[n]]);
      assert Keys([pds[n]]) == EventKeys(pds[n]) + Keys([pds[n]][1..]) == EventKeys(pds[n]);
    }
  }

  lemma NothingAsked(fd: int, e: Event)
    ensures AskedIn([], fd, e) == 0
  {
    var pds: seq<PollFd> := [];
    assert (set i | 0 <= i < |pds| && pds[i].fd == fd && e in pds[i].events) == {};
  }

  lemma {:induction false} RegisteredAsked(queue: seq<Request>, fd: int, e: Event)
    ensures Registered(queue)[Key(fd, e)] == Asked(queue, fd, e)
  {
    hide Keys, AskedIn;
    if queue != [] {
      KeysAsked(queue[0].pds, fd, e);
      RegisteredAsked(queue[1..], fd, e);
    }
  }

  /** What exactness means for descriptors and events. */
  lemma ExactCounts(fds: seq<int>, io: Io)
    requires Exact(fds, io)
    ensures Counts(fds, io)
  {
    hide Asked, Registered;
    forall fd, e ensures Registered(io.queue)[Key(fd, e)] == Asked(io.queue, fd, e) {
      RegisteredAsked(io.queue, fd, e);
    }
    forall fd, e | 0 <= fd < |fds|
      ensures Key(fds[fd], e) in io.interest.sets <==> Asked(io.queue, fd, e) > 0
    {
      assert InTable(fds, Key(fd, e)) && Socket(fds, Key(fd, e)) == Key(fds[fd], e);
    }
  }

  lemma ReventsShow(fds: seq<int>, ready: set<Key>, pd: PollFd)
    ensures forall e :: e in Revents(fds, ready, pd) <==> Shows(fds, ready, pd, e)
  {
  }

  lemma ReadyShows(fds: seq<int>, ready: set<Key>, pds: seq<PollFd>)
    ensures IsReady(fds, ready, pds) <==> AnyShows(fds, ready, pds)
  {
    hide Revents, Shows;
    forall i | 0 <= i < |pds|
      ensures Revents(fds, ready, pds[i]) != {} <==> exists e :: Shows(fds, ready, pds[i], e)
    {
      ReventsShow(fds, ready, pds[i]);
    }
  }

  lemma {:induction false} HighestIs(pds: seq<PollFd>)
    ensures IsHighest(Highest(pds), pds, -1)
  {
    if pds != [] {
      HighestIs(pds[1..]);
      assert pds[0] in pds;
    }
  }

  lemma HighestOfBoth(m: int, pds: seq<PollFd>, floor: int)
    requires IsHighest(m, pds, -1) && -1 <= floor
    ensures IsHighest(Max(floor, m), pds, floor)
  {
  }

  // ----- One counter -----

  /** Different descriptors have different sockets. */
  lemma SocketsDiffer(fds: seq<int>, k: Key)
    requires Injective(fds) && InTable(fds, k)
    ensures Socket(fds, k).fd in fds
    ensures forall j :: InTable(fds, j) ==> (Socket(fds, j) == Socket(fds, k) <==> j == k)
  {
  }

  lemma AddKeyCounted(fds: seq<int>, x: Interest, regs: multiset<Key>, k: Key)
    requires Injective(fds) && Counted(fds, x, regs) && InTable(fds, k)
    ensures Counted(fds, AddKey(fds, x, k), regs + multiset{k})
  {
    hide Injective, Socket, InTable;
    SocketsDiffer(fds, k);
  }

  lemma DropKeyCounted(fds: seq<int>, x: Interest, regs: multiset<Key>, k: Key)
    requires Injective(fds) && Counted(fds, x, regs) && k in regs
    ensures Count(x.counts, k) > 0 && InTable(fds, k)
    ensures Counted(fds, DropKey(fds, x, k), regs - multiset{k})
  {
    hide Injective, Socket, InTable;
    SocketsDiffer(fds, k);
  }

  lemma {:induction false} AddKeysCounted(fds: seq<int>, x: Interest, regs: multiset<Key>, keys: seq<Key>)
    requires Injective(fds) && Counted(fds, x, regs) && AllInTable(fds, keys)
    ensures Counted(fds, AddKeys(fds, x, keys), regs + multiset(keys))
    decreases keys
  {
    hide Counted, AddKey, Injective;
    if keys == [] {
      assert regs + multiset(keys) == regs;
    } else {
      AddKeyCounted(fds, x, regs, keys[0]);
      AddKeysCounted(fds, AddKey(fds, x, keys[0]), regs + multiset{keys[0]}, keys[1..]);
      assert keys == [keys[0]] + keys[1..];
      assert regs + multiset{keys[0]} + multiset(keys[1..]) == regs + multiset(keys);
    }
  }

  lemma {:induction false} DropKeysCounted(fds: seq<int>, x: Interest, regs: multiset<Key>, keys: seq<Key>)
    requires Injective(fds) && Counted(fds, x, regs) && multiset(keys) <= regs && AllInTable(fds, keys)
    ensures CanDrop(fds, x, keys)
    ensures Counted(fds, DropKeys(fds, x, keys), regs - multiset(keys))
    decreases keys
  {
    hide Counted, DropKey, Injective;
    if keys == [] {
      assert regs - multiset(keys) == regs;
    } else {
      assert keys == [keys[0]] + keys[1..];
      assert multiset(keys) == multiset{keys[0]} + multiset(keys[1..]);
      assert keys[0] in multiset(keys);
      DropKeyCounted(fds, x, regs, keys[0]);
      DropKeysCounted(fds, DropKey(fds, x, keys[0]), regs - multiset{keys[0]}, keys[1..]);
      assert regs - multiset{keys[0]} - multiset(keys[1..]) == regs - multiset(keys);
    }
  }

  // ----- The queue -----

  lemma {:induction false} RegisteredConcat(a: seq<Request>, b: seq<Request>)
    ensures Registered(a + b) == Registered(a) + Registered(b)
  {
    hide Keys;
    if a == [] {
      assert a + b == b;
    } else {
      assert (a + b)[1..] == a[1..] + b;
      RegisteredConcat(a[1..], b);
    }
  }

  lemma RegisteredOne(r: Request)
    ensures Registered([r]) == multiset(Keys(r.pds))
  {
    assert [r][1..] == [];
  }

  lemma {:induction false} HighestKey(pds: seq<PollFd>)
    ensures forall k :: k in Keys(pds) ==> k.fd <= Highest(pds)
  {
    if pds != [] {
      HighestKey(pds[1..]);
      forall k | k in Keys(pds) ensures k.fd <= Highest(pds) {
        assert k in EventKeys(pds[0]) || k in Keys(pds[1..]);
      }
    }
  }

  /** Registered keys are in the table, so a queued request is legal. */
  lemma RegisteredLegal(fds: seq<int>, x: Interest, regs: multiset<Key>, pds: seq<PollFd>)
    requires Counted(fds, x, regs) && multiset(Keys(pds)) <= regs
    ensures Legal(fds, pds)
  {
    hide Keys;
    assert forall k :: k in Keys(pds) ==> k in multiset(Keys(pds));
  }

  lemma FindNone(queue: seq<Request>, t: Tid)
    ensures !Queued(queue, t) <==> forall i :: 0 <= i < |queue| ==> queue[i].thread != t
  {
  }

  lemma {:induction false} AddKeysCount(fds: seq<int>, x: Interest, keys: seq<Key>, k: Key)
    requires AllInTable(fds, keys)
    ensures Count(AddKeys(fds, x, keys).counts, k) == Count(x.counts, k) + multiset(keys)[k]
    decreases keys
  {
    if keys != [] {
      AddKeysCount(fds, AddKey(fds, x, keys[0]), keys[1..], k);
      assert keys == [keys[0]] + keys[1..];
    }
  }

  lemma RegisterCounts(fds: seq<int>, io: Io, r: Request)
    requires Legal(fds, r.pds) && Exact(fds, Register(fds, io, r)) && -1 <= io.maxFd
    ensures var io' := Register(fds, io, r);
            && Counts(fds, io') && IsHighest(io'.maxFd, r.pds, io.maxFd)
            && forall fd, e :: Count(io'.interest.counts, Key(fd, e))
                               == Count(io.interest.counts, Key(fd, e)) + AskedIn(r.pds, fd, e)
  {
    hide Exact, Counts, IsHighest, AskedIn, Keys, AddKeys, Highest, Count;
    ExactCounts(fds, Register(fds, io, r));
    HighestIs(r.pds);
    HighestOfBoth(Highest(r.pds), r.pds, io.maxFd);
    forall fd, e ensures Count(Register(fds, io, r).interest.counts, Key(fd, e))
                      == Count(io.interest.counts, Key(fd, e)) + AskedIn(r.pds, fd, e)
    {
      AddKeysCount(fds, io.interest, Keys(r.pds), Key(fd, e));
      KeysAsked(r.pds, fd, e);
    }
  }

  /**
   A new request goes last and adds its registrations: each counter grows by the number of its descriptors that ask
   for the event.
   */
  lemma RegisterKeeps(fds: seq<int>, io: Io, r: Request)
    requires Injective(fds) && Exact(fds, io) && Legal(fds, r.pds) && !Queued(io.queue, r.thread)
    ensures Exact(fds, Register(fds, io, r))
    ensures Registered(Register(fds, io, r).queue) == Registered(io.queue) + multiset(Keys(r.pds))
    ensures var io' := Register(fds, io, r);
            && io'.queue == io.queue + [r] && Counts(fds, io') && IsHighest(io'.maxFd, r.pds, io.maxFd)
            && forall fd, e :: Count(io'.interest.counts, Key(fd, e))
                               == Count(io.interest.counts, Key(fd, e)) + AskedIn(r.pds, fd, e)
  {
    hide Counted, Injective, Keys, Registered, Highest, AddKeys, Counts, IsHighest, AskedIn, Count;
    RegisteredConcat(io.queue, [r]);
    RegisteredOne(r);
    AddKeysCounted(fds, io.interest, Registered(io.queue), Keys(r.pds));
    HighestKey(r.pds);
    FindNone(io.queue, r.thread);
    RegisterCounts(fds, io, r);
  }

  lemma QueueSplit(queue: seq<Request>, i: nat)
    requires i < |queue|
    ensures Registered(queue) == Registered(queue[..i] + queue[i + 1..]) + multiset(Keys(queue[i].pds))
  {
    hide *;
    assert queue == queue[..i] + ([queue[i]] + queue[i + 1..]);
    RegisteredConcat(queue[..i], [queue[i]] + queue[i + 1..]);
    RegisteredConcat([queue[i]], queue[i + 1..]);
    RegisteredConcat(queue[..i], queue[i + 1..]);
    RegisteredOne(queue[i]);
  }

  /** A request that leaves takes its registrations out; no counter is decremented from zero. */
  lemma ReleaseKeeps(fds: seq<int>, io: Io, t: Tid)
    requires Injective(fds) && Exact(fds, io) && Queued(io.queue, t)
    ensures var r := io.queue[Find(io.queue, t)];
            && Legal(fds, r.pds) && CanDrop(fds, io.interest, Keys(r.pds))
            && Exact(fds, Release(fds, io, t))
            && Registered(io.queue) == Registered(Release(fds, io, t).queue) + multiset(Keys(r.pds))
    ensures Counts(fds, Release(fds, io, t)) && Release(fds, io, t).maxFd == io.maxFd
    ensures var i := Find(io.queue, t); Release(fds, io, t).queue == io.queue[..i] + io.queue[i + 1..]
  {
    hide Counted, Injective, Keys, Registered, DropKeys, CanDrop, Counts;
    hide Find;
    var i := Find(io.queue, t);
    var r, rest := io.queue[i], io.queue[..i] + io.queue[i + 1..];
    QueueSplit(io.queue, i);
    RegisteredLegal(fds, io.interest, Registered(io.queue), r.pds);
    DropKeysCounted(fds, io.interest, Registered(io.queue), Keys(r.pds));
    assert Registered(io.queue) - multiset(Keys(r.pds)) == Registered(rest);
    assert forall k :: k in Registered(rest) ==> k in Registered(io.queue);
    ExactCounts(fds, Release(fds, io, t));
  }

  // ----- A round of select -----

  /** The requests that a result of select makes ready, and the others. */
  function Ready(fds: seq<int>, ready: set<Key>, queue: seq<Request>): seq<Request> {
    if queue == [] then []
    else (if IsReady(fds, ready, queue[0].pds) then [queue[0]] else []) + Ready(fds, ready, queue[1..])
  }

  function NotReady(fds: seq<int>, ready: set<Key>, queue: seq<Request>): seq<Request> {
    if queue == [] then []
    else (if IsReady(fds, ready, queue[0].pds) then [] else [queue[0]]) + NotReady(fds, ready, queue[1..])
  }

  ghost predicate ScanInv(fds: seq<int>, todo: seq<Request>, x: Scan) {
    && Counted(fds, x.interest, Registered(x.kept) + Registered(todo))
    && -1 <= x.maxFd && forall k :: k in Registered(x.kept) ==> k.fd <= x.maxFd
  }

  lemma RegisteredStep(todo: seq<Request>)
    requires todo != []
    ensures Registered(todo) == multiset(Keys(todo[0].pds)) + Registered(todo[1..])
  {
  }

  lemma ScanOneKeeps(fds: seq<int>, ready: set<Key>, todo: seq<Request>, x: Scan)
    requires Injective(fds) && todo != [] && ScanInv(fds, todo, x)
    ensures Legal(fds, todo[0].pds)
    ensures IsReady(fds, ready, todo[0].pds) ==> CanDrop(fds, x.interest, Keys(todo[0].pds))
    ensures ScanInv(fds, todo[1..], ScanOne(fds, ready, todo[0], x))
  {
    hide Counted, Injective, Keys, Registered, DropKeys, CanDrop, IsReady, Highest, Legal;
    var r, regs := todo[0], Registered(x.kept) + Registered(todo);
    RegisteredStep(todo);
    assert multiset(Keys(r.pds)) <= regs;
    RegisteredLegal(fds, x.interest, regs, r.pds);
    if IsReady(fds, ready, r.pds) {
      LegalKeys(fds, r.pds);
      DropKeysCounted(fds, x.interest, regs, Keys(r.pds));
      assert regs - multiset(Keys(r.pds)) == Registered(x.kept) + Registered(todo[1..]);
    } else {
      RegisteredConcat(x.kept, [r]);
      RegisteredOne(r);
      HighestKey(r.pds);
      assert regs == Registered(x.kept + [r]) + Registered(todo[1..]);
    }
  }

  lemma LegalKeys(fds: seq<int>, pds: seq<PollFd>)
    requires Legal(fds, pds)
    ensures AllInTable(fds, Keys(pds))
  {
  }

  lemma ScanStep(fds: seq<int>, ready: set<Key>, todo: seq<Request>, x: Scan)
    requires todo != [] && Legal(fds, todo[0].pds)
    requires IsReady(fds, ready, todo[0].pds) ==> CanDrop(fds, x.interest, Keys(todo[0].pds))
    requires CanScan(fds, ready, todo[1..], ScanOne(fds, ready, todo[0], x))
    ensures CanScan(fds, ready, todo, x)
    ensures ScanAll(fds, ready, todo, x) == ScanAll(fds, ready, todo[1..], ScanOne(fds, ready, todo[0], x))
  {
    hide IsReady, Keys, CanDrop, ScanOne, Legal;
  }

  lemma ReadyParts(fds: seq<int>, ready: set<Key>, queue: seq<Request>)
    requires queue != []
    ensures var r, rest := queue[0], queue[1..];
            && queue == [r] + rest
            && Ready(fds, ready, queue)
               == (if IsReady(fds, ready, r.pds) then [r] + Ready(fds, ready, rest) else Ready(fds, ready, rest))
            && NotReady(fds, ready, queue)
               == (if IsReady(fds, ready, r.pds) then NotReady(fds, ready, rest) else [r] + NotReady(fds, ready, rest))
  {
    hide IsReady;
  }

  lemma ReadyStep(fds: seq<int>, ready: set<Key>, todo: seq<Request>, x: Scan)
    requires todo != [] && Legal(fds, todo[0].pds)
    requires IsReady(fds, ready, todo[0].pds) ==> CanDrop(fds, x.interest, Keys(todo[0].pds))
    ensures var y := ScanOne(fds, ready, todo[0], x);
            && x.kept + NotReady(fds, ready, todo) == y.kept + NotReady(fds, ready, todo[1..])
            && x.notified + Ready(fds, ready, todo) == y.notified + Ready(fds, ready, todo[1..])
  {
    hide IsReady, Keys, CanDrop, DropKeys, Legal, Ready, NotReady;
    ReadyParts(fds, ready, todo);
    var r, rest := todo[0], todo[1..];
    assert x.kept + ([r] + NotReady(fds, ready, rest)) == (x.kept + [r]) + NotReady(fds, ready, rest);
    assert x.notified + ([r] + Ready(fds, ready, rest)) == (x.notified + [r]) + Ready(fds, ready, rest);
  }

  lemma ScanNone(fds: seq<int>, ready: set<Key>, x: Scan)
    ensures CanScan(fds, ready, [], x) && ScanAll(fds, ready, [], x) == x
    ensures NotReady(fds, ready, []) == [] && Ready(fds, ready, []) == []
  {
  }

  lemma {:induction false} ScanKeeps(fds: seq<int>, ready: set<Key>, todo: seq<Request>, x: Scan)
    requires Injective(fds) && ScanInv(fds, todo, x)
    ensures CanScan(fds, ready, todo, x)
    ensures var y := ScanAll(fds, ready, todo, x);
            && ScanInv(fds, [], y)
            && y.kept == x.kept + NotReady(fds, ready, todo)
            && y.notified == x.notified + Ready(fds, ready, todo)
    decreases todo
  {
    hide *;
    if todo == [] {
      ScanNone(fds, ready, x);
    } else {
      ScanOneKeeps(fds, ready, todo, x);
      ScanKeeps(fds, ready, todo[1..], ScanOne(fds, ready, todo[0], x));
      ScanStep(fds, ready, todo, x);
      ReadyStep(fds, ready, todo, x);
    }
  }

  /** _st_vp_idle once select has returned a positive number. */
  function Notify(fds: seq<int>, io: Io, ready: set<Key>): (r: (Io, seq<Request>))
    requires CanScan(fds, ready, io.queue, Start(io))
  {
    var x := ScanAll(fds, ready, io.queue, Start(io));
    (Io(x.kept, x.interest, x.maxFd), x.notified)
  }

  lemma {:induction false} ReadySplit(fds: seq<int>, ready: set<Key>, queue: seq<Request>)
    ensures Registered(queue) == Registered(NotReady(fds, ready, queue)) + Registered(Ready(fds, ready, queue))
  {
    hide *;
    if queue == [] {
      NoneReady(fds, ready);
    } else {
      ReadySplit(fds, ready, queue[1..]);
      ReadyParts(fds, ready, queue);
      RegisteredConcat([queue[0]], queue[1..]);
      RegisteredConcat([queue[0]], NotReady(fds, ready, queue[1..]));
      RegisteredConcat([queue[0]], Ready(fds, ready, queue[1..]));
    }
  }

  lemma NoneReady(fds: seq<int>, ready: set<Key>)
    ensures NotReady(fds, ready, []) == [] && Ready(fds, ready, []) == [] && Registered([]) == multiset{}
  {
  }

  lemma {:induction false} NotReadyMembers(fds: seq<int>, ready: set<Key>, queue: seq<Request>)
    ensures forall r :: r in NotReady(fds, ready, queue) <==> r in queue && !IsReady(fds, ready, r.pds)
  {
    hide IsReady;
    if queue != [] {
      ReadyParts(fds, ready, queue);
      NotReadyMembers(fds, ready, queue[1..]);
    }
  }

  lemma {:induction false} ReadyMembers(fds: seq<int>, ready: set<Key>, queue: seq<Request>)
    ensures forall r :: r in Ready(fds, ready, queue) <==> r in queue && IsReady(fds, ready, r.pds)
  {
    hide IsReady;
    if queue != [] {
      ReadyParts(fds, ready, queue);
      ReadyMembers(fds, ready, queue[1..]);
    }
  }

  lemma ReadyAt(fds: seq<int>, ready: set<Key>, queue: seq<Request>, j: nat) returns (b: nat)
    requires j < |queue| && AnyShows(fds, ready, queue[j].pds)
    ensures b < |Ready(fds, ready, queue)| && Ready(fds, ready, queue)[b] == queue[j]
  {
    hide *;
    ReadyShows(fds, ready, queue[j].pds);
    ReadyMembers(fds, ready, queue);
    assert queue[j] in Ready(fds, ready, queue);
    b :| 0 <= b < |Ready(fds, ready, queue)| && Ready(fds, ready, queue)[b] == queue[j];
  }

  lemma NotReadyAt(fds: seq<int>, ready: set<Key>, queue: seq<Request>, j: nat) returns (b: nat)
    requires j < |queue| && !AnyShows(fds, ready, queue[j].pds)
    ensures b < |NotReady(fds, ready, queue)| && NotReady(fds, ready, queue)[b] == queue[j]
  {
    hide *;
    ReadyShows(fds, ready, queue[j].pds);
    NotReadyMembers(fds, ready, queue);
    assert queue[j] in NotReady(fds, ready, queue);
    b :| 0 <= b < |NotReady(fds, ready, queue)| && NotReady(fds, ready, queue)[b] == queue[j];
  }

  /** Behind an element that is put in front or left out. */
  lemma Behind(whole: seq<Request>, x: Request, rest: seq<Request>, a: nat, b: nat) returns (a': nat, b': nat)
    requires (whole == [x] + rest || whole == rest) && a < b < |rest|
    ensures a' < b' < |whole| && whole[a'] == rest[a] && whole[b'] == rest[b]
  {
    a', b' := if whole == rest then a else a + 1, if whole == rest then b else b + 1;
  }

  /** Of two requests for which select shows an event the earlier one is notified first. */
  lemma {:induction false} ReadyOrder(fds: seq<int>, ready: set<Key>, queue: seq<Request>, i: nat, j: nat) returns (a: nat, b: nat)
    requires i < j < |queue| && AnyShows(fds, ready, queue[i].pds) && AnyShows(fds, ready, queue[j].pds)
    ensures a < b < |Ready(fds, ready, queue)|
    ensures Ready(fds, ready, queue)[a] == queue[i] && Ready(fds, ready, queue)[b] == queue[j]
    decreases i
  {
    hide *;
    ReadyParts(fds, ready, queue);
    if i == 0 {
      ReadyShows(fds, ready, queue[0].pds);
      var k := ReadyAt(fds, ready, queue[1..], j - 1);
      a, b := 0, 1 + k;
    } else {
      a, b := ReadyOrder(fds, ready, queue[1..], i - 1, j - 1);
      a, b := Behind(Ready(fds, ready, queue), queue[0], Ready(fds, ready, queue[1..]), a, b);
    }
  }

  /** Those for which it shows none keep their order. */
  lemma {:induction false} NotReadyOrder(fds: seq<int>, ready: set<Key>, queue: seq<Request>, i: nat, j: nat) returns (a: nat, b: nat)
    requires i < j < |queue| && !AnyShows(fds, ready, queue[i].pds) && !AnyShows(fds, ready, queue[j].pds)
    ensures a < b < |NotReady(fds, ready, queue)|
    ensures NotReady(fds, ready, queue)[a] == queue[i] && NotReady(fds, ready, queue)[b] == queue[j]
    decreases i
  {
    hide *;
    ReadyParts(fds, ready, queue);
    if i == 0 {
      ReadyShows(fds, ready, queue[0].pds);
      var k := NotReadyAt(fds, ready, queue[1..], j - 1);
      a, b := 0, 1 + k;
    } else {
      a, b := NotReadyOrder(fds, ready, queue[1..], i - 1, j - 1);
      a, b := Behind(NotReady(fds, ready, queue), queue[0], NotReady(fds, ready, queue[1..]), a, b);
    }
  }

  lemma OnePerThreadRest(queue: seq<Request>, rest: seq<Request>)
    requires queue != [] && OnePerThread(queue) && OnePerThread(rest)
    requires forall r :: r in rest ==> r in queue[1..]
    ensures OnePerThread([queue[0]] + rest) && OnePerThread(queue[1..])
  {
    forall i | 0 <= i < |rest| ensures rest[i].thread != queue[0].thread {
      assert rest[i] in queue[1..];
    }
  }

  lemma {:induction false} NotReadyThreads(fds: seq<int>, ready: set<Key>, queue: seq<Request>)
    requires OnePerThread(queue)
    ensures OnePerThread(NotReady(fds, ready, queue))
  {
    hide IsReady;
    if queue != [] {
      ReadyParts(fds, ready, queue);
      OnePerThreadRest(queue, []);
      NotReadyThreads(fds, ready, queue[1..]);
      NotReadyMembers(fds, ready, queue[1..]);
      OnePerThreadRest(queue, NotReady(fds, ready, queue[1..]));
    }
  }

  lemma NotifyExact(fds: seq<int>, io: Io, ready: set<Key>)
    requires Injective(fds) && Exact(fds, io)
    ensures CanScan(fds, ready, io.queue, Start(io))
    ensures var (io', notified) := Notify(fds, io, ready);
            && Exact(fds, io')
            && notified == Ready(fds, ready, io.queue) && io'.queue == NotReady(fds, ready, io.queue)
            && Registered(io.queue) == Registered(io'.queue) + Registered(notified)
  {
    hide Injective, Counted, IsReady, Keys, ScanAll, CanScan, Ready, NotReady, OnePerThread;
    assert Registered([]) == multiset{};
    assert Registered([]) + Registered(io.queue) == Registered(io.queue);
    ScanKeeps(fds, ready, io.queue, Start(io));
    var x := ScanAll(fds, ready, io.queue, Start(io));
    assert Registered(x.kept) + Registered([]) == Registered(x.kept);
    assert [] + NotReady(fds, ready, io.queue) == NotReady(fds, ready, io.queue);
    assert [] + Ready(fds, ready, io.queue) == Ready(fds, ready, io.queue);
    ReadySplit(fds, ready, io.queue);
    NotReadyThreads(fds, ready, io.queue);
  }

  /**
   A round notifies exactly the requests for which select shows an event, in order, releases exactly their
   registrations, and finds the highest descriptor of the others.
   */
  lemma NotifyKeeps(fds: seq<int>, io: Io, ready: set<Key>)
    requires Injective(fds) && Exact(fds, io)
    ensures CanScan(fds, ready, io.queue, Start(io))
    ensures var (io', notified) := Notify(fds, io, ready);
            && Exact(fds, io')
            && notified == Ready(fds, ready, io.queue) && io'.queue == NotReady(fds, ready, io.queue)
            && Registered(io.queue) == Registered(io'.queue) + Registered(notified)
    ensures var (io', notified) := Notify(fds, io, ready);
            && Counts(fds, io')
            && (forall r :: r in notified <==> r in io.queue && AnyShows(fds, ready, r.pds))
            && (forall r :: r in io'.queue <==> r in io.queue && !AnyShows(fds, ready, r.pds))
            && HighestOf(io'.maxFd, io'.queue)
  {
    hide *;
    NotifyExact(fds, io, ready);
    NotifyCounts(fds, io, ready);
    NoHighest(io);
    ScanHighest(fds, ready, io.queue, Start(io));
    NotifyIs(fds, io, ready);
  }

  lemma NoHighest(io: Io)
    ensures HighestOf(Start(io).maxFd, Start(io).kept)
  {
  }

  lemma NotifyIs(fds: seq<int>, io: Io, ready: set<Key>)
    requires CanScan(fds, ready, io.queue, Start(io))
    ensures var (io', x) := (Notify(fds, io, ready).0, ScanAll(fds, ready, io.queue, Start(io)));
            io'.queue == x.kept && io'.maxFd == x.maxFd
  {
    hide ScanAll, CanScan, Start;
  }

  lemma NotifyCounts(fds: seq<int>, io: Io, ready: set<Key>)
    requires CanScan(fds, ready, io.queue, Start(io)) && Exact(fds, Notify(fds, io, ready).0)
    requires Notify(fds, io, ready).1 == Ready(fds, ready, io.queue)
    requires Notify(fds, io, ready).0.queue == NotReady(fds, ready, io.queue)
    ensures var (io', notified) := Notify(fds, io, ready);
            && Counts(fds, io')
            && (forall r :: r in notified <==> r in io.queue && AnyShows(fds, ready, r.pds))
            && (forall r :: r in io'.queue <==> r in io.queue && !AnyShows(fds, ready, r.pds))
  {
    hide Exact, IsReady, ScanAll, CanScan, Ready, NotReady, Counts, AnyShows;
    ExactCounts(fds, Notify(fds, io, ready).0);
    ReadyMembers(fds, ready, io.queue);
    NotReadyMembers(fds, ready, io.queue);
    forall r: Request ensures IsReady(fds, ready, r.pds) <==> AnyShows(fds, ready, r.pds) {
      ReadyShows(fds, ready, r.pds);
    }
  }

  /** The descriptors of all requests. */
  function AllPds(queue: seq<Request>): seq<PollFd> {
    if queue == [] then [] else AllPds(queue[..|queue| - 1]) + queue[|queue| - 1].pds
  }

  /** m is the highest descriptor of all requests, or -1. */
  ghost predicate HighestOf(m: int, queue: seq<Request>) {
    IsHighest(m, AllPds(queue), -1)
  }

  lemma HighestMore(m: int, queue: seq<Request>, r: Request)
    requires HighestOf(m, queue)
    ensures HighestOf(Max(m, Highest(r.pds)), queue + [r])
  {
    hide Highest;
    HighestIs(r.pds);
    assert (queue + [r])[..|queue|] == queue;
    assert AllPds(queue + [r]) == AllPds(queue) + r.pds;
  }

  /** The scan leaves the highest descriptor of the requests that it keeps. */
  lemma {:induction false} ScanHighest(fds: seq<int>, ready: set<Key>, todo: seq<Request>, x: Scan)
    requires CanScan(fds, ready, todo, x) && HighestOf(x.maxFd, x.kept)
    ensures HighestOf(ScanAll(fds, ready, todo, x).maxFd, ScanAll(fds, ready, todo, x).kept)
    decreases todo
  {
    hide HighestOf, DropKeys, CanDrop, IsReady, Legal, Highest;
    if todo != [] {
      HighestMore(x.maxFd, x.kept, todo[0]);
      ScanHighest(fds, ready, todo[1..], ScanOne(fds, ready, todo[0], x));
    }
  }

  /** The socket and event k belong to a descriptor of some request. */
  ghost predicate BelongsTo(fds: seq<int>, k: Key, some: seq<Request>) {
    exists r, i :: r in some && 0 <= i < |r.pds| && k.event in r.pds[i].events
                   && 0 <= r.pds[i].fd < |fds| && fds[r.pds[i].fd] == k.fd
  }

  /**
   What select can find is what it was asked for: then a socket that it finds belongs to a request that is notified,
   so that a round which finds anything wakes a thread, and no thread asks for that event any longer.
   */
  lemma SelectMeets(fds: seq<int>, io: Io, ready: set<Key>)
    requires Injective(fds) && Exact(fds, io) && ready <= io.interest.sets
    ensures CanScan(fds, ready, io.queue, Start(io))
    ensures var (io', notified) := Notify(fds, io, ready);
            && (ready != {} ==> notified != [])
            && (forall k :: k in ready ==> BelongsTo(fds, k, notified))
            && ready * io'.interest.sets == {}
  {
    hide *;
    NotifyKeeps(fds, io, ready);
    ExactCounts(fds, io);
    var (io', notified) := Notify(fds, io, ready);
    forall k | k in ready ensures k !in io'.interest.sets && BelongsTo(fds, k, notified) && notified != [] {
      SocketMeets(fds, io, io', notified, ready, k);
    }
  }

  lemma ShowsAny(fds: seq<int>, ready: set<Key>, pds: seq<PollFd>, i: nat, k: Key)
    requires i < |pds| && k.event in pds[i].events && k in ready
    requires 0 <= pds[i].fd < |fds| && fds[pds[i].fd] == k.fd
    ensures AnyShows(fds, ready, pds)
  {
    assert Shows(fds, ready, pds[i], k.event);
  }

  lemma SocketMeets(fds: seq<int>, io: Io, io': Io, notified: seq<Request>, ready: set<Key>, k: Key)
    requires Counts(fds, io) && Counts(fds, io') && k in ready && k in io.interest.sets
    requires forall r :: r in notified <==> r in io.queue && AnyShows(fds, ready, r.pds)
    requires forall r :: r in io'.queue <==> r in io.queue && !AnyShows(fds, ready, r.pds)
    ensures k !in io'.interest.sets && BelongsTo(fds, k, notified) && notified != []
  {
    hide Asked, AnyShows;
    var fd :| 0 <= fd < |fds| && fds[fd] == k.fd;
    assert Key(fds[fd], k.event) == k;
    var r, i := AskedBy(io.queue, fd, k.event);
    ShowsAny(fds, ready, r.pds, i, k);
    if k in io'.interest.sets {
      var r', i' := AskedBy(io'.queue, fd, k.event);
      ShowsAny(fds, ready, r'.pds, i', k);
    }
  }

  lemma {:induction false} AskedBy(queue: seq<Request>, fd: int, e: Event) returns (r: Request, i: nat)
    requires Asked(queue, fd, e) > 0
    ensures r in queue && i < |r.pds| && r.pds[i].fd == fd && e in r.pds[i].events
  {
    if AskedIn(queue[0].pds, fd, e) > 0 {
      r := queue[0];
      var all := set j | 0 <= j < |r.pds| && r.pds[j].fd == fd && e in r.pds[j].events;
      assert all != {};
      i :| i in all;
    } else {
      r, i := AskedBy(queue[1..], fd, e);
    }
  }

  // ----- Whole runs -----

  /**
   A thread polls; a thread whose request is still queued leaves; select returns something, or fails on a
   descriptor that was closed.
   */
  datatype Op = Poll(request: Request) | Leave(thread: Tid) | Select(ready: set<Key>) | BadFd

  predicate Enabled(fds: seq<int>, io: Io, op: Op) {
    match op
    case Poll(r) => Legal(fds, r.pds) && !Queued(io.queue, r.thread)
    case Leave(t) => Queued(io.queue, t)
    case _ => true
  }

  /** _st_find_bad_fd, whose requests are never notified: a descriptor without events is passed over. */
  function HighestOfInterest(queue: seq<Request>): (m: int)
    ensures -1 <= m
  {
    if queue == [] then -1
    else Max(Highest(WithEvents(queue[0].pds)), HighestOfInterest(queue[1..]))
  }

  function WithEvents(pds: seq<PollFd>): seq<PollFd> {
    if pds == [] then []
    else (if pds[0].events == {} then [] else [pds[0]]) + WithEvents(pds[1..])
  }

  lemma {:induction false} WithEventsKeys(pds: seq<PollFd>)
    ensures forall k :: k in Keys(pds) ==> k.fd <= Highest(WithEvents(pds))
  {
    if pds != [] {
      WithEventsKeys(pds[1..]);
      var rest, some := WithEvents(pds[1..]), WithEvents(pds);
      forall k | k in Keys(pds) ensures k.fd <= Highest(some) {
        if k in EventKeys(pds[0]) {
          assert pds[0] in some;
        } else {
          assert k in Keys(pds[1..]);
          assert pds[0].events == {} ==> some == rest;
          assert pds[0].events != {} ==> some[1..] == rest;
        }
      }
    }
  }

  lemma {:induction false} HighestWanted(pds: seq<PollFd>)
    ensures var m := Highest(WithEvents(pds));
            m == -1 || exists i :: 0 <= i < |pds| && pds[i].events != {} && pds[i].fd == m
  {
    if pds != [] {
      HighestWanted(pds[1..]);
      var m, rest := Highest(WithEvents(pds[1..])), WithEvents(pds[1..]);
      WithEventsStep(pds, 0);
      assert pds[0..] == pds;
      assert m == -1 || exists i :: 0 <= i < |pds[1..]| && pds[1..][i] == pds[i + 1] && pds[i + 1].events != {} && pds[i + 1].fd == m;
    }
  }

  lemma {:induction false} BadFdBounds(queue: seq<Request>)
    ensures forall k :: k in Registered(queue) ==> k.fd <= HighestOfInterest(queue)
    ensures HighestOfInterest(queue) == -1
            || exists r, i :: r in queue && 0 <= i < |r.pds| && r.pds[i].events != {} && r.pds[i].fd == HighestOfInterest(queue)
  {
    hide Keys, Highest, WithEvents;
    if queue != [] {
      BadFdBounds(queue[1..]);
      HighestWanted(queue[0].pds);
      WithEventsKeys(queue[0].pds);
      assert forall k :: k in multiset(Keys(queue[0].pds)) ==> k in Keys(queue[0].pds);
    }
  }

  function Step(fds: seq<int>, io: Io, op: Op): (r: Io)
    requires Enabled(fds, io, op)
    requires op.Leave? ==> var q := io.queue[Find(io.queue, op.thread)];
                           Legal(fds, q.pds) && CanDrop(fds, io.interest, Keys(q.pds))
    requires op.Select? ==> CanScan(fds, op.ready, io.queue, Start(io))
  {
    match op
    case Poll(r) => Register(fds, io, r)
    case Leave(t) => Release(fds, io, t)
    case Select(ready) => Notify(fds, io, ready).0
    case BadFd => io.(maxFd := HighestOfInterest(io.queue))
  }

  /** The registrations that an operation makes, and those it releases. */
  function Made(op: Op): multiset<Key> {
    if op.Poll? then multiset(Keys(op.request.pds)) else multiset{}
  }

  function Released(fds: seq<int>, io: Io, op: Op): multiset<Key>
    requires Enabled(fds, io, op)
  {
    match op
    case Leave(t) => multiset(Keys(io.queue[Find(io.queue, t)].pds))
    case Select(ready) => Registered(Ready(fds, ready, io.queue))
    case _ => multiset{}
  }

  /** What a run keeps; no operation decrements a counter that is zero. */
  lemma StepKeeps(fds: seq<int>, io: Io, op: Op)
    requires Injective(fds) && Exact(fds, io) && Enabled(fds, io, op)
    ensures op.Leave? ==> var q := io.queue[Find(io.queue, op.thread)];
                          Legal(fds, q.pds) && CanDrop(fds, io.interest, Keys(q.pds))
    ensures op.Select? ==> CanScan(fds, op.ready, io.queue, Start(io))
    ensures Exact(fds, Step(fds, io, op)) && Counts(fds, Step(fds, io, op))
    ensures Registered(io.queue) + Made(op)
         == Registered(Step(fds, io, op).queue) + Released(fds, io, op)
  {
    hide Injective, Counted, Keys, Register, Release, Notify, Legal, CanDrop, CanScan, Queued, Find, Registered;
    hide HighestOfInterest, OnePerThread, Ready, NotReady, Counts, AnyShows, HighestOf, AskedIn, IsHighest;
    match op
    case Poll(r) => RegisterKeeps(fds, io, r);
    case Leave(t) => ReleaseKeeps(fds, io, t);
    case Select(ready) => NotifyKeeps(fds, io, ready);
    case BadFd =>
      BadFdBounds(io.queue);
      ExactCounts(fds, io.(maxFd := HighestOfInterest(io.queue)));
  }

  ghost predicate IsRun(fds: seq<int>, states: seq<Io>, ops: seq<Op>) {
    && |states| == |ops| + 1 && Exact(fds, states[0]) && states[0].queue == []
    && forall i :: 0 <= i < |ops| ==> Next(fds, states[i], ops[i], states[i + 1])
  }

  /** One step of a run; that it can be taken from an exact state is StepKeeps. */
  ghost predicate Next(fds: seq<int>, io: Io, op: Op, io': Io) {
    && Enabled(fds, io, op)
    && ((op.Leave? ==> var q := io.queue[Find(io.queue, op.thread)];
                       Legal(fds, q.pds) && CanDrop(fds, io.interest, Keys(q.pds)))
        && (op.Select? ==> CanScan(fds, op.ready, io.queue, Start(io)))
        ==> io' == Step(fds, io, op))
  }

  /** The registrations made, and those released, in the first n operations. */
  function TotalMade(ops: seq<Op>, n: nat): multiset<Key>
    requires n <= |ops|
  {
    if n == 0 then multiset{} else TotalMade(ops, n - 1) + Made(ops[n - 1])
  }

  function TotalReleased(fds: seq<int>, states: seq<Io>, ops: seq<Op>, n: nat): multiset<Key>
    requires n <= |ops| <= |states| && forall i :: 0 <= i < |ops| ==> Enabled(fds, states[i], ops[i])
  {
    if n == 0 then multiset{}
    else TotalReleased(fds, states, ops, n - 1) + Released(fds, states[n - 1], ops[n - 1])
  }

  lemma RunEnabled(fds: seq<int>, states: seq<Io>, ops: seq<Op>)
    requires IsRun(fds, states, ops)
    ensures forall i :: 0 <= i < |ops| ==> Enabled(fds, states[i], ops[i])
  {
    hide Exact, Enabled;
    forall i | 0 <= i < |ops| ensures Enabled(fds, states[i], ops[i]) {
      assert Next(fds, states[i], ops[i], states[i + 1]);
    }
  }

  lemma NextKeeps(fds: seq<int>, io: Io, op: Op, io': Io)
    requires Injective(fds) && Exact(fds, io) && Next(fds, io, op, io')
    ensures Exact(fds, io') && Enabled(fds, io, op)
    ensures Registered(io.queue) + Made(op) == Registered(io'.queue) + Released(fds, io, op)
  {
    hide Injective, Exact, Enabled, Step, Made, Released, Legal, CanDrop, CanScan;
    StepKeeps(fds, io, op);
  }

  /**
   In every state of every run the counters and the fd_sets are exact, the highest descriptor bounds every
   descriptor of interest, and each registration was released once or is still counted.
   */
  lemma {:induction false} RunExact(fds: seq<int>, states: seq<Io>, ops: seq<Op>, n: nat)
    requires Injective(fds) && IsRun(fds, states, ops) && n <= |ops|
    ensures Exact(fds, states[n]) && Counts(fds, states[n])
    ensures forall i :: 0 <= i < |ops| ==> Enabled(fds, states[i], ops[i])
    ensures TotalMade(ops, n) == TotalReleased(fds, states, ops, n) + Registered(states[n].queue)
  {
    hide Injective, Exact, Enabled, Next, Made, Released, Keys, Counts;
    RunEnabled(fds, states, ops);
    ExactCounts(fds, states[0]);
    if n > 0 {
      RunExact(fds, states, ops, n - 1);
      assert Next(fds, states[n - 1], ops[n - 1], states[n - 1 + 1]);
      NextKeeps(fds, states[n - 1], ops[n - 1], states[n]);
      Conserve(TotalMade(ops, n - 1), TotalReleased(fds, states, ops, n - 1), Registered(states[n - 1].queue),
               Made(ops[n - 1]), Released(fds, states[n - 1], ops[n - 1]), Registered(states[n].queue));
      ExactCounts(fds, states[n]);
    }
  }

  lemma Conserve(made: multiset<Key>, released: multiset<Key>, regs: multiset<Key>,
                 more: multiset<Key>, gone: multiset<Key>, regs': multiset<Key>)
    requires made == released + regs && regs + more == regs' + gone
    ensures made + more == (released + gone) + regs'
  {
    assert made + more == released + (regs + more);
  }

  // ----- The queue in place -----

  lemma {:induction false} AddKeysConcat(fds: seq<int>, x: Interest, a: seq<Key>, b: seq<Key>)
    requires AllInTable(fds, a) && AllInTable(fds, b)
    ensures AllInTable(fds, a + b)
    ensures AddKeys(fds, x, a + b) == AddKeys(fds, AddKeys(fds, x, a), b)
    decreases a
  {
    hide AddKey;
    if a == [] {
      assert a + b == b;
    } else {
      assert (a + b)[1..] == a[1..] + b;
      AddKeysConcat(fds, AddKey(fds, x, a[0]), a[1..], b);
    }
  }

  lemma {:induction false} DropKeysConcat(fds: seq<int>, x: Interest, a: seq<Key>, b: seq<Key>)
    requires AllInTable(fds, a) && AllInTable(fds, b) && CanDrop(fds, x, a + b)
    ensures CanDrop(fds, x, a) && CanDrop(fds, DropKeys(fds, x, a), b)
    ensures DropKeys(fds, x, a + b) == DropKeys(fds, DropKeys(fds, x, a), b)
    decreases a
  {
    hide DropKey;
    if a == [] {
      assert a + b == b;
    } else {
      assert (a + b)[1..] == a[1..] + b;
      DropKeysConcat(fds, DropKey(fds, x, a[0]), a[1..], b);
    }
  }

  /** The descriptors of a request from i on. */
  lemma LegalFrom(fds: seq<int>, pds: seq<PollFd>, i: nat)
    requires Legal(fds, pds[..]) && i < |pds| && Legal(fds, pds[i..])
    ensures Keys(pds[i..]) == EventKeys(pds[i]) + Keys(pds[i + 1..])
    ensures AllInTable(fds, EventKeys(pds[i])) && Legal(fds, pds[i + 1..])
  {
    hide EventKeys;
    assert pds[i..][1..] == pds[i + 1..];
    var a, b := EventKeys(pds[i]), Keys(pds[i + 1..]);
    assert forall k :: k in a ==> k in a + b;
    assert forall k :: k in b ==> k in a + b;
  }

  /** The three ifs over the events of a descriptor. */
  lemma EventKeysParts(pd: PollFd)
    ensures EventKeys(pd) == KeyIf(pd, Read) + (KeyIf(pd, Write) + KeyIf(pd, Exception))
  {
  }

  function KeyIf(pd: PollFd, e: Event): seq<Key> {
    if e in pd.events then [Key(pd.fd, e)] else []
  }

  class IoQ {
    const fds: seq<int>
    var queue: seq<Request>
    var counts: map<Key, nat>
    var sets: set<Key>
    var maxFd: int

    constructor (fds: seq<int>)
      ensures this.fds == fds && Value() == Io([], Interest(map[], {}), -1)
    {
      this.fds := fds;
      queue, counts, sets, maxFd := [], map[], {}, -1;
    }

    function Interests(): Interest
      reads this
    {
      Interest(counts, sets)
    }

    function Value(): Io
      reads this
    {
      Io(queue, Interests(), maxFd)
    }

    method AddEvent(pd: PollFd, e: Event)
      requires AllInTable(fds, KeyIf(pd, e))
      modifies this`counts, this`sets
      ensures Interests() == AddKeys(fds, old(Interests()), KeyIf(pd, e))
    {
      if e in pd.events {
        var k := Key(pd.fd, e);
        assert KeyIf(pd, e) == [k] && [k][1..] == [];
        assert k in KeyIf(pd, e);
        sets := sets + {Key(fds[pd.fd], e)};
        counts := counts[k := Count(counts, k) + 1];
      }
    }

    method DropEvent(pd: PollFd, e: Event)
      requires AllInTable(fds, KeyIf(pd, e)) && CanDrop(fds, Interests(), KeyIf(pd, e))
      modifies this`counts, this`sets
      ensures Interests() == DropKeys(fds, old(Interests()), KeyIf(pd, e))
    {
      if e in pd.events {
        var k := Key(pd.fd, e);
        assert KeyIf(pd, e) == [k] && [k][1..] == [];
        assert k in KeyIf(pd, e);
        counts := counts[k := Count(counts, k) - 1];
        if counts[k] == 0 {
          sets := sets - {Key(fds[pd.fd], e)};
        }
      }
    }

    method AddEvents(pd: PollFd)
      requires AllInTable(fds, EventKeys(pd))
      modifies this`counts, this`sets
      ensures Interests() == AddKeys(fds, old(Interests()), EventKeys(pd))
    {
      hide *;
      ghost var x, r, w, e := Interests(), KeyIf(pd, Read), KeyIf(pd, Write), KeyIf(pd, Exception);
      EventKeysParts(pd);
      PartsInTable(fds, r, w, e);
      AddKeysConcat(fds, x, r, w + e);
      AddKeysConcat(fds, AddKeys(fds, x, r), w, e);
      AddEvent(pd, Read);
      AddEvent(pd, Write);
      AddEvent(pd, Exception);
    }

    method DropEvents(pd: PollFd)
      requires AllInTable(fds, EventKeys(pd)) && CanDrop(fds, Interests(), EventKeys(pd))
      modifies this`counts, this`sets
      ensures Interests() == DropKeys(fds, old(Interests()), EventKeys(pd))
    {
      hide *;
      ghost var x, r, w, e := Interests(), KeyIf(pd, Read), KeyIf(pd, Write), KeyIf(pd, Exception);
      EventKeysParts(pd);
      PartsInTable(fds, r, w, e);
      DropKeysConcat(fds, x, r, w + e);
      DropKeysConcat(fds, DropKeys(fds, x, r), w, e);
      DropEvent(pd, Read);
      DropEvent(pd, Write);
      DropEvent(pd, Exception);
    }

    /** _st_poll up to the context switch. */
    method Poll(r: Request)
      requires Legal(fds, r.pds) && -1 <= maxFd
      modifies this`queue, this`counts, this`sets, this`maxFd
      ensures Value() == Register(fds, old(Value()), r)
      ensures forall fd, e :: Count(counts, Key(fd, e)) == old(Count(counts, Key(fd, e))) + AskedIn(r.pds, fd, e)
    {
      hide AddKeys, EventKeys, AllInTable, Count, AskedIn;
      ghost var x := Interests();
      var i := 0;
      assert r.pds[0..] == r.pds[..] == r.pds;
      while i < |r.pds|
        invariant 0 <= i <= |r.pds| && Legal(fds, r.pds[i..]) && queue == old(queue)
        invariant AddKeys(fds, x, Keys(r.pds)) == AddKeys(fds, Interests(), Keys(r.pds[i..]))
        invariant -1 <= maxFd && Max(old(maxFd), Highest(r.pds)) == Max(maxFd, Highest(r.pds[i..]))
      {
        LegalFrom(fds, r.pds, i);
        AddKeysConcat(fds, Interests(), EventKeys(r.pds[i]), Keys(r.pds[i + 1..]));
        AddEvents(r.pds[i]);
        assert r.pds[i..][1..] == r.pds[i + 1..];
        maxFd := if maxFd < r.pds[i].fd then r.pds[i].fd else maxFd;
        i := i + 1;
      }
      NoKeys(fds, Interests());
      queue := queue + [r];
      forall fd, e ensures Count(counts, Key(fd, e)) == Count(x.counts, Key(fd, e)) + AskedIn(r.pds, fd, e) {
        AddKeysCount(fds, x, Keys(r.pds), Key(fd, e));
        KeysAsked(r.pds, fd, e);
      }
    }

    /** The loop that takes a request's registrations out. */
    method DropRequest(pds: seq<PollFd>)
      requires Legal(fds, pds) && CanDrop(fds, Interests(), Keys(pds))
      modifies this`counts, this`sets
      ensures Interests() == DropKeys(fds, old(Interests()), Keys(pds))
    {
      hide DropKeys, CanDrop, EventKeys, AllInTable;
      ghost var x := Interests();
      var i := 0;
      assert pds[0..] == pds[..] == pds;
      while i < |pds|
        invariant 0 <= i <= |pds| && Legal(fds, pds[i..]) && CanDrop(fds, Interests(), Keys(pds[i..]))
        invariant DropKeys(fds, x, Keys(pds)) == DropKeys(fds, Interests(), Keys(pds[i..]))
      {
        LegalFrom(fds, pds, i);
        DropKeysConcat(fds, Interests(), EventKeys(pds[i]), Keys(pds[i + 1..]));
        DropEvents(pds[i]);
        i := i + 1;
      }
      NoKeys(fds, Interests());
    }

    /** _st_poll after the context switch, when its request is still on the queue, at i. */
    method Leave(i: nat)
      requires Injective(fds) && Exact(fds, Value()) && i < |queue| && i == Find(queue, queue[i].thread)
      modifies this`queue, this`counts, this`sets
      ensures Exact(fds, Value())
      ensures Legal(fds, old(queue[i].pds)) && CanDrop(fds, old(Interests()), Keys(old(queue[i].pds)))
      ensures Value() == Release(fds, old(Value()), old(queue[i].thread))
    {
      hide Exact, Keys, DropKeys, CanDrop, Legal, Injective, Counts, Registered;
      ghost var t := queue[i].thread;
      ReleaseKeeps(fds, Value(), t);
      var r := queue[i];
      queue := queue[..i] + queue[i + 1..];
      DropRequest(r.pds);
    }

    /** _st_find_bad_fd */
    method FindBadFd()
      modifies this`maxFd
      ensures Value() == old(Value()).(maxFd := HighestOfInterest(queue))
    {
      hide Highest, WithEvents;
      maxFd := -1;
      var i := 0;
      assert queue[0..] == queue;
      while i < |queue|
        invariant 0 <= i <= |queue| && -1 <= maxFd
        invariant Max(maxFd, HighestOfInterest(queue[i..])) == HighestOfInterest(queue)
      {
        assert queue[i..][1..] == queue[i + 1..];
        var highest := HighestWithEvents(queue[i].pds);
        if maxFd < highest {
          maxFd := highest;
        }
        i := i + 1;
      }
      assert queue[i..] == [];
    }

    method HighestWithEvents(pds: seq<PollFd>) returns (highest: int)
      ensures highest == Highest(WithEvents(pds))
    {
      highest := -1;
      var i := 0;
      assert pds[0..] == pds;
      while i < |pds|
        invariant 0 <= i <= |pds| && -1 <= highest
        invariant Max(highest, Highest(WithEvents(pds[i..]))) == Highest(WithEvents(pds))
      {
        WithEventsStep(pds, i);
        if pds[i].events != {} && highest < pds[i].fd {
          highest := pds[i].fd;
        }
        i := i + 1;
      }
      assert pds[i..] == [];
    }

    /** The first loop of _st_vp_idle over the descriptors of a request. */
    method Look(ready: set<Key>, pds: seq<PollFd>) returns (notify: bool, highest: int)
      requires Legal(fds, pds)
      ensures notify == IsReady(fds, ready, pds) && (notify <==> AnyShows(fds, ready, pds))
      ensures highest == Highest(pds)
    {
      hide Shows, AnyShows;
      notify, highest := false, -1;
      var i := 0;
      assert pds[0..] == pds;
      while i < |pds|
        invariant 0 <= i <= |pds|
        invariant -1 <= highest && Max(highest, Highest(pds[i..])) == Highest(pds)
        invariant notify <==> exists j :: 0 <= j < i && Revents(fds, ready, pds[j]) != {}
      {
        assert pds[i..][1..] == pds[i + 1..];
        if Revents(fds, ready, pds[i]) != {} {
          notify := true;
        }
        if highest < pds[i].fd {
          highest := pds[i].fd;
        }
        i := i + 1;
      }
      assert pds[i..] == [];
      ReadyShows(fds, ready, pds);
    }

    /** _st_vp_idle, once select has found the sockets that are ready. */
    method Idle(ready: set<Key>) returns (notified: seq<Request>)
      requires Injective(fds) && Exact(fds, Value())
      modifies this`queue, this`counts, this`sets, this`maxFd
      ensures Exact(fds, Value())
      ensures notified == Ready(fds, ready, old(queue))
      ensures CanScan(fds, ready, old(queue), Start(old(Value())))
      ensures (Value(), notified) == Notify(fds, old(Value()), ready)
      ensures forall r :: r in notified <==> r in old(queue) && AnyShows(fds, ready, r.pds)
      ensures Counts(fds, Value())
    {
      hide AnyShows, Counts, HighestOf;
      hide Exact, Ready, NotReady, Registered, Injective, Keys, DropKeys, CanDrop, IsReady, Highest;
      ghost var io := Value();
      NotifyKeeps(fds, io, ready);
      maxFd, notified := -1, [];
      var kept, todo := [], queue;
      while todo != []
        invariant CanScan(fds, ready, todo, Scan(kept, notified, Interests(), maxFd))
        invariant ScanAll(fds, ready, todo, Scan(kept, notified, Interests(), maxFd))
               == ScanAll(fds, ready, io.queue, Start(io))
        decreases todo
      {
        var r := todo[0];
        var notify, highest := Look(ready, r.pds);
        if notify {
          DropRequest(r.pds);
          notified := notified + [r];
        } else {
          kept := kept + [r];
          maxFd := if maxFd < highest then highest else maxFd;
        }
        todo := todo[1..];
      }
      queue := kept;
    }
  }

  lemma PartsInTable(fds: seq<int>, r: seq<Key>, w: seq<Key>, e: seq<Key>)
    requires AllInTable(fds, r + (w + e))
    ensures AllInTable(fds, r) && AllInTable(fds, w + e) && AllInTable(fds, w) && AllInTable(fds, e)
  {
    assert forall k :: k in r || k in w + e ==> k in r + (w + e);
    assert forall k :: k in w || k in e ==> k in w + e;
  }

  lemma WithEventsStep(pds: seq<PollFd>, i: nat)
    requires i < |pds|
    ensures Highest(WithEvents(pds[i..]))
         == if pds[i].events == {} then Highest(WithEvents(pds[i + 1..]))
            else Max(pds[i].fd, Highest(WithEvents(pds[i + 1..])))
  {
    assert pds[i..][1..] == pds[i + 1..];
    var rest := WithEvents(pds[i + 1..]);
    assert [] + rest == rest && ([pds[i]] + rest)[1..] == rest;
  }

  lemma NoKeys(fds: seq<int>, x: Interest)
    ensures Keys([]) == [] && AllInTable(fds, []) && AddKeys(fds, x, []) == x
    ensures CanDrop(fds, x, []) && DropKeys(fds, x, []) == x
  {
  }
}
