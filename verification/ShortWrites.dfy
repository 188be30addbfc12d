/**
 Reading and writing in full over an operating system that takes or gives a part at a time, is not ready,
 or is interrupted: st_write, st_writev and st_read_fully of io.c.
 */
module ShortWrites {
  type Byte = bv8

  /** What one call of write, writev or read does: it moves up to n bytes, or fails. */
  datatype Event = Moves(n: nat) | Interrupts | NotReady | Fails

  /** The ends of the calls to come, and of the waits for the socket; when they run out the socket fails. */
  datatype Script = Script(events: seq<Event>, polls: seq<bool>)

  /** How many bytes were moved, whether the call succeeded, and what is left of the script. */
  datatype Flow = Flow(moved: nat, ok: bool, rest: Script)

  function Min(a: nat, b: nat): nat {
    if a < b then a else b
  }

  function After(k: nat, f: Flow): Flow {
    f.(moved := k + f.moved)
  }

  /** Wait for the socket, then move what is left. */
  function WaitFlow(s: Script, left: nat): (f: Flow)
    ensures f.moved <= left && (f.ok ==> f.moved == left)
    decreases |s.events|, 1
  {
    if s.polls == [] then Flow(0, false, s)
    else if !s.polls[0] then Flow(0, false, s.(polls := s.polls[1..]))
    else WriteFlow(s.(polls := s.polls[1..]), left)
  }

  /** Writing in full: a call that is interrupted is made again at once, one that moves too little after a wait. */
  function WriteFlow(s: Script, left: nat): (f: Flow)
    ensures f.moved <= left && (f.ok ==> f.moved == left)
    decreases |s.events|, 0
  {
    if left == 0 then Flow(0, true, s)
    else if s.events == [] then Flow(0, false, s)
    else
      var s1 := s.(events := s.events[1..]);
      match s.events[0]
      case Interrupts => WriteFlow(s1, left)
      case Fails => Flow(0, false, s1)
      case NotReady => WaitFlow(s1, left)
      case Moves(n) =>
        if n >= left then Flow(left, true, s1) else After(n, WaitFlow(s1, left - n))
  }

  /** rest is what is left of s. */
  predicate EndsIn(s: Script, rest: Script) {
    && |rest.events| <= |s.events| && s.events[|s.events| - |rest.events|..] == rest.events
    && |rest.polls| <= |s.polls| && s.polls[|s.polls| - |rest.polls|..] == rest.polls
  }

  /** What happened until then. */
  function Used(s: Script, rest: Script): Script
    requires EndsIn(s, rest)
  {
    Script(s.events[..|s.events| - |rest.events|], s.polls[..|s.polls| - |rest.polls|])
  }

  predicate HasFailure(used: Script) {
    Fails in used.events || false in used.polls
  }

  /** Something that was reached failed, or what comes next is past the end of the script. */
  predicate Explained(s: Script, left: nat, f: Flow) {
    && EndsIn(s, f.rest)
    && (f.ok <==> f.moved == left)
    && (HasFailure(Used(s, f.rest)) ==> !f.ok)
    && (!f.ok ==> HasFailure(Used(s, f.rest)) || f.rest.events == [] || f.rest.polls == [])
  }

  lemma OneMoreEvent(s: Script, rest: Script)
    requires s.events != [] && EndsIn(s.(events := s.events[1..]), rest)
    ensures EndsIn(s, rest) && Used(s, rest).polls == Used(s.(events := s.events[1..]), rest).polls
    ensures Used(s, rest).events == [s.events[0]] + Used(s.(events := s.events[1..]), rest).events
  {
  }

  lemma OneMorePoll(s: Script, rest: Script)
    requires s.polls != [] && EndsIn(s.(polls := s.polls[1..]), rest)
    ensures EndsIn(s, rest) && Used(s, rest).events == Used(s.(polls := s.polls[1..]), rest).events
    ensures Used(s, rest).polls == [s.polls[0]] + Used(s.(polls := s.polls[1..]), rest).polls
  {
  }

  lemma NothingUsed(s: Script, left: nat)
    ensures Explained(s, 0, Flow(0, true, s))
    ensures left > 0 && s.events == [] ==> Explained(s, left, Flow(0, false, s))
  {
  }

  lemma FailsAtOnce(s: Script, left: nat)
    requires left > 0 && s.events != [] && s.events[0] == Fails
    ensures Explained(s, left, Flow(0, false, s.(events := s.events[1..])))
  {
    hide EndsIn, Used;
    NothingUsed(s.(events := s.events[1..]), left);
    OneMoreEvent(s, s.(events := s.events[1..]));
  }

  /** A call that did not fail, and moved n bytes, before all that. */
  lemma ExplainedFurther(s: Script, n: nat, left: nat, f: Flow)
    requires s.events != [] && s.events[0] != Fails && Explained(s.(events := s.events[1..]), left, f)
    ensures Explained(s, n + left, After(n, f))
  {
    hide EndsIn, Used;
    OneMoreEvent(s, f.rest);
  }

  /**
   A write fails if a call or a wait that it reached failed, and only then or because the script has no more
   for it; otherwise it sends everything.
   */
  lemma {:induction false} FailsForAReason(s: Script, left: nat)
    ensures Explained(s, left, WriteFlow(s, left))
    decreases |s.events|, 0
  {
    hide Explained, WaitFlow;
    NothingUsed(s, left);
    if left > 0 && s.events != [] {
      var s1 := s.(events := s.events[1..]);
      match s.events[0]
      case Interrupts =>
        FailsForAReason(s1, left);
        ExplainedFurther(s, 0, left, WriteFlow(s1, left));
      case Fails => FailsAtOnce(s, left);
      case NotReady =>
        WaitFailsForAReason(s1, left);
        ExplainedFurther(s, 0, left, WaitFlow(s1, left));
      case Moves(n) =>
        if n < left {
          WaitFailsForAReason(s1, left - n);
          ExplainedFurther(s, n, left - n, WaitFlow(s1, left - n));
        } else {
          NothingUsed(s1, left);
          ExplainedFurther(s, left, 0, Flow(0, true, s1));
        }
    }
  }

  lemma {:induction false} WaitFailsForAReason(s: Script, left: nat)
    requires left > 0
    ensures Explained(s, left, WaitFlow(s, left))
    decreases |s.events|, 1
  {
    if s.polls != [] {
      if s.polls[0] {
        FailsForAReason(s.(polls := s.polls[1..]), left);
      }
      OneMorePoll(s, WaitFlow(s, left).rest);
    }
  }

  // ----- Exactly when a write succeeds -----

  /** What the calls of these events move, if they are asked for enough. */
  function Sum(events: seq<Event>): nat {
    if events == [] then 0
    else Sum(events[..|events| - 1]) + (if events[|events| - 1].Moves? then events[|events| - 1].n else 0)
  }

  /** After a call that moved a part, or found the socket not ready, there is a wait; after an interrupt there is none. */
  function Waits(events: seq<Event>): nat {
    if events == [] then 0
    else
      var e := events[|events| - 1];
      Waits(events[..|events| - 1]) + (if e.Moves? || e.NotReady? then 1 else 0)
  }

  /** The waits that come after the first n events succeed. */
  predicate Waited(s: Script, n: nat)
    requires n <= |s.events|
  {
    Waits(s.events[..n]) <= |s.polls| && forall i :: 0 <= i < Waits(s.events[..n]) ==> s.polls[i]
  }

  /** The k-th call completes the write: no call failed, it is the first with which enough was moved, every wait before succeeded. */
  predicate Completes(s: Script, left: nat, k: nat) {
    && 0 < k <= |s.events| && Fails !in s.events[..k]
    && Sum(s.events[..k - 1]) < left <= Sum(s.events[..k]) && Waited(s, k - 1)
  }

  lemma SumFirst(e: Event, events: seq<Event>)
    ensures Sum([e] + events) == (if e.Moves? then e.n else 0) + Sum(events)
    ensures Waits([e] + events) == (if e.Moves? || e.NotReady? then 1 else 0) + Waits(events)
    decreases |events|
  {
    var all := [e] + events;
    if events == [] {
      assert all[..|all| - 1] == [];
    } else {
      assert all[..|all| - 1] == [e] + events[..|events| - 1];
      SumFirst(e, events[..|events| - 1]);
    }
  }

  /** The script after its first event. */
  lemma SumFrom(s: Script, n: nat)
    requires 0 < n <= |s.events|
    ensures var e, s1 := s.events[0], s.events[1..];
            && Sum(s.events[..n]) == (if e.Moves? then e.n else 0) + Sum(s1[..n - 1])
            && Waits(s.events[..n]) == (if e.Moves? || e.NotReady? then 1 else 0) + Waits(s1[..n - 1])
            && (Fails in s.events[..n] <==> e == Fails || Fails in s1[..n - 1])
  {
    hide Sum, Waits;
    assert s.events[..n] == [s.events[0]] + s.events[1..][..n - 1];
    SumFirst(s.events[0], s.events[1..][..n - 1]);
  }

  lemma SumNone()
    ensures Sum([]) == 0 && Waits([]) == 0
  {
  }

  /** What is left of the script once the k-th call has completed the write. */
  function Completed(s: Script, k: nat): Script
    requires 0 < k <= |s.events| && Waited(s, k - 1)
  {
    Script(s.events[k..], s.polls[Waits(s.events[..k - 1])..])
  }

  /** If some call completes it, the write sends everything and stops there. */
  lemma {:induction false} CompletedWrite(s: Script, left: nat, k: nat)
    requires Completes(s, left, k)
    ensures WriteFlow(s, left) == Flow(left, true, Completed(s, k))
    decreases |s.events|
  {
    hide Sum, Waits;
    SumNone();
    var e, s1 := s.events[0], s.(events := s.events[1..]);
    assert s.events[..0] == [];
    SumFrom(s, k);
    if k == 1 {
      assert s1.events[..0] == [];
      assert s.polls[0..] == s.polls;
    } else {
      SumFrom(s, k - 1);
      var s2 := if e.Interrupts? then s1 else s1.(polls := s.polls[1..]);
      var left' := left - (if e.Moves? then e.n else 0);
      WaitedLater(s, s2, k - 1);
      assert s2.events[..k - 1] == s1.events[..k - 1] && s2.events[..k - 2] == s1.events[..k - 2];
      CompletedWrite(s2, left', k - 1);
      CompletedLater(s, s2, k);
    }
  }

  lemma WaitedLater(s: Script, s2: Script, n: nat)
    requires 0 < n <= |s.events| && Waited(s, n) && s2.events == s.events[1..] && s.events[0] != Fails
    requires s2.polls == (if s.events[0].Interrupts? || s.polls == [] then s.polls else s.polls[1..])
    ensures Waited(s2, n - 1)
    ensures !s.events[0].Interrupts? ==> s.polls != [] && s.polls[0]
  {
    hide Sum, Waits;
    SumFrom(s, n);
  }

  lemma CompletedLater(s: Script, s2: Script, k: nat)
    requires 1 < k <= |s.events| && Waited(s, k - 1) && s2.events == s.events[1..] && s.events[0] != Fails
    requires s2.polls == (if s.events[0].Interrupts? || s.polls == [] then s.polls else s.polls[1..]) && Waited(s2, k - 2)
    ensures Completed(s, k) == Completed(s2, k - 1)
  {
    hide Sum, Waits;
    SumFrom(s, k - 1);
  }

  /** A write that succeeds was completed by some call. */
  lemma {:induction false} WriteCompletes(s: Script, left: nat) returns (k: nat)
    requires left > 0 && WriteFlow(s, left).ok
    ensures Completes(s, left, k)
    decreases |s.events|
  {
    hide Sum, Waits;
    SumNone();
    var e, s1 := s.events[0], s.(events := s.events[1..]);
    assert s.events[..0] == [];
    if e.Moves? && e.n >= left {
      k := 1;
      SumFrom(s, 1);
      assert s1.events[..0] == [];
    } else {
      var s2 := if e.Interrupts? then s1 else s1.(polls := s.polls[1..]);
      var k1 := WriteCompletes(s2, left - (if e.Moves? then e.n else 0));
      k := k1 + 1;
      SumFrom(s, k);
      SumFrom(s, k - 1);
      assert s2.events[..k1] == s1.events[..k1] && s2.events[..k1 - 1] == s1.events[..k1 - 1];
      WaitedSooner(s, s2, k - 1);
    }
  }

  lemma WaitedSooner(s: Script, s2: Script, n: nat)
    requires 0 < n <= |s.events| && s2.events == s.events[1..] && s.events[0] != Fails && Waited(s2, n - 1)
    requires s2.polls == if s.events[0].Interrupts? then s.polls else if s.polls == [] then [] else s.polls[1..]
    requires !s.events[0].Interrupts? ==> s.polls != [] && s.polls[0]
    ensures Waited(s, n)
  {
    hide Sum, Waits;
    SumFrom(s, n);
  }

  /**
   A write succeeds exactly if some call completes it: no call up to it failed, with it enough was moved and not
   before, and there was one wait, which succeeded, after each earlier call that moved a part or was not ready.
   */
  lemma SucceedsExactly(s: Script, left: nat)
    requires left > 0
    ensures WriteFlow(s, left).ok <==> exists k :: Completes(s, left, k)
    ensures forall k :: Completes(s, left, k) ==> WriteFlow(s, left) == Flow(left, true, Completed(s, k))
  {
    hide WriteFlow, Completed, Sum, Waits;
    if WriteFlow(s, left).ok {
      var k := WriteCompletes(s, left);
    }
    forall k | Completes(s, left, k) ensures WriteFlow(s, left) == Flow(left, true, Completed(s, k)) {
      CompletedWrite(s, left, k);
    }
  }

  // ----- Reading -----

  /** Reading in full: it ends early when the other side has no more to give, and waits after a part. */
  function ReadFlow(s: Script, left: nat, available: nat): (f: Flow)
    ensures f.moved <= left && f.moved <= available
    ensures f.ok ==> f.moved == left || f.moved == available || !(forall n :: Moves(n) in s.events ==> n > 0)
    decreases |s.events|, 0
  {
    if left == 0 then Flow(0, true, s)
    else if s.events == [] then Flow(0, false, s)
    else
      var s1 := s.(events := s.events[1..]);
      match s.events[0]
      case Interrupts => ReadFlow(s1, left, available)
      case Fails => Flow(0, false, s1)
      case NotReady => ReadWaitFlow(s1, left, available)
      case Moves(m) =>
        var n := Min(m, Min(left, available));
        if n == left || n == 0 then Flow(n, true, s1)
        else After(n, ReadWaitFlow(s1, left - n, available - n))
  }

  function ReadWaitFlow(s: Script, left: nat, available: nat): (f: Flow)
    ensures f.moved <= left && f.moved <= available
    ensures f.ok ==> f.moved == left || f.moved == available || !(forall n :: Moves(n) in s.events ==> n > 0)
    decreases |s.events|, 1
  {
    if s.polls == [] then Flow(0, false, s)
    else if !s.polls[0] then Flow(0, false, s.(polls := s.polls[1..]))
    else ReadFlow(s.(polls := s.polls[1..]), left, available)
  }

  /** The j-th call reads the last byte asked for, or nothing. */
  predicate StopsRead(events: seq<Event>, j: nat, left: nat, available: nat)
    requires 0 < j <= |events|
  {
    events[j - 1].Moves?
    && (events[j - 1].n == 0 || Sum(events[..j - 1]) >= available || Min(Sum(events[..j]), available) >= left)
  }

  /** The k-th call is the first that ends the read; no call failed and every wait before succeeded. */
  predicate EndsRead(s: Script, left: nat, available: nat, k: nat) {
    && 0 < k <= |s.events| && Fails !in s.events[..k] && Waited(s, k - 1) && StopsRead(s.events, k, left, available)
    && forall j :: 0 < j < k ==> !StopsRead(s.events, j, left, available)
  }

  /** An event that does not end the read, before the others. */
  lemma StopsLater(s: Script, j: nat, left: nat, available: nat)
    requires 1 < j <= |s.events| && left > 0 && !StopsRead(s.events, 1, left, available)
    ensures var n := if s.events[0].Moves? then Min(s.events[0].n, Min(left, available)) else 0;
            n < left && n <= available
            && (StopsRead(s.events, j, left, available) <==> StopsRead(s.events[1..], j - 1, left - n, available - n))
  {
    hide Sum, Waits;
    SumNone();
    SumFrom(s, 1);
    SumFrom(s, j);
    SumFrom(s, j - 1);
    assert s.events[..0] == [] && s.events[1..][..0] == [];
  }

  lemma FirstStops(s: Script, left: nat, available: nat)
    requires s.events != [] && left > 0
    ensures var e := s.events[0];
            StopsRead(s.events, 1, left, available)
            <==> e.Moves? && (Min(e.n, Min(left, available)) == left || Min(e.n, Min(left, available)) == 0)
  {
    hide Sum, Waits;
    SumNone();
    SumFrom(s, 1);
    assert s.events[..0] == [] && s.events[1..][..0] == [];
  }

  /** The script after an event that neither fails nor ends the read: s2, with that many bytes less to read. */
  predicate GoesOn(s: Script, s2: Script, left: nat, available: nat, left2: nat, available2: nat) {
    && left > 0 && s.events != [] && s.events[0] != Fails && !StopsRead(s.events, 1, left, available)
    && s2.events == s.events[1..]
    && s2.polls == (if s.events[0].Interrupts? || s.polls == [] then s.polls else s.polls[1..])
    && var n := if s.events[0].Moves? then Min(s.events[0].n, Min(left, available)) else 0;
       left2 == left - n && available2 == available - n
  }

  lemma EndsLater(s: Script, s2: Script, left: nat, available: nat, left2: nat, available2: nat, k: nat)
    requires GoesOn(s, s2, left, available, left2, available2) && 1 < k && EndsRead(s, left, available, k)
    ensures EndsRead(s2, left2, available2, k - 1) && left2 > 0 && Completed(s, k) == Completed(s2, k - 1)
    ensures !s.events[0].Interrupts? ==> s.polls != [] && s.polls[0]
    ensures Min(Sum(s.events[..k]), Min(left, available)) == left - left2 + Min(Sum(s2.events[..k - 1]), Min(left2, available2))
  {
    hide Sum, Waits, StopsRead, Completed, Waited;
    SumFrom(s, k);
    WaitedLater(s, s2, k - 1);
    StopsLater(s, k, left, available);
    forall j | 0 < j < k - 1 ensures !StopsRead(s2.events, j, left2, available2) {
      StopsLater(s, j + 1, left, available);
    }
    CompletedLater(s, s2, k);
  }

  lemma EndsSooner(s: Script, s2: Script, left: nat, available: nat, left2: nat, available2: nat, k: nat)
    requires GoesOn(s, s2, left, available, left2, available2) && EndsRead(s2, left2, available2, k)
    requires !s.events[0].Interrupts? ==> s.polls != [] && s.polls[0]
    ensures EndsRead(s, left, available, k + 1)
  {
    hide Sum, Waits, StopsRead, Waited;
    SumFrom(s, k + 1);
    WaitedSooner(s, s2, k);
    StopsLater(s, k + 1, left, available);
    forall j | 0 < j < k + 1 ensures !StopsRead(s.events, j, left, available) {
      if j > 1 {
        StopsLater(s, j, left, available);
      }
    }
  }

  /** If some call ends it, the read stops there and has what was moved, up to what was asked for and there is. */
  lemma {:induction false} EndedRead(s: Script, left: nat, available: nat, k: nat)
    requires left > 0 && EndsRead(s, left, available, k)
    ensures ReadFlow(s, left, available) == Flow(Min(Sum(s.events[..k]), Min(left, available)), true, Completed(s, k))
    decreases |s.events|
  {
    hide Sum, Waits, StopsRead, Completed, Waited;
    var e, s1 := s.events[0], s.(events := s.events[1..]);
    FirstStops(s, left, available);
    if k == 1 {
      OneCall(s);
    } else {
      assert !StopsRead(s.events, 1, left, available);
      var n := if e.Moves? then Min(e.n, Min(left, available)) else 0;
      var s2 := if e.Interrupts? || s.polls == [] then s1 else s1.(polls := s.polls[1..]);
      EndsLater(s, s2, left, available, left - n, available - n, k);
      EndedRead(s2, left - n, available - n, k - 1);
    }
  }

  lemma OneCall(s: Script)
    requires s.events != [] && Waited(s, 0)
    ensures Sum(s.events[..1]) == (if s.events[0].Moves? then s.events[0].n else 0)
    ensures Completed(s, 1) == s.(events := s.events[1..])
  {
    SumNone();
    SumFrom(s, 1);
    assert s.events[..0] == [] && s.events[1..][..0] == [] && s.polls[0..] == s.polls;
  }

  /** A read that succeeds was ended by some call. */
  lemma {:induction false} ReadEnds(s: Script, left: nat, available: nat) returns (k: nat)
    requires left > 0 && ReadFlow(s, left, available).ok
    ensures EndsRead(s, left, available, k)
    decreases |s.events|
  {
    hide Sum, Waits, StopsRead, Waited;
    var e, s1 := s.events[0], s.(events := s.events[1..]);
    FirstStops(s, left, available);
    if StopsRead(s.events, 1, left, available) {
      k := 1;
      NoWait(s);
    } else {
      var n := if e.Moves? then Min(e.n, Min(left, available)) else 0;
      var s2 := if e.Interrupts? then s1 else s1.(polls := s.polls[1..]);
      var k1 := ReadEnds(s2, left - n, available - n);
      k := k1 + 1;
      EndsSooner(s, s2, left, available, left - n, available - n, k1);
    }
  }

  lemma NoWait(s: Script)
    requires s.events != []
    ensures Waited(s, 0) && (s.events[0] != Fails ==> Fails !in s.events[..1])
  {
    SumNone();
    assert s.events[..0] == [];
  }

  /**
   A read succeeds exactly if some call ends it: it brings the last byte or none, no call up to it failed, and there
   was one wait, which succeeded, after each earlier call that moved a part or was not ready.
   */
  lemma ReadsExactly(s: Script, left: nat, available: nat)
    requires left > 0
    ensures ReadFlow(s, left, available).ok <==> exists k: nat :: EndsRead(s, left, available, k)
    ensures forall k: nat :: EndsRead(s, left, available, k) ==>
              ReadFlow(s, left, available) == Flow(Min(Sum(s.events[..k]), Min(left, available)), true, Completed(s, k))
  {
    hide ReadFlow, Completed, Sum, Waits, StopsRead;
    if ReadFlow(s, left, available).ok {
      var k := ReadEnds(s, left, available);
    }
    forall k: nat | EndsRead(s, left, available, k)
      ensures ReadFlow(s, left, available) == Flow(Min(Sum(s.events[..k]), Min(left, available)), true, Completed(s, k))
    {
      EndedRead(s, left, available, k);
    }
  }

  /** What a call of the operating system returns to a caller that asks for `asked` bytes. */
  function Called(s: Script, asked: nat): Call {
    if s.events == [] then Broken
    else match s.events[0]
         case Moves(n) => Moved(Min(n, asked))
         case Interrupts => Again
         case NotReady => Later
         case Fails => Broken
  }

  datatype Call = Moved(n: nat) | Again | Later | Broken

  /** The script after that call. */
  function Next(s: Script): Script {
    if s.events == [] then s else s.(events := s.events[1..])
  }

  /** What a round of a writing loop makes of it. */
  lemma WriteStep(s: Script, left: nat)
    requires left > 0
    ensures var r, s1 := Called(s, left), Next(s);
            && (r.Moved? ==> r.n <= left)
            && (!r.Broken? ==> |s1.events| < |s.events|)
            && WriteFlow(s, left) == match r
                                     case Again => WriteFlow(s1, left)
                                     case Broken => Flow(0, false, s1)
                                     case Later => WaitFlow(s1, left)
                                     case Moved(n) => if n == left then Flow(left, true, s1)
                                                      else After(n, WaitFlow(s1, left - n))
  {
  }

  lemma WriteNone(s: Script)
    ensures WriteFlow(s, 0) == Flow(0, true, s)
  {
  }

  lemma WaitStep(s: Script, left: nat)
    ensures var ok, s1 := s.polls != [] && s.polls[0], if s.polls == [] then s else s.(polls := s.polls[1..]);
            WaitFlow(s, left) == if ok then WriteFlow(s1, left) else Flow(0, false, s1)
  {
  }

  lemma ReadNone(s: Script, available: nat)
    ensures ReadFlow(s, 0, available) == Flow(0, true, s)
  {
  }

  lemma ReadStep(s: Script, left: nat, available: nat)
    requires left > 0
    ensures var r, s1 := Called(s, Min(left, available)), Next(s);
            && (!r.Broken? ==> |s1.events| < |s.events|)
            && ReadFlow(s, left, available) == match r
                                               case Again => ReadFlow(s1, left, available)
                                               case Broken => Flow(0, false, s1)
                                               case Later => ReadWaitFlow(s1, left, available)
                                               case Moved(n) =>
                                                 if n == left || n == 0 then Flow(n, true, s1)
                                                 else After(n, ReadWaitFlow(s1, left - n, available - n))
  {
  }

  lemma ReadWaitStep(s: Script, left: nat, available: nat)
    ensures var ok, s1 := s.polls != [] && s.polls[0], if s.polls == [] then s else s.(polls := s.polls[1..]);
            ReadWaitFlow(s, left, available) == if ok then ReadFlow(s1, left, available) else Flow(0, false, s1)
  {
  }

  /** A piece of memory: an iovec's base and length. */
  datatype Vec = Vec(data: seq<Byte>)

  function Bytes(iov: seq<Vec>): seq<Byte> {
    if iov == [] then [] else iov[0].data + Bytes(iov[1..])
  }

  lemma {:induction false} BytesConcat(a: seq<Vec>, b: seq<Vec>)
    ensures Bytes(a + b) == Bytes(a) + Bytes(b)
  {
    if a == [] {
      assert a + b == b;
    } else {
      assert (a + b)[1..] == a[1..] + b;
      BytesConcat(a[1..], b);
    }
  }

  lemma BytesOne(v: Vec)
    ensures Bytes([v]) == v.data
  {
    assert [v][1..] == [];
  }

  lemma SplitAt(iov: seq<Vec>, i: nat)
    requires i < |iov|
    ensures iov[..i + 1] == iov[..i] + [iov[i]]
    ensures iov == iov[..i] + ([iov[i]] + iov[i + 1..])
  {
  }

  lemma BytesSplit(iov: seq<Vec>, i: nat)
    requires i < |iov|
    ensures Bytes(iov[..i + 1]) == Bytes(iov[..i]) + iov[i].data
    ensures Bytes(iov) == Bytes(iov[..i]) + Bytes([iov[i]] + iov[i + 1..])
    ensures Bytes([iov[i]] + iov[i + 1..]) == iov[i].data + Bytes(iov[i + 1..])
  {
    hide Bytes;
    SplitAt(iov, i);
    BytesConcat(iov[..i], [iov[i]]);
    BytesConcat(iov[..i], [iov[i]] + iov[i + 1..]);
    BytesConcat([iov[i]], iov[i + 1..]);
    BytesOne(iov[i]);
  }

  /** Cut into a vector: what is left of it, and the vectors after it. */
  lemma BytesCut(iov: seq<Vec>, i: nat, n: nat)
    requires i < |iov| && n <= |iov[i].data|
    ensures |Bytes(iov[..i])| + n <= |Bytes(iov)|
    ensures Bytes([Vec(iov[i].data[n..])] + iov[i + 1..]) == Bytes(iov)[|Bytes(iov[..i])| + n..]
  {
    hide Bytes;
    BytesSplit(iov, i);
    BytesConcat([Vec(iov[i].data[n..])], iov[i + 1..]);
    BytesOne(Vec(iov[i].data[n..]));
    DropInto(Bytes(iov[..i]), iov[i].data, Bytes(iov[i + 1..]), n);
  }

  lemma DropInto(a: seq<Byte>, b: seq<Byte>, c: seq<Byte>, n: nat)
    requires n <= |b|
    ensures (a + (b + c))[|a| + n..] == b[n..] + c
  {
  }

  // ----- When st_writev runs out of memory -----

  /** The slots of st_writev's own array. */
  const LOCAL_MAXIOV := 16

  /** How many vectors the first `written` bytes fill; the next one is the first with a byte left. */
  function Unwritten(iov: seq<Vec>, written: nat): (i: nat)
    ensures i <= |iov|
  {
    if iov == [] || written < |iov[0].data| then 0 else 1 + Unwritten(iov[1..], written - |iov[0].data|)
  }

  lemma {:induction false} UnwrittenAt(iov: seq<Vec>, written: nat, i: nat)
    requires i < |iov| && |Bytes(iov[..i])| <= written < |Bytes(iov[..i])| + |iov[i].data|
    ensures Unwritten(iov, written) == i
  {
    if i == 0 {
      assert iov[..0] == [];
    } else {
      assert iov[..i][1..] == iov[1..][..i - 1];
      UnwrittenAt(iov[1..], written - |iov[0].data|, i - 1);
    }
  }

  /** The first call that moves only a part: how much, and what is left of the script then. */
  datatype Part = Part(n: nat, rest: Script) | NoPart

  function FirstPart(s: Script, left: nat): Part
    decreases |s.events|, 0
  {
    if left == 0 || s.events == [] then NoPart
    else
      var s1 := s.(events := s.events[1..]);
      match s.events[0]
      case Interrupts => FirstPart(s1, left)
      case Fails => NoPart
      case NotReady => WaitPart(s1, left)
      case Moves(n) => if n >= left then NoPart else Part(n, s1)
  }

  function WaitPart(s: Script, left: nat): Part
    decreases |s.events|, 1
  {
    if s.polls == [] || !s.polls[0] then NoPart else FirstPart(s.(polls := s.polls[1..]), left)
  }

  /** At the first part more vectors are left than st_writev has slots, and there is no memory for them. */
  predicate Starved(iov: seq<Vec>, s: Script, memory: bool) {
    var p := FirstPart(s, |Bytes(iov)|);
    p.Part? && !memory && |iov| - Unwritten(iov, p.n) > 16
  }

  /** What a round of st_writev makes of the first part. */
  lemma PartStep(s: Script, left: nat)
    requires left > 0
    ensures var s1 := Next(s);
            FirstPart(s, left) == match Called(s, left)
                                  case Again => FirstPart(s1, left)
                                  case Broken => NoPart
                                  case Later => WaitPart(s1, left)
                                  case Moved(n) => if n == left then NoPart else Part(n, s1)
  {
  }

  lemma WaitPartStep(s: Script, left: nat)
    ensures WaitPart(s, left) == if s.polls != [] && s.polls[0] then FirstPart(s.(polls := s.polls[1..]), left) else NoPart
  {
  }

  lemma FewEnough(iov: seq<Vec>, s: Script, memory: bool)
    requires FirstPart(s, |Bytes(iov)|).NoPart? || memory || |iov| <= LOCAL_MAXIOV
             || |iov| - Unwritten(iov, FirstPart(s, |Bytes(iov)|).n) <= LOCAL_MAXIOV
    ensures !Starved(iov, s, memory)
  {
  }

  lemma StarvedSame(iov: seq<Vec>, s: Script, s': Script, memory: bool)
    requires FirstPart(s', |Bytes(iov)|) == FirstPart(s, |Bytes(iov)|)
    ensures Starved(iov, s', memory) == Starved(iov, s, memory)
  {
  }

  lemma NothingStarves(iov: seq<Vec>, s: Script, memory: bool)
    requires |Bytes(iov)| == 0
    ensures !Starved(iov, s, memory)
  {
  }

  lemma {:induction false} BytesOf(iov: seq<Vec>, v: Vec)
    requires forall i :: 0 <= i < |iov| ==> iov[i] == v
    ensures |Bytes(iov)| == |iov| * |v.data|
  {
    if iov != [] {
      BytesOf(iov[1..], v);
    }
  }

  /**
   Eighteen vectors of a byte, of which the first call takes one: without memory st_writev has sent that byte
   and fails, where st_write sends all of them.
   */
  lemma SendsAPart()
    ensures var iov, s := seq(18, i => Vec([0 as Byte])), Script([Moves(1), Moves(17)], [true]);
            && Starved(iov, s, false) && FirstPart(s, |Bytes(iov)|) == Part(1, Script([Moves(17)], [true]))
            && WriteFlow(s, |Bytes(iov)|) == Flow(18, true, Script([], []))
  {
    var iov, s := seq(18, i => Vec([0 as Byte])), Script([Moves(1), Moves(17)], [true]);
    BytesOf(iov, Vec([0 as Byte]));
    assert Unwritten(iov, 1) == 1;
  }

  class Socket {
    var script: Script
    var sent: seq<Byte>
    var incoming: seq<Byte>

    // ----- The operating system -----

    /** write(2), and writev(2) on the bytes of its vectors. */
    method OsWrite(bytes: seq<Byte>) returns (r: Call)
      modifies this`script, this`sent
      ensures r == Called(old(script), |bytes|) && script == Next(old(script))
      ensures sent == if r.Moved? then old(sent) + bytes[..r.n] else old(sent)
    {
      r := Called(script, |bytes|);
      script := Next(script);
      if r.Moved? {
        sent := sent + bytes[..r.n];
      }
    }

    /** st_netfd_poll */
    method Poll() returns (ok: bool)
      modifies this`script
      ensures ok == (old(script.polls) != [] && old(script.polls)[0])
      ensures script == if old(script.polls) == [] then old(script)
                        else old(script).(polls := old(script.polls)[1..])
    {
      if script.polls == [] {
        return false;
      }
      ok := script.polls[0];
      script := script.(polls := script.polls[1..]);
    }

    // ----- st_write -----

    /** What was written is a part of the buffer from its start, all of it on success. */
    method Write(buf: seq<Byte>) returns (rv: int)
      modifies this`script, this`sent
      ensures var f := WriteFlow(old(script), |buf|);
              && sent == old(sent) + buf[..f.moved] && script == f.rest
              && rv == if f.ok then |buf| else -1
    {
      hide WriteFlow, WaitFlow, Called, Next, Emitted;
      var done: nat, nleft: nat := 0, |buf|;
      ghost var goal := WriteFlow(script, |buf|);
      EmitNone(sent, buf);
      while nleft > 0
        invariant done + nleft == |buf| && Emitted(old(sent), buf, done, sent)
        invariant After(done, WriteFlow(script, nleft)) == goal
        decreases |script.events|
      {
        WriteStep(script, nleft);
        ghost var before := sent;
        var r := OsWrite(buf[done..]);
        if r.Again? {
          continue;
        }
        if r.Broken? {
          EmittedIs(old(sent), buf, done, sent);
          return -1;
        }
        if r.Moved? {
          EmitMore(old(sent), buf, done, before, r.n);
          done := done + r.n;
          if r.n == nleft {
            break;
          }
          nleft := nleft - r.n;
        }
        WaitStep(script, nleft);
        var ok := Poll();
        if !ok {
          EmittedIs(old(sent), buf, done, sent);
          return -1;
        }
      }
      EmittedIs(old(sent), buf, done, sent);
      WriteNone(script);
      rv := |buf|;
    }

    // ----- st_read_fully -----

    /** read(2) into buf from done on. */
    method OsRead(buf: array<Byte>, done: nat, left: nat) returns (r: Call)
      requires done + left == buf.Length
      modifies this`script, this`incoming, buf
      ensures r == Called(old(script), Min(left, |old(incoming)|)) && script == Next(old(script))
      ensures r.Moved? ==> r.n <= left && r.n <= |old(incoming)|
      ensures if r.Moved? then
                incoming == old(incoming)[r.n..] && buf[..done + r.n] == old(buf[..done]) + old(incoming)[..r.n]
              else incoming == old(incoming) && buf[..done] == old(buf[..done])
    {
      r := Called(script, Min(left, |incoming|));
      script := Next(script);
      if r.Moved? {
        for i := 0 to r.n
          invariant buf[..done + i] == old(buf[..done]) + incoming[..i]
          modifies buf
        {
          buf[done + i] := incoming[i];
        }
        incoming := incoming[r.n..];
      }
    }

    /** A round of st_read_fully: n bytes more are in the buffer. */
    method ReadRound(buf: array<Byte>, done: nat, nleft: nat, ghost input: seq<Byte>) returns (n: nat, state: RoundState)
      requires done + nleft == buf.Length && nleft > 0 && Taken(input, done, buf[..done], incoming)
      modifies this`script, this`incoming, buf
      ensures n <= nleft && Taken(input, done + n, buf[..done + n], incoming)
      ensures var f := ReadFlow(old(script), nleft, |old(incoming)|);
              match state
              case Going => |script.events| < |old(script.events)| && f == After(n, ReadFlow(script, nleft - n, |incoming|))
              case Finished => f == Flow(n, true, script)
              case _ => f == Flow(n, false, script)
    {
      hide ReadFlow, ReadWaitFlow, Called, Next, Min, Taken;
      ReadStep(script, nleft, |incoming|);
      ghost var got, rest := buf[..done], incoming;
      n, state := 0, Going;
      var r := OsRead(buf, done, nleft);
      if r.Again? {
        return;
      }
      if r.Broken? {
        return 0, Unable;
      }
      if r.Moved? {
        n := r.n;
        TakeMore(input, done, got, rest, n);
        if n == nleft || n == 0 {
          return n, Finished;
        }
      }
      ReadWaitStep(script, nleft - n, |incoming|);
      var ok := Poll();
      if !ok {
        state := Unable;
      }
    }

    /** What was read is in the buffer in order, and the rest is still to come. */
    method ReadFully(buf: array<Byte>) returns (rv: int)
      modifies this`script, this`incoming, buf
      ensures var f := ReadFlow(old(script), buf.Length, |old(incoming)|);
              && buf[..f.moved] == old(incoming)[..f.moved] && incoming == old(incoming)[f.moved..]
              && script == f.rest && rv == if f.ok then f.moved else -1
    {
      hide ReadFlow, Taken;
      var done: nat, nleft: nat := 0, buf.Length;
      ghost var input, goal := incoming, ReadFlow(script, buf.Length, |incoming|);
      NoneTaken(input);
      assert buf[..0] == [];
      while nleft > 0
        invariant done + nleft == buf.Length && Taken(input, done, buf[..done], incoming)
        invariant After(done, ReadFlow(script, nleft, |incoming|)) == goal
        decreases |script.events|
      {
        var n, state := ReadRound(buf, done, nleft, input);
        done, nleft := done + n, nleft - n;
        if state != Going {
          TakenIs(input, done, buf[..done], incoming);
          return if state == Finished then done else -1;
        }
      }
      TakenIs(input, done, buf[..done], incoming);
      ReadNone(script, |incoming|);
      rv := done;
    }

    // ----- st_writev -----

    /** writev(2) on the first cnt vectors. */
    method OsWritev(iov: array<Vec>, cnt: nat) returns (r: Call)
      requires cnt <= iov.Length
      modifies this`script, this`sent
      ensures r == Called(old(script), |Bytes(iov[..cnt])|) && script == Next(old(script))
      ensures sent == if r.Moved? then old(sent) + Bytes(iov[..cnt])[..r.n] else old(sent)
    {
      r := OsWrite(Bytes(iov[..cnt]));
    }

    method Total(iov: array<Vec>) returns (n: nat)
      ensures n == |Bytes(iov[..])|
    {
      n := 0;
      var i := 0;
      while i < iov.Length
        invariant 0 <= i <= iov.Length && n == |Bytes(iov[..i])|
      {
        BytesSplit(iov[..], i);
        assert iov[..][..i + 1] == iov[..i + 1] && iov[..][..i] == iov[..i];
        n := n + |iov[i].data|;
        i := i + 1;
      }
      assert iov[..i] == iov[..];
    }

    /** The next unwritten vector, and how much of it was written. */
    method FindUnwritten(iov: array<Vec>, written: nat) returns (index: nat, n: nat)
      requires written < |Bytes(iov[..])|
      ensures index < iov.Length && n < |iov[index].data| && |Bytes(iov[..index])| + n == written
      ensures index == Unwritten(iov[..], written)
    {
      index, n := 0, written;
      assert iov[..0] == [];
      while index < iov.Length && n >= |iov[index].data|
        invariant 0 <= index <= iov.Length && |Bytes(iov[..index])| + n == written
      {
        BytesSplit(iov[..], index);
        assert iov[..][..index + 1] == iov[..index + 1] && iov[..][..index] == iov[..index];
        n := n - |iov[index].data|;
        index := index + 1;
      }
      assert iov[..iov.Length] == iov[..] && iov[..][..index] == iov[..index];
      UnwrittenAt(iov[..], written, index);
    }

    /** The rest of the vectors from index on, without the first n bytes, copied into tmp. */
    method FillIn(iov: array<Vec>, tmp: array<Vec>, index: nat, n: nat) returns (cnt: nat)
      requires iov != tmp && index < iov.Length && n <= |iov[index].data|
      requires iov.Length - index <= tmp.Length
      modifies tmp
      ensures cnt == iov.Length - index
      ensures tmp[..cnt] == [Vec(iov[index].data[n..])] + iov[index + 1..]
    {
      tmp[0] := Vec(iov[index].data[n..]);
      cnt := 1;
      var i := index + 1;
      while i < iov.Length
        invariant index < i <= iov.Length && cnt == i - index
        invariant tmp[..cnt] == [Vec(iov[index].data[n..])] + iov[index + 1..i]
      {
        tmp[cnt] := iov[i];
        cnt, i := cnt + 1, i + 1;
      }
    }

    /**
     After a partial write: the vectors that are left, in the first of st_writev's own slots or in new memory.
     What was copied before is not copied again elsewhere.
     */
    method Rebuild(iov: array<Vec>, tmp: array<Vec>, written: nat, memory: bool)
      returns (tmp': array<Vec>, cnt: nat, ok: bool)
      requires written < |Bytes(iov[..])|
      requires tmp != iov ==> Enough(iov, tmp, written)
      modifies if tmp == iov then {} else {tmp}
      ensures iov[..] == old(iov[..])
      ensures ok <==> memory || tmp != iov || iov.Length - Unwritten(iov[..], written) <= 16
      ensures ok ==> tmp' != iov && (tmp' == tmp || fresh(tmp')) && cnt <= tmp'.Length
      ensures ok ==> Enough(iov, tmp', written) && Bytes(tmp'[..cnt]) == Bytes(iov[..])[written..]
    {
      hide Bytes;
      var index, n := FindUnwritten(iov, written);
      assert iov[..][..index] == iov[..index];
      BytesCut(iov[..], index, n);
      tmp', ok := tmp, true;
      if tmp == iov {
        if iov.Length - index <= LOCAL_MAXIOV {
          tmp' := new Vec[LOCAL_MAXIOV](_ => Vec([]));
        } else if memory {
          tmp' := new Vec[iov.Length - index](_ => Vec([]));
        } else {
          return tmp, 0, false;
        }
      } else {
        EnoughSlots(iov, tmp, written, index, n);
      }
      cnt := FillIn(iov, tmp', index, n);
      assert iov[..][index + 1..] == iov[index + 1..];
      assert Least(iov, tmp') <= index;
      BytesMonotone(iov[..], Least(iov, tmp'), index);
    }

    /** A round of st_writev with more than one vector: n bytes are sent, and perhaps the vectors rebuilt. */
    method Round(iov: array<Vec>, tmp: array<Vec>, cnt: nat, nbyte: nat, left: nat, memory: bool)
      returns (n: nat, state: RoundState, tmp': array<Vec>, cnt': nat)
      requires 0 < left <= nbyte == |Bytes(iov[..])| && Pending(iov, tmp, cnt, nbyte - left)
      requires tmp == iov ==> left == nbyte
      modifies this`script, this`sent, if tmp == iov then {} else {tmp}
      ensures iov[..] == old(iov[..])
      ensures n <= left && sent == old(sent) + Bytes(iov[..])[nbyte - left..][..n]
      ensures state == Going ==>
                (tmp' == tmp || fresh(tmp')) && Pending(iov, tmp', cnt', nbyte - left + n) && (tmp' == iov ==> cnt' == cnt)
      ensures RoundFlow(iov[..], memory, tmp == iov, old(script), left, n, state, script, tmp' == iov)
    {
      hide WriteFlow, WaitFlow, Bytes, Enough, Called, Next, Least, FirstPart, WaitPart;
      ghost var data := Bytes(iov[..]);
      var moved: nat := nbyte - left;
      n, state, tmp', cnt' := 0, Going, tmp, cnt;
      WriteStep(script, left);
      PartStep(script, left);
      var r := OsWritev(tmp, cnt);
      if r.Again? {
        return;
      }
      if r.Broken? {
        state := Unable;
        return;
      }
      if r.Moved? {
        n := r.n;
        if n == left {
          state := Finished;
          return;
        }
        EnoughLater(iov, tmp, moved, moved + n);
        var ok;
        tmp', cnt', ok := Rebuild(iov, tmp, moved + n, memory);
        if !ok {
          state := NoMemory;
          return;
        }
      }
      var ok := PollBefore(left - n);
      if !ok {
        state := Unable;
      }
    }

    /** The wait before the rest is sent. */
    method PollBefore(ghost left: nat) returns (ok: bool)
      modifies this`script
      ensures |script.events| == |old(script.events)|
      ensures WaitFlow(old(script), left) == if ok then WriteFlow(script, left) else Flow(0, false, script)
      ensures WaitPart(old(script), left) == if ok then FirstPart(script, left) else NoPart
    {
      hide WriteFlow, WaitFlow, FirstPart, WaitPart;
      WaitStep(script, left);
      WaitPartStep(script, left);
      ok := Poll();
    }

    /** One vector is left: it is written by st_write, which sends n bytes. */
    method WriteLast(iov: array<Vec>, tmp: array<Vec>, ghost moved: nat, left: nat) returns (rv: int, ghost n: nat)
      requires Pending(iov, tmp, 1, moved) && moved + left == |Bytes(iov[..])|
      modifies this`script, this`sent
      ensures var f := WriteFlow(old(script), left);
              n == f.moved <= left && script == f.rest && rv == if f.ok then left else -1
      ensures sent == old(sent) + Bytes(iov[..])[moved..][..n]
    {
      hide WriteFlow, Bytes, Pending;
      OneLeft(iov, tmp, moved);
      n := WriteFlow(script, left).moved;
      rv := Write(tmp[0].data);
    }

    /**
     st_writev sends what st_write would send of the concatenated buffers over the same script, and returns
     the same, unless it needs memory for a copy of the vectors that are left at the first part, and gets none:
     then it has sent that part and returns -1. It leaves the caller's vectors as they are.
     */
    method Writev(iov: array<Vec>, memory: bool) returns (rv: int, ghost moved: nat)
      modifies this`script, this`sent
      ensures iov[..] == old(iov[..])
      ensures var data := Bytes(iov[..]);
              var f := WriteFlow(old(script), |data|);
              && moved <= |data| && sent == old(sent) + data[..moved]
              && if Starved(iov[..], old(script), memory) then
                   rv == -1 && FirstPart(old(script), |data|) == Part(moved, script)
                 else moved == f.moved && script == f.rest && rv == if f.ok then |data| else -1
    {
      hide WriteFlow, Bytes, Pending, Emitted, FirstPart, Starved, Midway, RoundFlow;
      ghost var vecs, data, before, start := iov[..], Bytes(iov[..]), sent, script;
      var nbyte := Total(iov);
      var nleft: nat, tmp: array<Vec>, cnt: nat := nbyte, iov, iov.Length;
      moved := 0;
      EmitNone(sent, data);
      AllPending(iov);
      MidwayStart(vecs, memory, start);
      while nleft > 0
        invariant nleft + moved == nbyte == |data| && iov[..] == vecs && (nleft == 0 ==> nbyte == 0)
        invariant Emitted(before, data, moved, sent)
        invariant nleft > 0 ==> Pending(iov, tmp, cnt, moved) && (tmp == iov ==> cnt == iov.Length)
        invariant if tmp == iov then moved == 0 else fresh(tmp)
        invariant Midway(vecs, memory, start, tmp == iov, moved, nleft, script)
        decreases |script.events|
      {
        ghost var sentBefore, s, first, n := sent, script, tmp == iov, 0;
        if cnt == 1 {
          rv, n := WriteLast(iov, tmp, moved, nleft);
          EmitMore(before, data, moved, sentBefore, n);
          MidwayLast(vecs, memory, start, first, moved, nleft, s);
          moved := moved + n;
          EmittedIs(before, data, moved, sent);
          return if rv != nleft then -1 else nbyte, moved;
        }
        var k, state;
        k, state, tmp, cnt := Round(iov, tmp, cnt, nbyte, nleft, memory);
        EmitMore(before, data, moved, sentBefore, k);
        MidwayRound(vecs, memory, start, first, moved, nleft, s, k, state, script, tmp == iov);
        moved, nleft := moved + k, nleft - k;
        EmittedIs(before, data, moved, sent);
        if state != Going {
          return if state == Finished then nbyte else -1, moved;
        }
      }
      EmittedIs(before, data, moved, sent);
      MidwayEnd(vecs, memory, start, tmp == iov, moved, script);
      rv := nbyte;
    }
  }

  datatype RoundState = Going | Finished | Unable | NoMemory

  /**
   What a round does, from script s to s', with `left` bytes to send, of which it sends n. `first` says that
   the vectors have not been copied yet, first' the same for the next round.
   */
  ghost predicate RoundFlow(vecs: seq<Vec>, memory: bool, first: bool, s: Script, left: nat, n: nat, state: RoundState,
                            s': Script, first': bool)
  {
    && n <= left
    && (match state
        case Going =>
          n < left && |s'.events| < |s.events| && WriteFlow(s, left) == After(n, WriteFlow(s', left - n))
        case Finished => n == left && WriteFlow(s, left) == Flow(n, true, s')
        case Unable => WriteFlow(s, left) == Flow(n, false, s')
        case NoMemory => true)
    && if !first then state != NoMemory && (state == Going ==> !first')
       else if state == NoMemory then Starved(vecs, s, memory) && FirstPart(s, left) == Part(n, s')
       else if state == Going && first' then n == 0 && FirstPart(s, left) == FirstPart(s', left)
       else !Starved(vecs, s, memory)
  }

  /** The whole call, begun with `start`, when `moved` bytes are sent and `left` are not. */
  ghost predicate Midway(vecs: seq<Vec>, memory: bool, start: Script, first: bool, moved: nat, left: nat, s: Script) {
    && moved + left == |Bytes(vecs)|
    && After(moved, WriteFlow(s, left)) == WriteFlow(start, |Bytes(vecs)|)
    && if first then moved == 0 && FirstPart(s, left) == FirstPart(start, |Bytes(vecs)|)
       else !Starved(vecs, start, memory)
  }

  lemma MidwayStart(vecs: seq<Vec>, memory: bool, start: Script)
    ensures Midway(vecs, memory, start, true, 0, |Bytes(vecs)|, start)
  {
    hide WriteFlow, FirstPart, Bytes;
  }

  /** The outcome of the call: a Flow as st_write would give, or the first part without memory. */
  ghost predicate Outcome(vecs: seq<Vec>, memory: bool, start: Script, f: Flow, starved: bool) {
    if starved then Starved(vecs, start, memory) && FirstPart(start, |Bytes(vecs)|) == Part(f.moved, f.rest)
    else !Starved(vecs, start, memory) && f == WriteFlow(start, |Bytes(vecs)|)
  }

  lemma MidwayRound(vecs: seq<Vec>, memory: bool, start: Script, first: bool, moved: nat, left: nat, s: Script,
                    n: nat, state: RoundState, s': Script, first': bool)
    requires Midway(vecs, memory, start, first, moved, left, s)
    requires RoundFlow(vecs, memory, first, s, left, n, state, s', first')
    ensures n <= left && (state == Going ==> |s'.events| < |s.events|)
    ensures state == Going ==> n < left && Midway(vecs, memory, start, first', moved + n, left - n, s')
    ensures state == Going && first' ==> moved + n == 0
    ensures state != Going ==> Outcome(vecs, memory, start, Flow(moved + n, state == Finished, s'), state == NoMemory)
    ensures state == Finished ==> moved + n == |Bytes(vecs)|
  {
    hide WriteFlow, FirstPart, Bytes, Starved;
    if first {
      StarvedSame(vecs, start, s, memory);
    }
  }

  lemma MidwayLast(vecs: seq<Vec>, memory: bool, start: Script, first: bool, moved: nat, left: nat, s: Script)
    requires Midway(vecs, memory, start, first, moved, left, s) && (first ==> |vecs| <= LOCAL_MAXIOV)
    ensures Outcome(vecs, memory, start, After(moved, WriteFlow(s, left)), false)
  {
    hide WriteFlow, FirstPart, Bytes, Starved;
    if first {
      FewEnough(vecs, start, memory);
    }
  }

  lemma MidwayEnd(vecs: seq<Vec>, memory: bool, start: Script, first: bool, moved: nat, s: Script)
    requires Midway(vecs, memory, start, first, moved, 0, s) && (first ==> |Bytes(vecs)| == 0)
    ensures Outcome(vecs, memory, start, Flow(moved, true, s), false)
  {
    hide WriteFlow, FirstPart, Bytes, Starved;
    WriteNone(s);
    if first {
      NothingStarves(vecs, start, memory);
    }
  }

  /** The first cnt vectors of tmp hold what is left to send, and what will be left always fits there. */
  ghost predicate Pending(iov: array<Vec>, tmp: array<Vec>, cnt: nat, moved: nat)
    reads iov, tmp
  {
    && cnt <= tmp.Length && moved <= |Bytes(iov[..])| && Bytes(tmp[..cnt]) == Bytes(iov[..])[moved..]
    && (tmp != iov ==> Enough(iov, tmp, moved))
  }

  lemma AllPending(iov: array<Vec>)
    ensures Pending(iov, iov, iov.Length, 0)
  {
    assert iov[..iov.Length] == iov[..];
  }

  lemma OneLeft(iov: array<Vec>, tmp: array<Vec>, moved: nat)
    requires Pending(iov, tmp, 1, moved)
    ensures tmp.Length >= 1 && tmp[0].data == Bytes(iov[..])[moved..]
  {
    BytesOne(tmp[0]);
    assert tmp[..1] == [tmp[0]];
  }

  /** The first vector that may still have to be copied into tmp. */
  function Least(iov: array<Vec>, tmp: array<Vec>): nat {
    if iov.Length <= tmp.Length then 0 else iov.Length - tmp.Length
  }

  /** tmp has a slot for each vector that is not yet written. */
  ghost predicate Enough(iov: array<Vec>, tmp: array<Vec>, written: nat)
    reads iov
  {
    |Bytes(iov[..][..Least(iov, tmp)])| <= written
  }

  lemma EnoughLater(iov: array<Vec>, tmp: array<Vec>, before: nat, after: nat)
    requires before <= after
    ensures Enough(iov, tmp, before) ==> Enough(iov, tmp, after)
  {
  }

  lemma BytesMonotone(iov: seq<Vec>, i: nat, j: nat)
    requires i <= j <= |iov|
    ensures |Bytes(iov[..i])| <= |Bytes(iov[..j])|
  {
    hide Bytes;
    assert iov[..j] == iov[..i] + iov[i..j];
    BytesConcat(iov[..i], iov[i..j]);
  }

  lemma EnoughSlots(iov: array<Vec>, tmp: array<Vec>, written: nat, index: nat, n: nat)
    requires Enough(iov, tmp, written) && index < iov.Length && n < |iov[index].data|
    requires |Bytes(iov[..][..index])| + n == written
    ensures iov.Length - index <= tmp.Length
  {
    hide Bytes;
    if index < Least(iov, tmp) {
      BytesSplit(iov[..], index);
      BytesMonotone(iov[..], index + 1, Least(iov, tmp));
    }
  }

  /** Of the input, `done` bytes were got and the others are still to come. */
  ghost predicate Taken(input: seq<Byte>, done: nat, got: seq<Byte>, rest: seq<Byte>) {
    done <= |input| && got == input[..done] && rest == input[done..]
  }

  lemma NoneTaken(input: seq<Byte>)
    ensures Taken(input, 0, [], input)
  {
  }

  lemma TakenIs(input: seq<Byte>, done: nat, got: seq<Byte>, rest: seq<Byte>)
    requires Taken(input, done, got, rest)
    ensures done <= |input| && got == input[..done] && rest == input[done..]
  {
  }

  lemma TakeMore(input: seq<Byte>, done: nat, got: seq<Byte>, rest: seq<Byte>, n: nat)
    requires Taken(input, done, got, rest) && n <= |rest|
    ensures Taken(input, done + n, got + rest[..n], rest[n..])
  {
    assert input[..done] + input[done..][..n] == input[..done + n];
  }

  /** Of the data, `moved` bytes were sent after what was sent before. */
  ghost predicate Emitted(before: seq<Byte>, data: seq<Byte>, moved: nat, sent: seq<Byte>) {
    moved <= |data| && sent == before + data[..moved]
  }

  lemma EmitNone(before: seq<Byte>, data: seq<Byte>)
    ensures Emitted(before, data, 0, before)
  {
  }

  lemma EmittedIs(before: seq<Byte>, data: seq<Byte>, moved: nat, sent: seq<Byte>)
    requires Emitted(before, data, moved, sent)
    ensures moved <= |data| && sent == before + data[..moved]
  {
  }

  lemma EmitMore(before: seq<Byte>, data: seq<Byte>, moved: nat, sent: seq<Byte>, n: nat)
    requires Emitted(before, data, moved, sent) && moved + n <= |data|
    ensures Emitted(before, data, moved + n, sent + data[moved..][..n])
  {
    assert data[..moved] + data[moved..][..n] == data[..moved + n];
  }
}
