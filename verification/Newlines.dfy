/** The loop of LoadFile that makes every line end a line feed, section 2.11 of XML 1.0, in the buffer itself. */
module Newlines {
  const CR := '\r'
  const LF := '\n'

  /** Where a string stops: at its first NUL. */
  function Length(s: string): (n: nat)
    ensures n <= |s| && '\0' !in s[..n] && (n < |s| ==> s[n] == '\0')
  {
    if s == "" || s[0] == '\0' then 0 else 1 + Length(s[1..])
  }

  /** The line ends of a text, from the front. */
  function Normalized(s: string): (r: string)
    ensures |r| <= |s| && CR !in r
  {
    if s == "" then ""
    else if s[0] == CR then [LF] + Normalized(if |s| > 1 && s[1] == LF then s[2..] else s[1..])
    else [s[0]] + Normalized(s[1..])
  }

  // ----- The two translations of the standard -----

  /** The sequence #xD #xA becomes #xA. */
  function WithoutPairs(s: string): string {
    if |s| < 2 then s
    else if s[0] == '\r' && s[1] == '\n' then ['\n'] + WithoutPairs(s[2..])
    else [s[0]] + WithoutPairs(s[1..])
  }

  /** Any #xD becomes #xA. */
  function WithoutReturns(s: string): (r: string)
    ensures |r| == |s| && forall i :: 0 <= i < |r| ==> r[i] == if s[i] == '\r' then '\n' else s[i]
  {
    seq(|s|, i requires 0 <= i < |s| => if s[i] == '\r' then '\n' else s[i])
  }

  lemma ReturnsFront(c: char, s: string)
    ensures WithoutReturns([c] + s) == [if c == '\r' then '\n' else c] + WithoutReturns(s)
  {
  }

  /** Both sequences #xD #xA and any #xD not followed by #xA become a single #xA. */
  lemma {:induction false} NormalizedIsBoth(s: string)
    ensures Normalized(s) == WithoutReturns(WithoutPairs(s))
  {
    if |s| < 2 {
      assert |s| == 1 ==> s[1..] == "" && s == [s[0]];
    } else if s[0] == CR && s[1] == LF {
      NormalizedIsBoth(s[2..]);
      ReturnsFront(LF, WithoutPairs(s[2..]));
    } else {
      NormalizedIsBoth(s[1..]);
      ReturnsFront(s[0], WithoutPairs(s[1..]));
    }
  }

  lemma {:induction false} NoReturns(s: string)
    requires CR !in s
    ensures Normalized(s) == s
  {
    if s != "" {
      NoReturns(s[1..]);
    }
  }

  /** A text that was normalized stays as it is; nothing else does. */
  lemma Idempotent(s: string)
    ensures Normalized(Normalized(s)) == Normalized(s)
    ensures Normalized(s) == s <==> '\r' !in s
  {
    NoReturns(Normalized(s));
    if CR !in s {
      NoReturns(s);
    }
  }

  lemma NormalizedStep(s: string, n: nat, p: nat)
    requires p < n <= |s|
    ensures var rest := Normalized(s[p..n]);
            if s[p] == CR then
              rest == [LF] + Normalized(s[if p + 1 < n && s[p + 1] == LF then p + 2 else p + 1..n])
            else rest == [s[p]] + Normalized(s[p + 1..n])
  {
    assert s[p..n][1..] == s[p + 1..n];
    assert p + 1 < n ==> s[p..n][2..] == s[p + 2..n];
  }

  /** The text stops at n exactly. */
  lemma Stops(s: string, p: nat)
    requires p <= Length(s)
    ensures p < Length(s) ==> s[p] != '\0'
    ensures p == Length(s) < |s| ==> s[p] == '\0'
  {
    hide Length;
    assert p < Length(s) ==> s[..Length(s)][p] == s[p];
  }

  /** What was written and what is still to be read make up the goal. */
  ghost predicate OnTheWay(done: string, s: string, n: nat, p: nat, goal: string) {
    p <= n <= |s| && done + Normalized(s[p..n]) == goal
  }

  lemma Starts(s: string, n: nat)
    requires n <= |s|
    ensures OnTheWay("", s, n, 0, Normalized(s[..n]))
  {
    assert s[0..n] == s[..n];
  }

  lemma GoesOn(done: string, s: string, n: nat, p: nat, goal: string)
    requires OnTheWay(done, s, n, p, goal) && p < n
    ensures if s[p] == CR then OnTheWay(done + [LF], s, n, if p + 1 < n && s[p + 1] == LF then p + 2 else p + 1, goal)
            else OnTheWay(done + [s[p]], s, n, p + 1, goal)
  {
    NormalizedStep(s, n, p);
  }

  lemma Arrives(done: string, s: string, n: nat, goal: string)
    requires OnTheWay(done, s, n, n, goal)
    ensures done == goal
  {
  }

  /** The buffer from the read head on is as it was, and ends with a NUL. */
  ghost predicate Unread(buf: array<char>, length: nat, s: string, p: nat)
    reads buf
  {
    p <= |s| == length < buf.Length && buf[p..length] == s[p..] && buf[length] == '\0'
  }

  lemma Reads(buf: array<char>, length: nat, s: string, p: nat)
    requires Unread(buf, length, s, p) && p <= Length(s)
    ensures buf[p] == '\0' <==> p == Length(s)
    ensures p < Length(s) ==> buf[p] == s[p] && (buf[p + 1] == LF <==> p + 1 < Length(s) && s[p + 1] == LF)
  {
    hide Length;
    var n := Length(s);
    if p < length {
      assert buf[p..length][0] == s[p..][0];
      Stops(s, p);
    }
    if p < n {
      Stops(s, p + 1);
      assert p + 1 < length ==> buf[p..length][1] == s[p..][1];
    }
  }

  lemma InRange(buf: array<char>, length: nat, s: string, p: nat)
    requires Unread(buf, length, s, p)
    ensures p <= |s| == length < buf.Length
  {
  }

  lemma AllUnread(buf: array<char>, length: nat, s: string)
    requires length < buf.Length && buf[..length] == s && buf[length] == '\0'
    ensures Unread(buf, length, s, 0)
  {
    assert s[0..] == s == buf[0..length];
  }

  lemma ReadsLater(buf: array<char>, length: nat, s: string, p: nat, p': nat)
    requires Unread(buf, length, s, p) && p <= p' <= length
    ensures Unread(buf, length, s, p')
  {
    assert buf[p'..length] == buf[p..length][p' - p..];
    assert s[p'..] == s[p..][p' - p..];
  }

  /** A round of the loop: one line end or one other character is read, and one character is written. */
  method Copy(buf: array<char>, q: nat, p: nat, length: nat, ghost s: string, ghost goal: string) returns (p': nat)
    requires q <= p < Length(s) <= length && Unread(buf, length, s, p) && OnTheWay(buf[..q], s, Length(s), p, goal)
    modifies buf
    ensures p < p' <= Length(s) && Unread(buf, length, s, p') && OnTheWay(buf[..q + 1], s, Length(s), p', goal)
  {
    hide Normalized, Length, OnTheWay, Unread;
    ghost var n := Length(s);
    InRange(buf, length, s, p);
    Reads(buf, length, s, p);
    GoesOn(buf[..q], s, n, p, goal);
    ReadsLater(buf, length, s, p, p + 1);
    p' := p + 1;
    if buf[p] == CR {
      Write(buf, q, LF, length, s, p + 1);
      if buf[p'] == LF {
        ReadsLater(buf, length, s, p', p' + 1);
        p' := p' + 1;
      }
    } else {
      Write(buf, q, buf[p], length, s, p + 1);
    }
  }

  /** The read head never falls behind the write head, and the text up to the first NUL is normalized. */
  method NormalizeInPlace(buf: array<char>, length: nat) returns (q: nat)
    requires length < buf.Length
    modifies buf
    ensures var text := old(buf[..length])[..Length(old(buf[..length]))];
            && q == |Normalized(text)| <= length && buf[..q] == Normalized(text) && buf[q] == '\0'
  {
    hide Normalized, Length, OnTheWay, Unread;
    ghost var s := buf[..length];
    ghost var n := Length(s);
    ghost var goal := Normalized(s[..n]);
    var p := 0;
    q := 0;
    buf[length] := '\0';
    Starts(s, n);
    AllUnread(buf, length, s);
    assert buf[..0] == "";
    Reads(buf, length, s, p);
    while buf[p] != '\0'
      invariant q <= p <= n <= length && Unread(buf, length, s, p)
      invariant OnTheWay(buf[..q], s, n, p, goal)
      invariant buf[p] == '\0' <==> p == n
      decreases n - p
    {
      p := Copy(buf, q, p, length, s, goal);
      q := q + 1;
      Reads(buf, length, s, p);
    }
    Arrives(buf[..q], s, n, goal);
    buf[q] := '\0';
  }

  /** `*q++` behind the read head. */
  method Write(buf: array<char>, q: nat, c: char, length: nat, ghost s: string, ghost p: nat)
    requires Unread(buf, length, s, p) && q < p
    modifies buf
    ensures buf[..q + 1] == old(buf[..q]) + [c] && Unread(buf, length, s, p)
    ensures forall i :: p <= i < buf.Length ==> buf[i] == old(buf[i])
  {
    buf[q] := c;
  }
}
