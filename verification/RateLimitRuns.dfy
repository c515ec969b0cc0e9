/** Runs of the rate limiter that meet the bounds of module RateLimit. */
module RateLimitRuns {
  import opened Credits
  import opened RateLimit

  lemma {:induction false} RunAppend(s: State, a: seq<Label>, b: seq<Label>)
    ensures Run(s, a + b) == Run(Run(s, a), b)
  {
    hide Next;
    if b == [] {
      assert a + b == a;
    } else {
      RunAppend(s, a, b[..|b| - 1]);
      assert (a + b)[..|a + b| - 1] == a + b[..|b| - 1];
    }
  }

  lemma RunOne(s: State, ls: seq<Label>, l: Label)
    ensures Run(s, ls + [l]) == Next(Run(s, ls), l)
  {
    assert (ls + [l])[..|ls|] == ls;
  }

  /** A run and the state it leads to. */
  ghost predicate Leads(ls: seq<Label>, s: State) {
    Run(Start(0), ls) == s
  }

  lemma Goes(ls: seq<Label>, s: State, more: seq<Label>) returns (all: seq<Label>)
    requires Leads(ls, s)
    ensures Leads(all, Run(s, more))
  {
    all := ls + more;
    RunAppend(Start(0), ls, more);
  }

  // ---- Many requests at once ----

  function Arrivals(n: nat): seq<Label> {
    if n == 0 then [] else Arrivals(n - 1) + [Arrive(0)]
  }

  /** Requests a to a + n - 1 count, and every reply arrives. */
  function Increments(a: nat, n: nat): seq<Label> {
    if n == 0 then [] else Increments(a, n - 1) + [Incr(a + n - 1, Heard)]
  }

  function Stamps(key: Key, at: int, n: nat): seq<Phase> {
    if n == 0 then [] else Stamps(key, at, n - 1) + [Stamped(key, at)]
  }

  /** Their replies, from base + 1 on. */
  function Batch(key: Key, arrived: int, time: int, base: nat, n: nat): seq<Hit> {
    if n == 0 then [] else Batch(key, arrived, time, base, n - 1) + [Hit(key, arrived, time, base + n, true)]
  }

  lemma {:induction false} StampsAre(key: Key, at: int, n: nat)
    ensures |Stamps(key, at, n)| == n && forall i :: 0 <= i < n ==> Stamps(key, at, n)[i] == Stamped(key, at)
  {
    if n > 0 {
      StampsAre(key, at, n - 1);
    }
  }

  lemma {:induction false} ArrivalsRun(s: State, n: nat)
    ensures Run(s, Arrivals(n)) == s.(requests := s.requests + Stamps((0, MinuteOf(s.now)), s.now, n))
  {
    if n == 0 {
      assert s.requests + [] == s.requests;
    } else {
      ArrivalsRun(s, n - 1);
      RunOne(s, Arrivals(n - 1), Arrive(0));
      hide Run, MinuteOf;
      var key := (0, MinuteOf(s.now));
      assert s.requests + Stamps(key, s.now, n - 1) + [Stamped(key, s.now)]
          == s.requests + (Stamps(key, s.now, n - 1) + [Stamped(key, s.now)]);
    }
  }

  /** Where a batch counts on from. */
  function Base(s: State, key: Key): nat {
    if Live(s, key) then s.counters[key].value else 0
  }

  /** Requests a to a + n - 1 have counted: nothing else changed but their counter. */
  ghost predicate Counted(s: State, a: nat, n: nat, key: Key, at: int, t: State) {
    && t.now == s.now && |t.requests| == |s.requests|
    && (forall i :: 0 <= i < |s.requests| && !(a <= i < a + n) ==> t.requests[i] == s.requests[i])
    && t.hits == s.hits + Batch(key, at, s.now, Base(s, key), n)
    && (forall k :: k != key ==>
          (k in t.counters <==> k in s.counters) && (k in s.counters ==> t.counters[k] == s.counters[k]))
    && (n == 0 ==> t.counters == s.counters)
    && (n > 0 ==> Live(t, key) && t.counters[key].value == Base(s, key) + n)
    && (n > 0 && Live(s, key) ==> t.counters[key].expireAt == s.counters[key].expireAt)
  }

  lemma {:induction false} IncrementsRun(s: State, a: nat, n: nat, key: Key, at: int)
    requires a + n <= |s.requests| && forall i :: a <= i < a + n ==> s.requests[i] == Stamped(key, at)
    ensures Counted(s, a, n, key, at, Run(s, Increments(a, n)))
  {
    if n == 0 {
      assert s.hits + [] == s.hits;
    } else {
      IncrementsRun(s, a, n - 1, key, at);
      RunOne(s, Increments(a, n - 1), Incr(a + n - 1, Heard));
      hide Run, MinuteOf;
      OneMore(s, a, n, key, at, Run(s, Increments(a, n - 1)));
    }
  }

  lemma OneMore(s: State, a: nat, n: nat, key: Key, at: int, t: State)
    requires n > 0 && a + n <= |s.requests| && s.requests[a + n - 1] == Stamped(key, at)
    requires Counted(s, a, n - 1, key, at, t)
    ensures Counted(s, a, n, key, at, Next(t, Incr(a + n - 1, Heard)))
  {
    var base := Base(s, key);
    assert t.requests[a + n - 1] == Stamped(key, at);
    var h := Hit(key, at, s.now, base + n, true);
    assert Next(t, Incr(a + n - 1, Heard)).hits == t.hits + [h];
    assert s.hits + Batch(key, at, s.now, base, n - 1) + [h] == s.hits + (Batch(key, at, s.now, base, n - 1) + [h]);
  }

  // ---- What a batch adds to a count ----

  lemma {:induction false} CountAppend(p: seq<Hit>, q: seq<Hit>, w: Which)
    ensures Count(p + q, w) == Count(p, w) + Count(q, w)
  {
    if q == [] {
      assert p + q == p;
    } else {
      CountAppend(p, q[..|q| - 1], w);
      assert (p + q)[..|p + q| - 1] == p + q[..|q| - 1];
    }
  }

  lemma {:induction false} BatchCounts(key: Key, arrived: int, time: int, base: nat, n: nat, w: Which)
    requires forall i :: base < i <= base + n ==> Is(w, Hit(key, arrived, time, i, true))
    ensures Count(Batch(key, arrived, time, base, n), w) == n
  {
    if n > 0 {
      BatchCounts(key, arrived, time, base, n - 1, w);
    }
  }

  lemma {:induction false} BatchIsPrompt(key: Key, arrived: int, time: int, base: nat, n: nat, delay: int)
    requires time - arrived <= delay
    ensures Delayed(Batch(key, arrived, time, base, n), delay)
  {
    if n > 0 {
      BatchIsPrompt(key, arrived, time, base, n - 1, delay);
    }
  }

  /** No increment is executed more than `delay` milliseconds after its request arrived. */
  ghost predicate Delayed(hits: seq<Hit>, delay: int) {
    forall i :: 0 <= i < |hits| ==> hits[i].time - hits[i].arrived <= delay
  }

  lemma DelayedAppend(p: seq<Hit>, q: seq<Hit>, delay: int)
    requires Delayed(p, delay) && Delayed(q, delay)
    ensures Delayed(p + q, delay)
  {
  }

  // ---- Single steps ----

  lemma PassRuns(s: State, time: nat)
    ensures Run(s, [Pass(time)]) == s.(now := s.now + time)
  {
    RunOne(s, [], Pass(time));
    assert [] + [Pass(time)] == [Pass(time)];
  }

  /** What the first request of a minute leaves behind. */
  function AfterFirst(s: State): State {
    var key := (0, MinuteOf(s.now));
    s.(requests := s.requests + [Decided], counters := s.counters[key := Counter(1, Some(s.now + MINUTE))],
       hits := s.hits + [Hit(key, s.now, s.now, 1, true)])
  }

  lemma FirstCounts(s: State) returns (ls: seq<Label>)
    requires (0, MinuteOf(s.now)) !in s.counters
    ensures Run(s, ls) == AfterFirst(s)
  {
    var r := |s.requests|;
    var ls1, ls2 := [] + [Arrive(0)], [] + [Arrive(0)] + [Incr(r, Heard)];
    ls := ls2 + [Expire(r, true)];
    RunOne(s, [], Arrive(0));
    RunOne(s, ls1, Incr(r, Heard));
    RunOne(s, ls2, Expire(r, true));
    hide Run, MinuteOf;
    FirstSteps(s);
  }

  lemma FirstSteps(s: State)
    requires (0, MinuteOf(s.now)) !in s.counters
    ensures var r := |s.requests|; Next(Next(Next(s, Arrive(0)), Incr(r, Heard)), Expire(r, true)) == AfterFirst(s)
  {
    hide MinuteOf;
    var r, key := |s.requests|, (0, MinuteOf(s.now));
    var t := Next(s, Arrive(0));
    var u := Next(t, Incr(r, Heard));
    assert u.requests == s.requests + [MustExpire(key)];
    assert Next(u, Expire(r, true)).requests == s.requests + [Decided];
  }

  /** n requests arrive now and wait. */
  lemma Wait(ls: seq<Label>, s: State, n: nat) returns (all: seq<Label>, t: State)
    requires Leads(ls, s)
    ensures Leads(all, t) && t == s.(requests := s.requests + Stamps((0, MinuteOf(s.now)), s.now, n))
    ensures |t.requests| == |s.requests| + n && forall i :: |s.requests| <= i < |t.requests| ==>
              t.requests[i] == Stamped((0, MinuteOf(s.now)), s.now)
    ensures forall i :: 0 <= i < |s.requests| ==> t.requests[i] == s.requests[i]
  {
    hide Run, MinuteOf;
    all := Goes(ls, s, Arrivals(n));
    t := Run(s, Arrivals(n));
    ArrivalsRun(s, n);
    StampsAre((0, MinuteOf(s.now)), s.now, n);
  }

  /** Waiting requests count now. */
  lemma CountNow(ls: seq<Label>, s: State, a: nat, n: nat, key: Key, at: int) returns (all: seq<Label>, t: State)
    requires Leads(ls, s)
    requires a + n <= |s.requests| && forall i :: a <= i < a + n ==> s.requests[i] == Stamped(key, at)
    ensures Leads(all, t) && Counted(s, a, n, key, at, t)
  {
    hide Run, Counted;
    all := Goes(ls, s, Increments(a, n));
    t := Run(s, Increments(a, n));
    IncrementsRun(s, a, n, key, at);
  }

  lemma Later(ls: seq<Label>, s: State, time: nat) returns (all: seq<Label>, t: State)
    requires Leads(ls, s)
    ensures Leads(all, t) && t == s.(now := s.now + time)
  {
    hide Run;
    all := Goes(ls, s, [Pass(time)]);
    PassRuns(s, time);
    t := s.(now := s.now + time);
  }

  lemma First(ls: seq<Label>, s: State) returns (all: seq<Label>, t: State)
    requires Leads(ls, s) && (0, MinuteOf(s.now)) !in s.counters
    ensures Leads(all, t) && t == AfterFirst(s)
  {
    hide Run;
    var more := FirstCounts(s);
    all := Goes(ls, s, more);
    t := AfterFirst(s);
  }

  // ---- Twice the limit for one key ----

  /** perMinute requests of one minute count at its start, and as many that arrive at its end count when
      the counter has just expired: 2 * perMinute are admitted, with no delay above two milliseconds. */
  lemma TwicePerKeyIsReached(perMinute: nat) returns (ls: seq<Label>)
    requires perMinute > 0
    ensures var hits := Run(Start(0), ls).hits;
            Count(hits, Admit((0, 0), perMinute)) == 2 * perMinute && Delayed(hits, 2)
  {
    hide Run, Count, Batch, Stamps, Delayed;
    var p, key := perMinute, (0, 0);
    RunNothing();
    var l1, s1 := First([], Start(0));
    var l2, s2 := Wait(l1, s1, p - 1);
    var l3, s3 := CountNow(l2, s2, 1, p - 1, key, 0);
    assert key in s3.counters && s3.counters[key].expireAt == Some(MINUTE);
    var l4, s4 := Later(l3, s3, MINUTE - 1);
    var l5, s5 := Wait(l4, s4, p);
    var l6, s6 := Later(l5, s5, 2);
    assert !Live(s6, key);
    var l7, s7 := CountNow(l6, s6, p, p, key, MINUTE - 1);
    ls := l7;
    TwiceCount(p);
    assert [] + [Hit(key, 0, 0, 1, true)] == [Hit(key, 0, 0, 1, true)];
    assert s7.hits == [Hit(key, 0, 0, 1, true)] + Batch(key, 0, 0, 1, p - 1) + Batch(key, MINUTE - 1, MINUTE + 1, 0, p);
    assert Run(Start(0), ls) == s7;
  }

  lemma RunNothing()
    ensures Leads([], Start(0))
  {
  }

  lemma TwiceCount(p: nat)
    requires p > 0
    ensures var key := (0, 0);
            var hits := [Hit(key, 0, 0, 1, true)] + Batch(key, 0, 0, 1, p - 1) +
                        Batch(key, MINUTE - 1, MINUTE + 1, 0, p);
            Count(hits, Admit(key, p)) == 2 * p && Delayed(hits, 2)
  {
    hide Batch;
    var key: Key, w := (0, 0), Admit((0, 0), p);
    var h, a, b := [Hit(key, 0, 0, 1, true)], Batch(key, 0, 0, 1, p - 1), Batch(key, MINUTE - 1, MINUTE + 1, 0, p);
    OneHit(Hit(key, 0, 0, 1, true), w);
    BatchCounts(key, 0, 0, 1, p - 1, w);
    BatchCounts(key, MINUTE - 1, MINUTE + 1, 0, p, w);
    CountAppend(h, a, w);
    CountAppend(h + a, b, w);
    BatchIsPrompt(key, 0, 0, 1, p - 1, 2);
    BatchIsPrompt(key, MINUTE - 1, MINUTE + 1, 0, p, 2);
    DelayedAppend(h, a, 2);
    DelayedAppend(h + a, b, 2);
  }

  lemma OneHit(h: Hit, w: Which)
    ensures Count([h], w) == if Is(w, h) then 1 else 0
  {
    assert [h][..0] == [];
  }

  // ---- The bound of any 60 seconds ----

  const K0: Key := (0, 0)
  const K1: Key := (0, 1)
  const K2: Key := (0, 2)

  /** The window begins two milliseconds into minute 1. */
  const FROM: int := MINUTE + 2

  function EarlyHits(p: nat): seq<Hit>
    requires p > 0
  {
    [Hit(K0, 2, 2, 1, true)] + [Hit(K1, MINUTE, MINUTE, 1, true)] + Batch(K0, MINUTE - 1, FROM, 1, p - 1)
    + Batch(K1, FROM, FROM, 1, p - 1)
  }

  /** Before the window the counters of minutes 0 and 1 start; p - 1 late requests of minute 0 and as many
      of minute 1 count on. */
  lemma EarlyRun(p: nat) returns (ls: seq<Label>, s: State)
    requires p > 0
    ensures Leads(ls, s) && s.now == FROM && |s.requests| == 3 * p && s.hits == EarlyHits(p)
    ensures forall i :: p <= i < 2 * p ==> s.requests[i] == Stamped(K0, MINUTE - 1)
    ensures K0 in s.counters && s.counters[K0].expireAt == Some(FROM)
    ensures K1 in s.counters && s.counters[K1].expireAt == Some(2 * MINUTE) && K2 !in s.counters
  {
    hide Run, Batch, Stamps;
    RunNothing();
    var l1, s1 := Later([], Start(0), 2);
    var l2, s2 := First(l1, s1);
    var l3, s3 := Later(l2, s2, MINUTE - 3);
    var l4, s4 := Wait(l3, s3, 2 * p - 1);
    var l5, s5 := Later(l4, s4, 1);
    var l6, s6 := First(l5, s5);
    assert s6.hits == [Hit(K0, 2, 2, 1, true)] + [Hit(K1, MINUTE, MINUTE, 1, true)];
    var l7, s7 := Later(l6, s6, 2);
    var l8, s8 := CountNow(l7, s7, 1, p - 1, K0, MINUTE - 1);
    var l9, s9 := Wait(l8, s8, p - 1);
    var l10, s10 := CountNow(l9, s9, 2 * p + 1, p - 1, K1, FROM);
    ls, s := l10, s10;
  }

  /** Then both counters expire within the window and start again, and minute 2 begins. */
  lemma LateRun(p: nat, l0: seq<Label>, s0: State) returns (ls: seq<Label>, s: State)
    requires p > 0 && Leads(l0, s0) && s0.now == FROM && |s0.requests| == 3 * p
    requires forall i :: p <= i < 2 * p ==> s0.requests[i] == Stamped(K0, MINUTE - 1)
    requires K0 in s0.counters && s0.counters[K0].expireAt == Some(FROM)
    requires K1 in s0.counters && s0.counters[K1].expireAt == Some(2 * MINUTE) && K2 !in s0.counters
    ensures Leads(ls, s) && s.hits == s0.hits + LateHits(p)
  {
    hide Run, Batch, Stamps;
    var l1, s1 := Later(l0, s0, 1);
    var l2, s2 := CountNow(l1, s1, p, p, K0, MINUTE - 1);
    var l3, s3 := Later(l2, s2, MINUTE - 4);
    var l4, s4 := Wait(l3, s3, p);
    var l5, s5 := Later(l4, s4, 2);
    var l6, s6 := CountNow(l5, s5, 3 * p, p, K1, 2 * MINUTE - 1);
    var l7, s7 := Wait(l6, s6, p);
    var l8, s8 := CountNow(l7, s7, 4 * p, p, K2, 2 * MINUTE + 1);
    ls, s := l8, s8;
    var a, b, c := Batch(K0, MINUTE - 1, FROM + 1, 0, p), Batch(K1, 2 * MINUTE - 1, 2 * MINUTE + 1, 0, p),
                   Batch(K2, 2 * MINUTE + 1, 2 * MINUTE + 1, 0, p);
    assert s8.hits == s0.hits + a + b + c;
    assert s0.hits + a + b + c == s0.hits + (a + b + c);
  }

  function LateHits(p: nat): seq<Hit> {
    Batch(K0, MINUTE - 1, FROM + 1, 0, p) + Batch(K1, 2 * MINUTE - 1, 2 * MINUTE + 1, 0, p)
    + Batch(K2, 2 * MINUTE + 1, 2 * MINUTE + 1, 0, p)
  }

  lemma EarlyCount(p: nat)
    requires p > 0
    ensures Count(EarlyHits(p), ClientWindow(0, FROM, p)) == 2 * p - 2 && Delayed(EarlyHits(p), 4)
  {
    hide Batch;
    var w := ClientWindow(0, FROM, p);
    var g, h: Hit := Hit(K0, 2, 2, 1, true), Hit(K1, MINUTE, MINUTE, 1, true);
    var a, b := Batch(K0, MINUTE - 1, FROM, 1, p - 1), Batch(K1, FROM, FROM, 1, p - 1);
    OneHit(g, w);
    OneHit(h, w);
    BatchCounts(K0, MINUTE - 1, FROM, 1, p - 1, w);
    BatchCounts(K1, FROM, FROM, 1, p - 1, w);
    CountAppend([g], [h], w);
    CountAppend([g] + [h], a, w);
    CountAppend([g] + [h] + a, b, w);
    BatchIsPrompt(K0, MINUTE - 1, FROM, 1, p - 1, 4);
    BatchIsPrompt(K1, FROM, FROM, 1, p - 1, 4);
    DelayedAppend([g] + [h], a, 4);
    DelayedAppend([g] + [h] + a, b, 4);
  }

  lemma LateCount(p: nat)
    ensures Count(LateHits(p), ClientWindow(0, FROM, p)) == 3 * p && Delayed(LateHits(p), 4)
  {
    hide Batch;
    var w := ClientWindow(0, FROM, p);
    var a, b, c := Batch(K0, MINUTE - 1, FROM + 1, 0, p), Batch(K1, 2 * MINUTE - 1, 2 * MINUTE + 1, 0, p),
                   Batch(K2, 2 * MINUTE + 1, 2 * MINUTE + 1, 0, p);
    BatchCounts(K0, MINUTE - 1, FROM + 1, 0, p, w);
    BatchCounts(K1, 2 * MINUTE - 1, 2 * MINUTE + 1, 0, p, w);
    BatchCounts(K2, 2 * MINUTE + 1, 2 * MINUTE + 1, 0, p, w);
    CountAppend(a, b, w);
    CountAppend(a + b, c, w);
    BatchIsPrompt(K0, MINUTE - 1, FROM + 1, 0, p, 4);
    BatchIsPrompt(K1, 2 * MINUTE - 1, 2 * MINUTE + 1, 0, p, 4);
    BatchIsPrompt(K2, 2 * MINUTE + 1, 2 * MINUTE + 1, 0, p, 4);
    DelayedAppend(a, b, 4);
    DelayedAppend(a + b, c, 4);
  }

  /** 5 * perMinute - 2 requests of one client in 60 seconds, for every limit, with no delay above four
      milliseconds. */
  lemma PerWindowIsReached(perMinute: nat) returns (ls: seq<Label>)
    requires perMinute > 0
    ensures var hits := Run(Start(0), ls).hits;
            Count(hits, ClientWindow(0, FROM, perMinute)) == 5 * perMinute - 2 && Delayed(hits, 4)
  {
    hide Run, Count, Delayed, EarlyHits, LateHits;
    var l1, s1 := EarlyRun(perMinute);
    var l2, s2 := LateRun(perMinute, l1, s1);
    ls := l2;
    EarlyCount(perMinute);
    LateCount(perMinute);
    CountAppend(EarlyHits(perMinute), LateHits(perMinute), ClientWindow(0, FROM, perMinute));
    DelayedAppend(EarlyHits(perMinute), LateHits(perMinute), 4);
  }
}
