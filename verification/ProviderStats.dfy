/** The provider_stats row: counters, incremental average latency, success rate and trust score.
    Decimal columns hold whole multiples of their last digit; storing a quotient rounds it to the
    nearest one, halves away from zero. */
module ProviderStats {
  import opened Credits

  /** Hundredths of a millisecond for the average, ten-thousandths for rate and score. */
  datatype Stats = Stats(total: nat, succeeded: nat, failed: nat, timedOut: nat,
                         average: Option<int>, rate: nat, trust: nat)

  /** The latency is what the provider reported; nothing keeps it from being negative. */
  datatype Event =
    | Success(latency: int)
    | Failure(timeout: bool)

  /** The statement upserts the row and updates it once more, both on the snapshot from before it: which
      of the two changes an existing row is up to the database. A new row is inserted in any case. */
  datatype Reading = UpsertOnly | RatesOnly | Both

  datatype Report = Report(event: Event, reading: Reading)

  /** a / b rounded to the nearest integer. */
  function Nearest(a: int, b: nat): (n: int)
    requires b > 0
    ensures a >= 0 ==> n >= 0
  {
    if a >= 0 then (2 * a + b) / (2 * b) else -((b - 2 * a) / (2 * b))
  }

  function Min(a: int, b: int): int {
    if a < b then a else b
  }

  function Max(a: int, b: int): int {
    if a < b then b else a
  }

  const PERCENT := 10000
  const FALLBACK_AVERAGE := 250000

  /** 70 points times the success rate and 20 less a five-hundredth of the average latency. */
  function Score(succeeded: nat, total: nat, average: int): nat
    requires total > 0
  {
    Min(100 * PERCENT,
        Max(0, Nearest(succeeded * 70 * PERCENT * 5 + Max(0, 20 * 5 * PERCENT - average) * total, 5 * total)))
  }

  function Inserted(e: Event): Stats {
    match e
    case Success(latency) => Stats(1, 1, 0, 0, Some(100 * latency), PERCENT, Score(1, 1, 100 * latency))
    case Failure(timeout) => Stats(1, 0, if timeout then 0 else 1, if timeout then 1 else 0, None, 0, 0)
  }

  function Average(average: Option<int>, n: nat, latency: int): int {
    match average
    case None => 100 * latency
    case Some(a) => Nearest(a * n + 100 * latency, n + 1)
  }

  function Upserted(s: Stats, e: Event): Stats {
    match e
    case Success(latency) =>
      s.(total := s.total + 1, succeeded := s.succeeded + 1, average := Some(Average(s.average, s.succeeded, latency)))
    case Failure(timeout) =>
      s.(total := s.total + 1, failed := s.failed + (if timeout then 0 else 1),
         timedOut := s.timedOut + (if timeout then 1 else 0))
  }

  function Rated(s: Stats): Stats {
    if s.total == 0 then s.(rate := 0, trust := 0)
    else
      s.(rate := Nearest(s.succeeded * PERCENT, s.total),
         trust := Score(s.succeeded, s.total, if s.average.Some? then s.average.value else FALLBACK_AVERAGE))
  }

  /** One statement. */
  function After(row: Option<Stats>, r: Report): Stats {
    var s := if row.None? then Inserted(r.event)
             else if r.reading == RatesOnly then row.value
             else Upserted(row.value, r.event);
    if r.reading == UpsertOnly || (row.None? && r.reading == RatesOnly) then s else Rated(s)
  }

  function Run(rs: seq<Report>): Option<Stats> {
    if rs == [] then None else Some(After(Run(rs[..|rs| - 1]), rs[|rs| - 1]))
  }

  /** The events that reached the counters. */
  function Counted(rs: seq<Report>): seq<Event> {
    if rs == [] then []
    else
      var init, r := rs[..|rs| - 1], rs[|rs| - 1];
      Counted(init) + if init == [] || r.reading != RatesOnly then [r.event] else []
  }

  function Latencies(es: seq<Event>): seq<int> {
    if es == [] then []
    else Latencies(es[..|es| - 1]) + if es[|es| - 1].Success? then [es[|es| - 1].latency] else []
  }

  function Sum(xs: seq<int>): int {
    if xs == [] then 0 else Sum(xs[..|xs| - 1]) + xs[|xs| - 1]
  }

  function Timeouts(es: seq<Event>): nat {
    if es == [] then 0 else Timeouts(es[..|es| - 1]) + if es[|es| - 1] == Failure(true) then 1 else 0
  }

  // ---- The events alone decide everything but rate and score ----

  function Core(s: Stats): Stats {
    s.(rate := 0, trust := 0)
  }

  function Tally(es: seq<Event>): Stats
    requires es != []
  {
    if |es| == 1 then Core(Inserted(es[0])) else Upserted(Tally(es[..|es| - 1]), es[|es| - 1])
  }

  lemma AfterCore(row: Option<Stats>, r: Report)
    ensures Core(After(row, r)) ==
            if row.None? then Core(Inserted(r.event))
            else if r.reading == RatesOnly then Core(row.value)
            else Upserted(Core(row.value), r.event)
  {
    hide Score, Nearest, Average;
  }

  lemma {:induction false} RunTallies(rs: seq<Report>)
    requires rs != []
    ensures Counted(rs) != [] && Core(Run(rs).value) == Tally(Counted(rs))
  {
    hide After, Core, Upserted, Inserted;
    AfterCore(Run(rs[..|rs| - 1]), rs[|rs| - 1]);
    var init, r := rs[..|rs| - 1], rs[|rs| - 1];
    if init != [] {
      RunTallies(init);
      assert (Counted(init) + [r.event])[..|Counted(init)|] == Counted(init);
      assert Counted(init) + [] == Counted(init);
    } else {
      assert Counted(rs) == [r.event];
    }
  }

  // ---- Counters ----

  ghost predicate Counts(s: Stats, es: seq<Event>) {
    && s.total == |es| == s.succeeded + s.failed + s.timedOut
    && s.succeeded == |Latencies(es)|
    && s.timedOut == Timeouts(es)
    && (s.average.None? <==> s.succeeded == 0)
  }

  lemma {:induction false} TallyCounts(es: seq<Event>)
    requires es != []
    ensures Counts(Tally(es), es)
  {
    hide Score, Nearest, Average;
    if |es| > 1 {
      TallyCounts(es[..|es| - 1]);
    } else {
      assert Latencies(es[..0]) == [] && Timeouts(es[..0]) == 0;
    }
  }

  /** In every run the counters say how many of the counted events were successes, failures and
      timeouts, and there is an average exactly when there was a success. */
  lemma CountersAddUp(rs: seq<Report>)
    requires rs != []
    ensures Counts(Run(rs).value, Counted(rs))
  {
    RunTallies(rs);
    TallyCounts(Counted(rs));
  }

  // ---- The average ----

  lemma NearestIsNear(a: int, b: nat)
    requires b > 0
    ensures 2 * a - b <= 2 * (b * Nearest(a, b)) <= 2 * a + b
  {
    if a >= 0 {
      NearestOfPositive(a, b);
    } else {
      NearestOfPositive(-a, b);
      assert b * Nearest(a, b) == -(b * Nearest(-a, b));
    }
  }

  lemma NearestOfPositive(a: nat, b: nat)
    requires b > 0
    ensures 2 * a - b <= 2 * (b * Nearest(a, b)) <= 2 * a + b
  {
    var q, r := Nearest(a, b), (2 * a + b) % (2 * b);
    assert 2 * b * q + r == 2 * a + b;
    assert 2 * b * q == 2 * (b * q);
  }

  lemma Scales(b: nat, x: int, y: int)
    requires x < y
    ensures b * x + b <= b * y
  {
    var d: nat := y - x - 1;
    assert b * y == b * (x + 1 + d) == b * x + b + b * d;
  }

  lemma NearestBetween(a: int, b: nat, lo: int, hi: int)
    requires b > 0 && b * lo <= a <= b * hi
    ensures lo <= Nearest(a, b) <= hi
  {
    var q := Nearest(a, b);
    NearestIsNear(a, b);
    hide Nearest;
    if q < lo {
      Scales(b, q, lo);
    }
    if q > hi {
      Scales(b, hi, q);
    }
  }

  /** The stored average of n observations is off by at most a quarter hundredth per observation and one. */
  ghost predicate Near(average: int, latencies: seq<int>) {
    var n := |latencies|;
    -(n * (n + 1)) <= 4 * (n * average) - 400 * Sum(latencies) <= n * (n + 1)
  }

  ghost predicate Within(xs: seq<int>, lo: int, hi: int) {
    forall k :: 0 <= k < |xs| ==> lo <= xs[k] <= hi
  }

  lemma AverageStaysNear(average: int, xs: seq<int>, x: int)
    requires xs != [] && Near(average, xs)
    ensures Near(Average(Some(average), |xs|, x), xs + [x])
  {
    var n := |xs|;
    NearestIsNear(average * n + 100 * x, n + 1);
    assert (xs + [x])[..n] == xs;
    hide Nearest, Sum;
    var next := Average(Some(average), n, x);
    assert (n + 1) * (n + 2) == n * (n + 1) + 2 * (n + 1);
    assert n * average == average * n;
    NearStep(average * n, (n + 1) * next, Sum(xs), x, n, n * (n + 1));
  }

  lemma NearStep(p: int, q: int, sum: int, x: int, n: nat, m: int)
    requires -m <= 4 * p - 400 * sum <= m
    requires 2 * (p + 100 * x) - (n + 1) <= 2 * q <= 2 * (p + 100 * x) + (n + 1)
    ensures -(m + 2 * (n + 1)) <= 4 * q - 400 * (sum + x) <= m + 2 * (n + 1)
  {
  }

  lemma AverageStaysWithin(average: int, n: nat, x: int, lo: int, hi: int)
    requires 100 * lo <= average <= 100 * hi && lo <= x <= hi
    ensures 100 * lo <= Average(Some(average), n, x) <= 100 * hi
  {
    assert n * (100 * lo) <= average * n <= n * (100 * hi);
    NearestBetween(average * n + 100 * x, n + 1, 100 * lo, 100 * hi);
  }

  ghost predicate AverageOk(average: Option<int>, xs: seq<int>, lo: int, hi: int) {
    average.Some? && Near(average.value, xs) && 100 * lo <= average.value <= 100 * hi
  }

  lemma UpsertKeepsAverage(s: Stats, e: Event, xs: seq<int>, lo: int, hi: int)
    requires xs != [] && AverageOk(s.average, xs, lo, hi) && s.succeeded == |xs|
    requires e.Success? ==> lo <= e.latency <= hi
    ensures AverageOk(Upserted(s, e).average, xs + if e.Success? then [e.latency] else [], lo, hi)
  {
    hide Score, Nearest, Near, Average;
    if e.Success? {
      AverageStaysNear(s.average.value, xs, e.latency);
      AverageStaysWithin(s.average.value, |xs|, e.latency, lo, hi);
    } else {
      assert xs + [] == xs;
    }
  }

  lemma {:induction false} TallyIsNear(es: seq<Event>, lo: int, hi: int)
    requires es != [] && Latencies(es) != [] && Within(Latencies(es), lo, hi)
    ensures AverageOk(Tally(es).average, Latencies(es), lo, hi)
  {
    hide Score, Near, Average, Timeouts, Upserted, Inserted, Core;
    var init, e := es[..|es| - 1], es[|es| - 1];
    var xs := Latencies(init);
    if init != [] {
      TallyCounts(init);
    }
    if xs != [] {
      WithinInit(es, lo, hi);
      TallyIsNear(init, lo, hi);
      hide AverageOk;
      UpsertKeepsAverage(Tally(init), e, xs, lo, hi);
    } else {
      FirstIsExact(init, e);
      assert es == init + [e] && Latencies(es)[0] == e.latency;
    }
  }

  lemma WithinInit(es: seq<Event>, lo: int, hi: int)
    requires es != [] && Within(Latencies(es), lo, hi)
    ensures Within(Latencies(es[..|es| - 1]), lo, hi)
    ensures es[|es| - 1].Success? ==> lo <= es[|es| - 1].latency <= hi
  {
    var xs := Latencies(es[..|es| - 1]);
    assert forall k :: 0 <= k < |xs| ==> Latencies(es)[k] == xs[k];
    assert es[|es| - 1].Success? ==> Latencies(es)[|xs|] == es[|es| - 1].latency;
  }

  lemma FirstIsExact(init: seq<Event>, e: Event)
    requires Latencies(init) == [] && e.Success?
    requires init != [] ==> Tally(init).average.None?
    ensures var es := init + [e]; Tally(es).average == Some(100 * e.latency) && Latencies(es) == [e.latency]
    ensures Near(100 * e.latency, [e.latency])
  {
    hide Score, Nearest;
    assert (init + [e])[..|init|] == init;
    assert [] + [e.latency] == [e.latency];
    assert Sum([e.latency]) == Sum([e.latency][..0]) + e.latency;
  }

  /** In every run the stored average is within 0.0025 (n + 1) ms of the mean of the n counted
      latencies, and never outside their range. */
  lemma AverageIsNearTheMean(rs: seq<Report>, lo: int, hi: int)
    requires var xs := Latencies(Counted(rs)); xs != [] && Within(xs, lo, hi)
    ensures var row := Run(rs);
            && row.Some? && row.value.average.Some?
            && Near(row.value.average.value, Latencies(Counted(rs)))
            && 100 * lo <= row.value.average.value <= 100 * hi
  {
    hide Near, Within;
    RunTallies(rs);
    TallyIsNear(Counted(rs), lo, hi);
  }

  function Successes(xs: seq<int>): seq<Report> {
    if xs == [] then [] else Successes(xs[..|xs| - 1]) + [Report(Success(xs[|xs| - 1]), Both)]
  }

  ghost predicate Observed(xs: seq<int>, a: int, sum: int) {
    && Run(Successes(xs)).Some? && Run(Successes(xs)).value.average == Some(a)
    && Run(Successes(xs)).value.succeeded == |xs| && Sum(xs) == sum
  }

  lemma Observe(xs: seq<int>, a: int, sum: int, x: int)
    requires xs != [] && Observed(xs, a, sum)
    ensures Observed(xs + [x], Nearest(a * |xs| + 100 * x, |xs| + 1), sum + x)
  {
    hide Nearest, Rated;
    assert (xs + [x])[..|xs|] == xs;
    var rs, r := Successes(xs), Report(Success(x), Both);
    assert Successes(xs + [x]) == rs + [r];
    assert (rs + [r])[..|rs|] == rs;
    var s := Run(rs).value;
    assert Run(rs + [r]) == Some(After(Some(s), r)) == Some(Rated(Upserted(s, r.event)));
    RatedKeeps(Upserted(s, r.event));
  }

  lemma RatedKeeps(s: Stats)
    ensures Rated(s) == s.(rate := Rated(s).rate, trust := Rated(s).trust)
  {
  }

  lemma ObservedOnce()
    ensures Observed([0], 0, 0)
  {
    hide Score;
    var x: seq<int> := [0];
    assert x[..0] == [] && Successes(x) == [Report(Success(0), Both)];
    assert Run(Successes(x)[..0]) == None;
    assert Sum(x[..0]) == 0;
  }

  /** Rounding at every step can miss the rounded mean: the mean of these seven is 14.3 hundredths and
      the row says 15. */
  lemma AverageIsNotTheRoundedMean() returns (xs: seq<int>)
    ensures xs == [0, 0, 0, 0, 0, 1, 0]
    ensures Run(Successes(xs)).Some? && Run(Successes(xs)).value.average == Some(15)
    ensures Sum(xs) == 1 && Nearest(100 * 1, 7) == 14
  {
    hide Run, Successes, Sum, Observed;
    ObservedOnce();
    xs := [0];
    Observe(xs, 0, 0, 0);
    xs := xs + [0];
    Observe(xs, 0, 0, 0);
    xs := xs + [0];
    Observe(xs, 0, 0, 0);
    xs := xs + [0];
    Observe(xs, 0, 0, 0);
    xs := xs + [0];
    Observe(xs, 0, 0, 1);
    xs := xs + [1];
    Observe(xs, 17, 1, 0);
    xs := xs + [0];
    FromObserved(xs, 15, 1);
  }

  lemma FromObserved(xs: seq<int>, a: int, sum: int)
    requires Observed(xs, a, sum)
    ensures Run(Successes(xs)).Some? && Run(Successes(xs)).value.average == Some(a) && Sum(xs) == sum
  {
  }

  // ---- Rate and score ----

  ghost predicate InRange(s: Stats) {
    s.total > 0 && s.succeeded <= s.total && s.rate <= PERCENT && s.trust <= 100 * PERCENT
  }

  /** Rate and latency alone give at most 90; only a negative average takes the score to its bound of
      100. */
  lemma ScoreIsBounded(succeeded: nat, total: nat, average: int)
    requires 0 < total && succeeded <= total
    ensures Score(succeeded, total, average) <= 100 * PERCENT
    ensures average >= 0 ==> Score(succeeded, total, average) <= 90 * PERCENT
  {
    var latency := Max(0, 20 * 5 * PERCENT - average);
    if average >= 0 {
      assert latency * total <= 20 * 5 * PERCENT * total;
      NearestBetween(succeeded * 70 * PERCENT * 5 + latency * total, 5 * total, 0, 90 * PERCENT);
    }
  }

  function Bounded(x: real): real {
    if x < 0.0 then 0.0 else if x > 100.0 then 100.0 else x
  }

  /** The formula in real arithmetic. */
  function Formula(succeeded: nat, total: nat, average: int): real
    requires total > 0
  {
    var latency := 20.0 - average as real / 100.0 / 500.0;
    Bounded(succeeded as real / total as real * 70.0 + if latency < 0.0 then 0.0 else latency)
  }

  /** The stored score is the formula over the unrounded rate, to the nearest ten-thousandth. */
  lemma ScoreIsFormula(succeeded: nat, total: nat, average: int)
    requires 0 < total
    ensures -0.00005 <= Score(succeeded, total, average) as real / 10000.0 - Formula(succeeded, total, average)
                     <= 0.00005
  {
    hide Score, Bounded, Min, Max;
    var n := Unbounded(succeeded, total, average);
    Capped(succeeded as real / total as real, average, n);
  }

  lemma Unbounded(succeeded: nat, total: nat, average: int) returns (n: nat)
    requires 0 < total
    ensures Score(succeeded, total, average) == Min(100 * PERCENT, Max(0, n))
    ensures -0.5 <= n as real - (succeeded as real / total as real * 700000.0 +
                                 Max(0, 20 * 5 * PERCENT - average) as real / 5.0) <= 0.5
  {
    hide Nearest;
    n := NearQuotient(succeeded, total, Max(0, 20 * 5 * PERCENT - average));
  }

  lemma NearQuotient(s: nat, t: nat, latency: nat) returns (n: nat)
    requires t > 0
    ensures n == Nearest(s * 70 * PERCENT * 5 + latency * t, 5 * t)
    ensures -0.5 <= n as real - (s as real / t as real * 700000.0 + latency as real / 5.0) <= 0.5
  {
    var lt := latency * t;
    hide Nearest;
    assert lt >= 0;
    n := Nearest(s * 3500000 + lt, 5 * t);
    NearestIsNear(s * 3500000 + lt, 5 * t);
    var tn := t * n;
    FiveTimes(t, n, tn);
    ProductAsReal(latency, t, lt);
    ProductAsReal(t, n, tn);
    NearInts(s, t, latency, n, lt, tn);
  }

  lemma FiveTimes(t: nat, n: nat, tn: int)
    requires tn == t * n
    ensures (5 * t) * n == 5 * tn
  {
  }

  lemma ProductAsReal(x: nat, y: nat, p: int)
    requires p == x * y
    ensures p as real == x as real * y as real
  {
  }

  lemma NearInts(s: nat, t: nat, latency: nat, n: nat, lt: int, tn: int)
    requires t > 0 && lt as real == latency as real * t as real && tn as real == t as real * n as real
    requires 2 * (s * 3500000 + lt) - 5 * t <= 10 * tn <= 2 * (s * 3500000 + lt) + 5 * t
    ensures -0.5 <= n as real - (s as real / t as real * 700000.0 + latency as real / 5.0) <= 0.5
  {
    var q := s as real / t as real;
    assert q * t as real == s as real;
    NearReal(s as real, t as real, latency as real, n as real, q);
  }

  lemma Divide(t: real, d: real)
    requires t > 0.0 && -0.5 * t <= t * d <= 0.5 * t
    ensures -0.5 <= d <= 0.5
  {
  }

  /** Bounding both sides keeps them near. */
  lemma Capped(q: real, average: int, n: nat)
    requires q >= 0.0 && -0.5 <= n as real - (q * 700000.0 + Max(0, 20 * 5 * PERCENT - average) as real / 5.0) <= 0.5
    ensures var latency := 20.0 - average as real / 100.0 / 500.0;
            var exact := Bounded(q * 70.0 + if latency < 0.0 then 0.0 else latency);
            -0.00005 <= Min(100 * PERCENT, Max(0, n)) as real / 10000.0 - exact <= 0.00005
  {
  }

  lemma NearReal(s: real, t: real, latency: real, n: real, q: real)
    requires t > 0.0 && q * t == s
    requires 2.0 * (s * 3500000.0 + latency * t) - 5.0 * t <= 2.0 * (5.0 * (t * n))
                                                          <= 2.0 * (s * 3500000.0 + latency * t) + 5.0 * t
    ensures -0.5 <= n - (q * 700000.0 + latency / 5.0) <= 0.5
  {
    var d := n - (q * 700000.0 + latency / 5.0);
    assert t * d == t * n - s * 700000.0 - latency * t / 5.0;
    Divide(t, d);
  }

  lemma AfterInRange(row: Option<Stats>, r: Report)
    requires row.Some? ==> InRange(row.value)
    ensures InRange(After(row, r))
  {
    hide Score, Average, Nearest;
    var s := if row.None? then Inserted(r.event)
             else if r.reading == RatesOnly then row.value
             else Upserted(row.value, r.event);
    ScoreIsBounded(1, 1, if r.event.Success? then 100 * r.event.latency else 0);
    ScoreIsBounded(s.succeeded, s.total, if s.average.Some? then s.average.value else FALLBACK_AVERAGE);
    NearestBetween(s.succeeded * PERCENT, s.total, 0, PERCENT);
  }

  lemma {:induction false} RatesStayInRange(rs: seq<Report>)
    requires rs != []
    ensures InRange(Run(rs).value)
  {
    hide After, InRange;
    if |rs| > 1 {
      RatesStayInRange(rs[..|rs| - 1]);
    }
    AfterInRange(Run(rs[..|rs| - 1]), rs[|rs| - 1]);
  }

  /** Where only the upsert takes effect, rate and score stay for ever what the first event made them. */
  lemma {:induction false} RatesCanFreeze(rs: seq<Report>)
    requires rs != [] && forall k :: 0 <= k < |rs| ==> rs[k].reading == UpsertOnly
    ensures Run(rs).value.rate == Inserted(rs[0].event).rate && Run(rs).value.trust == Inserted(rs[0].event).trust
  {
    hide Score, Average;
    if |rs| > 1 {
      RatesCanFreeze(rs[..|rs| - 1]);
    }
  }

  /** Where the second update takes effect, the rate is the counted successes over all counted events. */
  lemma RatesCanFollow(rs: seq<Report>)
    requires |rs| > 1 && rs[|rs| - 1].reading != UpsertOnly
    ensures var s, n := Run(rs).value, |Counted(rs)|;
            && n > 0
            && s.rate == Nearest(|Latencies(Counted(rs))| * PERCENT, n)
            && s.trust == Score(|Latencies(Counted(rs))|, n,
                                if s.average.Some? then s.average.value else FALLBACK_AVERAGE)
  {
    hide Score, Average, Nearest;
    CountersAddUp(rs);
  }

  // ---- The table ----

  class Table {
    var rows: map<nat, Stats>

    function Row(provider: nat): Option<Stats>
      reads this
    {
      if provider in rows then Some(rows[provider]) else None
    }

    method Upsert(provider: nat, e: Event, reading: Reading)
      modifies this
      ensures rows == old(rows)[provider := After(old(Row(provider)), Report(e, reading))]
    {
      hide Score, Average, Nearest;
      if provider !in rows {
        rows := rows[provider := Inserted(e)];
        if reading != Both {
          return;
        }
      } else if reading != RatesOnly {
        rows := rows[provider := Upserted(rows[provider], e)];
      }
      if reading != UpsertOnly {
        rows := rows[provider := Rated(rows[provider])];
      }
    }

    /** The statistics part of MarkJobFailed, for the provider of the job if it has one. */
    method MarkJobFailed(provider: Option<nat>, status: string, reading: Reading)
      modifies this
      ensures rows == if provider.None? then old(rows)
                      else old(rows)[provider.value :=
                             After(old(Row(provider.value)), Report(Failure(status == "timed_out"), reading))]
    {
      if provider.Some? {
        Upsert(provider.value, Failure(status == "timed_out"), reading);
      }
    }
  }
}
