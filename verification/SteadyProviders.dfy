/** From a provider's history to its routing score, in numbers. */
module SteadyProviders {
  import opened Credits
  import opened ProviderStats
  import R = Routing

  /** The row after the first event: a success of latency l is worth 70 points and 20 less l / 500, and a
      failure none, or the 15 points of the assumed latency if the second update takes effect. */
  lemma FirstRow(r: Report)
    ensures var s := Run([r]).value;
            && Run([r]).Some? && s.total == 1
            && match r.event
               case Success(l) =>
                 && s.succeeded == 1 && s.failed == s.timedOut == 0 && s.average == Some(100 * l) && s.rate == 10000
                 && (0 <= l <= 10000 ==> s.trust == 900000 - 20 * l)
               case Failure(timeout) =>
                 && s.succeeded == 0 && s.timedOut == (if timeout then 1 else 0) && s.failed == 1 - s.timedOut
                 && s.average == None && s.rate == 0 && s.trust == if r.reading == Both then 150000 else 0
  {
    assert [r][..0] == [];
    assert Nearest(10000, 1) == 10000 && Nearest(0, 1) == 0;
    match r.event
    case Success(l) => if 0 <= l <= 10000 { WholeScore(1, l); }
    case Failure(_) => NoSuccess();
  }

  /** With every job a success the score is exact. */
  lemma WholeScore(n: nat, l: int)
    requires n > 0 && 0 <= l <= 10000
    ensures Score(n, n, 100 * l) == 900000 - 20 * l
  {
    var q := 900000 - 20 * l;
    assert n * 70 * PERCENT * 5 + (20 * 5 * PERCENT - 100 * l) * n == q * (5 * n);
    NearestWhole(q, 5 * n, q * (5 * n));
  }

  lemma NearestWhole(q: int, b: nat, a: int)
    requires b > 0 && q >= 0 && a == q * b
    ensures Nearest(a, b) == q
  {
    NearestBetween(a, b, q, q);
  }

  lemma NoSuccess()
    ensures Score(0, 1, FALLBACK_AVERAGE) == 150000
  {
  }

  /** n successes of latency l, every update effective. */
  function Steady(n: nat, l: int): seq<Report> {
    if n == 0 then [] else Steady(n - 1, l) + [Report(Success(l), Both)]
  }

  lemma {:induction false} SteadyRow(n: nat, l: int)
    requires n > 0 && 0 <= l <= 10000
    ensures Run(Steady(n, l)) == Some(Stats(n, n, 0, 0, Some(100 * l), 10000, 900000 - 20 * l))
  {
    var r := Report(Success(l), Both);
    assert Steady(n, l)[..|Steady(n, l)| - 1] == Steady(n - 1, l);
    if n > 1 {
      SteadyRow(n - 1, l);
    }
    hide Run, Steady;
    SteadyStep(n, l);
  }

  lemma SteadyStep(n: nat, l: int)
    requires n > 0 && 0 <= l <= 10000
    ensures After(if n == 1 then None else Some(Stats(n - 1, n - 1, 0, 0, Some(100 * l), 10000, 900000 - 20 * l)),
                  Report(Success(l), Both)) == Stats(n, n, 0, 0, Some(100 * l), 10000, 900000 - 20 * l)
  {
    WholeScore(n, l);
    NearestWhole(10000, n, n * PERCENT);
    if n > 1 {
      NearestWhole(100 * l, n, 100 * l * (n - 1) + 100 * l);
    }
    hide Score, Nearest;
  }

  /** A provider with nothing but successes of one latency has this score, */
  lemma SteadyScore(n: nat, l: int, queueDepth: int, heartbeatAge: int)
    requires n > 0 && 0 <= l <= 5000
    ensures R.Score(R.CandidateOf(Run(Steady(n, l)).value, queueDepth, heartbeatAge)) ==
            76.5 - l as real * 0.0047
            + (if queueDepth <= 0 then 10.0 else if queueDepth == 1 then 5.0 else 0.0)
            + (if heartbeatAge <= 15 then 10.0 else if heartbeatAge <= 30 then 5.0 else 0.0)
  {
    SteadyRow(n, l);
    hide Run, Steady;
    var c := R.CandidateOf(Stats(n, n, 0, 0, Some(100 * l), 10000, 900000 - 20 * l), queueDepth, heartbeatAge);
    assert c.trust == Some(90.0 - l as real * 0.002) && c.rate == Some(1.0) && c.latency == Some(l as real);
    assert R.LatencyScore(c) == 100.0 - l as real / 50.0;
    if queueDepth >= 2 {
      assert queueDepth as real >= 2.0;
    }
  }

  /** one without any figures this, */
  lemma UnknownScore(queueDepth: int, heartbeatAge: int, totalJobs: int)
    requires queueDepth <= 0 && heartbeatAge <= 15
    ensures R.Score(R.Candidate(None, None, None, queueDepth, heartbeatAge, totalJobs)) == 49.5
  {
  }

  /** so of two steady providers with equal queues and heartbeats the faster one is preferred, and at equal
      latency the one with fewer jobs; and a steady one is preferred to an unknown one at any latency. */
  lemma SteadyPreference(n: nat, l: int, m: nat, k: int, queueDepth: int, heartbeatAge: int)
    requires n > 0 && m > 0 && 0 <= l <= 5000 && 0 <= k <= 5000
    ensures var a := R.CandidateOf(Run(Steady(n, l)).value, queueDepth, heartbeatAge);
            var b := R.CandidateOf(Run(Steady(m, k)).value, queueDepth, heartbeatAge);
            && (R.Prefer(a, b) <==> l < k || (l == k && n < m))
            && (queueDepth <= 0 && heartbeatAge <= 15 ==>
                  R.Prefer(a, R.Candidate(None, None, None, queueDepth, heartbeatAge, 0)))
  {
    SteadyScore(n, l, queueDepth, heartbeatAge);
    SteadyScore(m, k, queueDepth, heartbeatAge);
    SteadyRow(n, l);
    SteadyRow(m, k);
    if queueDepth <= 0 && heartbeatAge <= 15 {
      UnknownScore(queueDepth, heartbeatAge, 0);
    }
    hide Run, Steady, R.Score;
  }
}
