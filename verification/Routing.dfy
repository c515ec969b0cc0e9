/** The routing score of a provider and the order it induces. Scores are exact reals. */
module Routing {
  import opened Credits
  import ProviderStats

  /** An absent value stands for nil or a NaN. */
  datatype Candidate = Candidate(trust: Option<real>, rate: Option<real>, latency: Option<real>,
                                 queueDepth: int, heartbeatAge: int, totalJobs: int)

  function ValueOr(v: Option<real>, fallback: real): real {
    if v.None? then fallback else v.value
  }

  function Clamp(v: real, min: real, max: real): real {
    if v < min then min else if v > max then max else v
  }

  function LatencyScore(c: Candidate): real {
    Clamp(100.0 - ValueOr(c.latency, 2500.0) / 50.0, 0.0, 100.0)
  }

  function CapacityScore(c: Candidate): real {
    if c.queueDepth > 0 then Clamp(100.0 - c.queueDepth as real * 50.0, 0.0, 100.0) else 100.0
  }

  function FreshnessScore(c: Candidate): real {
    if c.heartbeatAge <= 15 then 100.0 else if c.heartbeatAge <= 30 then 50.0 else 0.0
  }

  function Score(c: Candidate): real {
    ValueOr(c.trust, 20.0) * 0.35 + ValueOr(c.rate, 0.5) * 100.0 * 0.25 + LatencyScore(c) * 0.20
    + CapacityScore(c) * 0.10 + FreshnessScore(c) * 0.10
  }

  predicate Prefer(a: Candidate, b: Candidate) {
    if Score(a) == Score(b) then a.totalJobs < b.totalJobs else Score(a) > Score(b)
  }

  /** Whether `b` is the same provider with no less latency, queue and heartbeat age. */
  predicate Worsens(a: Candidate, b: Candidate) {
    && a.trust == b.trust && a.rate == b.rate
    && ValueOr(a.latency, 2500.0) <= ValueOr(b.latency, 2500.0)
    && a.queueDepth <= b.queueDepth && a.heartbeatAge <= b.heartbeatAge
  }

  lemma ScoreNeverRises(a: Candidate, b: Candidate)
    requires Worsens(a, b)
    ensures Score(b) <= Score(a)
  {
    assert LatencyScore(b) <= LatencyScore(a);
    assert CapacityScore(b) <= CapacityScore(a);
    assert FreshnessScore(b) <= FreshnessScore(a);
  }

  /** A strict weak order: irreflexive, transitive, and ties are transitive. */
  lemma PreferIsStrictWeakOrder(a: Candidate, b: Candidate, c: Candidate)
    ensures !Prefer(a, a)
    ensures Prefer(a, b) ==> !Prefer(b, a)
    ensures Prefer(a, b) && Prefer(b, c) ==> Prefer(a, c)
    ensures Prefer(a, c) ==> Prefer(a, b) || Prefer(b, c)
  {
    hide Score;
  }

  /** The candidate a statistics row gives rise to. */
  function CandidateOf(s: ProviderStats.Stats, queueDepth: int, heartbeatAge: int): Candidate {
    Candidate(Some(s.trust as real / 10000.0), Some(s.rate as real / 10000.0),
              if s.average.None? then None else Some(s.average.value as real / 100.0),
              queueDepth, heartbeatAge, s.total)
  }

  /** Whatever its history, a provider scores between 0 and 100. */
  lemma ScoresOfRunsAreBounded(rs: seq<ProviderStats.Report>, queueDepth: int, heartbeatAge: int)
    requires rs != []
    ensures 0.0 <= Score(CandidateOf(ProviderStats.Run(rs).value, queueDepth, heartbeatAge)) <= 100.0
  {
    ProviderStats.RatesStayInRange(rs);
    var s := ProviderStats.Run(rs).value;
    hide ProviderStats.Run;
    var c := CandidateOf(s, queueDepth, heartbeatAge);
    assert 0.0 <= ValueOr(c.trust, 20.0) <= 100.0;
    assert 0.0 <= ValueOr(c.rate, 0.5) <= 1.0;
    assert 0.0 <= LatencyScore(c) <= 100.0;
    assert 0.0 <= CapacityScore(c) <= 100.0;
    assert 0.0 <= FreshnessScore(c) <= 100.0;
  }
}
