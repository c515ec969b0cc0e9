/** Token estimates, the plausibility window for reported counts, and what both mean for prices. */
module Metering {
  import opened Pricing

  datatype Source = RuntimeReported | ServerEstimated

  function EstimateTokensFromChars(chars: int): int {
    if chars <= 0 then 0 else (chars + 3) / 4
  }

  predicate InReasonableRange(chars: int, reported: int) {
    if chars <= 0 then reported == 0
    else (chars + 7) / 8 <= reported <= (chars + 1) / 2 + 100
  }

  function ValidateReportedTokens(promptChars: int, completionChars: int, reportedPrompt: int, reportedCompletion: int)
    : (int, int, Source)
  {
    if InReasonableRange(promptChars, reportedPrompt) && InReasonableRange(completionChars, reportedCompletion)
    then (reportedPrompt, reportedCompletion, RuntimeReported)
    else (EstimateTokensFromChars(promptChars), EstimateTokensFromChars(completionChars), ServerEstimated)
  }

  /** Whichever source wins, both counts are plausible, and validating them again accepts them as
      they are. */
  lemma ValidationIsStable(pc: int, cc: int, rp: int, rc: int)
    ensures var v := ValidateReportedTokens(pc, cc, rp, rc);
            && 0 <= v.0 && 0 <= v.1
            && InReasonableRange(pc, v.0) && InReasonableRange(cc, v.1)
            && ValidateReportedTokens(pc, cc, v.0, v.1) == (v.0, v.1, RuntimeReported)
  {
  }

  /** A report is used, and named as the source, exactly when both of its counts are plausible. */
  lemma SourceIsNamed(pc: nat, cc: nat, rp: int, rc: int)
    ensures ValidateReportedTokens(pc, cc, rp, rc) ==
            if (if pc == 0 then rp == 0 else pc <= 8 * rp && 2 * (rp - 100) <= pc + 1) &&
               (if cc == 0 then rc == 0 else cc <= 8 * rc && 2 * (rc - 100) <= cc + 1)
            then (rp, rc, RuntimeReported) else ((pc + 3) / 4, (cc + 3) / 4, ServerEstimated)
  {
  }

  lemma MulLe(a: int, b: int, r: int)
    requires a <= b && r >= 0
    ensures a * r <= b * r
  {
    assert (b - a) * r >= 0;
  }

  /** ceil(n / 1000) */
  function Thousandths(n: int): int {
    CeilDiv(n, 1000)
  }

  lemma ThousandthsSplit(n: int, m: int, k: int)
    requires n <= 2 * m + k
    ensures Thousandths(n) <= 2 * Thousandths(m) + Thousandths(k)
  {
  }

  /** One side of the price: counts within a factor two (up to `slack` more) cost within a factor two. */
  lemma PartBound(a: int, b: int, slack: int, r: int)
    requires a <= 2 * b + slack && r >= 0
    ensures Thousandths(a * r) <= 2 * Thousandths(b * r) + Thousandths(slack * r)
  {
    MulLe(a, 2 * b + slack, r);
    assert (2 * b + slack) * r == 2 * (b * r) + slack * r;
    ThousandthsSplit(a * r, b * r, slack * r);
  }

  lemma TenthOfRate(r: int)
    requires r >= 0
    ensures Thousandths(100 * r) == CeilDiv(r, 10) && Thousandths(0 * r) == 0
  {
  }

  lemma EstimateNear(chars: int, tokens: int)
    requires InReasonableRange(chars, tokens)
    ensures tokens <= 2 * EstimateTokensFromChars(chars) + 100
    ensures EstimateTokensFromChars(chars) <= 2 * tokens
  {
  }

  /** A provider's report can move the price of a request only within a factor of two of the server's
      own estimate, plus a tenth of the per-thousand rates upwards. */
  lemma ReportedCostNearEstimate(pc: int, cc: int, rp: int, rc: int, rin: int, rout: int)
    requires rin >= 0 && rout >= 0
    ensures var v := ValidateReportedTokens(pc, cc, rp, rc);
            var paid := ExactPrice(v.0, v.1, rin, rout);
            var estimate := ExactPrice(EstimateTokensFromChars(pc), EstimateTokensFromChars(cc), rin, rout);
            && paid <= 2 * estimate + CeilDiv(rin, 10) + CeilDiv(rout, 10)
            && estimate <= 2 * paid
  {
    ValidationIsStable(pc, cc, rp, rc);
    var v := ValidateReportedTokens(pc, cc, rp, rc);
    PartNear(pc, v.0, rin);
    PartNear(cc, v.1, rout);
  }

  lemma PartNear(chars: int, tokens: int, r: int)
    requires InReasonableRange(chars, tokens) && r >= 0
    ensures CeilDiv(tokens * r, 1000) <= 2 * CeilDiv(EstimateTokensFromChars(chars) * r, 1000) + CeilDiv(r, 10)
    ensures CeilDiv(EstimateTokensFromChars(chars) * r, 1000) <= 2 * CeilDiv(tokens * r, 1000)
  {
    var e := EstimateTokensFromChars(chars);
    EstimateNear(chars, tokens);
    PartBound(tokens, e, 100, r);
    PartBound(e, tokens, 0, r);
    TenthOfRate(r);
  }
}
