/** What a chat request reserves and what a provider's result costs: the arithmetic between
    metering, pricing and settlement in ChatCompletions. */
module Billing {
  import opened Credits
  import opened Pricing
  import opened Metering
  import opened Settlement
  import B = Binary64
  import H = Hub

  /** The facts a request is priced by: input length, token limit, the model's rates and its reward
      ratio in ten-thousandths. */
  datatype Terms = Terms(inputChars: nat, maxTokens: int, inputPer1K: int, outputPer1K: int, ratio: int)

  /** `measured` are the figures that go into the usage record. */
  datatype Bill = Bill(cost: int, reward: int, measured: Measured)

  /** The reservation: the estimated input and the whole token limit. */
  function Quote(t: Terms): (quote: int)
    ensures IsInt64(quote)
  {
    PriceCredits(EstimateTokensFromChars(t.inputChars), t.maxTokens, t.inputPer1K, t.outputPer1K)
  }

  /** The counts charged for: reported ones if there are any and both are plausible. */
  function Counts(t: Terms, r: H.JobResult): (int, int) {
    var (promptReport, completionReport) := if r.usage.Some? then r.usage.value else (0, 0);
    var (prompt, completion, _) := ValidateReportedTokens(t.inputChars, r.contentChars, promptReport, completionReport);
    (prompt, completion)
  }

  /** The cost is capped at the reservation; the reward is a share of the capped cost. */
  function Charge(t: Terms, quote: int, r: H.JobResult): (b: Bill)
    requires IsInt64(quote)
    ensures b.cost <= quote && IsInt64(b.cost) && IsInt64(b.reward)
    ensures b.reward == ProviderReward(b.cost, t.ratio)
    ensures b.measured == Measured(Counts(t, r).0, Counts(t, r).1, r.latency)
  {
    var (prompt, completion) := Counts(t, r);
    var price := PriceCredits(prompt, completion, t.inputPer1K, t.outputPer1K);
    var cost := if price > quote then quote else price;
    Bill(cost, ProviderReward(cost, t.ratio), Measured(prompt, completion, r.latency))
  }

  /** Valid model rates, and prices that stay in the exact range of float64. */
  predicate ExactRange(t: Terms, r: H.JobResult) {
    && 0 <= t.inputPer1K && 0 <= t.outputPer1K && 0 <= t.ratio <= RATIO_SCALE
    && (t.inputChars / 2 + 101) * t.inputPer1K < B.TWO53
    && (r.contentChars / 2 + 101) * t.outputPer1K < B.TWO53
  }

  /** In that range a bill is a proper one: neither amount is negative, the reward is at most the
      cost, and the cost is the exact integer price of plausible counts, capped at the reservation. */
  lemma ChargeIsProper(t: Terms, quote: int, r: H.JobResult)
    requires IsInt64(quote) && 0 <= quote <= B.TWO53 && ExactRange(t, r)
    ensures var b := Charge(t, quote, r); 0 <= b.reward <= b.cost <= quote
    ensures exists p, c :: InReasonableRange(t.inputChars, p) && InReasonableRange(r.contentChars, c) &&
              var exact := ExactPrice(p, c, t.inputPer1K, t.outputPer1K);
              Charge(t, quote, r).cost == if exact > quote then quote else exact
  {
    var (rp, rc) := if r.usage.Some? then r.usage.value else (0, 0);
    var (p, c, _) := ValidateReportedTokens(t.inputChars, r.contentChars, rp, rc);
    ValidationIsStable(t.inputChars, r.contentChars, rp, rc);
    CountInRange(t.inputChars, p, t.inputPer1K);
    CountInRange(r.contentChars, c, t.outputPer1K);
    PriceIsExact(p, c, t.inputPer1K, t.outputPer1K);
    RewardIsShare(Charge(t, quote, r).cost, t.ratio);
  }

  lemma CountInRange(chars: nat, tokens: int, rate: int)
    requires InReasonableRange(chars, tokens) && rate >= 0
    requires (chars / 2 + 101) * rate < B.TWO53
    ensures 0 <= tokens && 0 <= tokens * rate < B.TWO53
  {
    MulLe(tokens, chars / 2 + 101, rate);
    MulLe(0, tokens, rate);
  }

  predicate ValidRatio(ratio: int) {
    0 <= ratio <= RATIO_SCALE
  }

  /** What is accepted of a model's rates and ratio. */
  predicate ValidRates(t: Terms) {
    t.inputPer1K >= 0 && t.outputPer1K >= 0 && ValidRatio(t.ratio)
  }

  /** The one case in which a reward exceeds the cost it is a share of. */
  predicate RewardExceeds(cost: int, ratio: int) {
    ratio == RATIO_SCALE && B.Round(cost as real) > cost as real
  }

  /** For every bill of a valid ratio whose cost is not negative, in any range. */
  lemma ChargeIsShare(t: Terms, quote: int, r: H.JobResult)
    requires IsInt64(quote) && ValidRatio(t.ratio) && Charge(t, quote, r).cost >= 0
    ensures var b := Charge(t, quote, r); 0 <= b.reward <= b.cost <==> !RewardExceeds(b.cost, t.ratio)
  {
    hide Charge;
    RewardWithinCost(Charge(t, quote, r).cost, t.ratio);
  }

  /** Each part of the price, or its sum, can pass the 64-bit range; when both parts do, the conversions
      cancel out and the price is zero. */
  predicate PriceInRange(t: Terms, r: H.JobResult) {
    var (prompt, completion) := Counts(t, r);
    var a, b := Ceil(Quotient(prompt, t.inputPer1K)), Ceil(Quotient(completion, t.outputPer1K));
    a + b <= MAX_INT64 || (a > MAX_INT64 && b > MAX_INT64)
  }

  /** The whole cost as a reward, rounded up to 2^63. */
  predicate RewardInRange(cost: int, ratio: int) {
    !(ratio == RATIO_SCALE && B.Round(cost as real) > MAX_INT64 as real)
  }

  /** The sum of two converted parts. */
  lemma SumIsNegative(a: int, b: int)
    requires a >= 0 && b >= 0
    ensures Wrap64(ToInt64(a) + ToInt64(b)) >= 0 <==> a + b <= MAX_INT64 || (a > MAX_INT64 && b > MAX_INT64)
  {
  }

  /** For valid rates the cost is negative exactly when the price of the charged counts is out of range. */
  lemma CostIsNegative(t: Terms, quote: int, r: H.JobResult)
    requires 0 <= quote <= MAX_INT64 && ValidRates(t)
    ensures Charge(t, quote, r).cost >= 0 <==> PriceInRange(t, r)
  {
    var (rp, rc) := if r.usage.Some? then r.usage.value else (0, 0);
    ValidationIsStable(t.inputChars, r.contentChars, rp, rc);
    var (prompt, completion) := Counts(t, r);
    QuotientMonotone(prompt, t.inputPer1K, prompt, t.inputPer1K);
    QuotientMonotone(completion, t.outputPer1K, completion, t.outputPer1K);
    var a, b := Ceil(Quotient(prompt, t.inputPer1K)), Ceil(Quotient(completion, t.outputPer1K));
    hide Quotient, ProviderReward, Wrap64, ToInt64, Ceil, Counts;
    SumIsNegative(a, b);
  }

  /** And a reward on a cost that is not negative is negative only when it is out of range. */
  lemma RewardIsNegative(cost: int, ratio: int)
    requires 0 <= cost <= MAX_INT64 && ValidRatio(ratio)
    ensures ProviderReward(cost, ratio) >= 0 <==> RewardInRange(cost, ratio)
  {
    if ratio == RATIO_SCALE {
      RatioBounds(ratio);
      B.RoundError(cost as real);
      RoundOfRounded(cost as real);
      RoundedIsInt(cost);
      TimesOne(B.Round(cost as real));
    } else {
      RewardBelowCost(cost, ratio);
    }
  }

  /** The figures of a bill fit the usage record if the texts are shorter than 2^30 characters and the
      provider's latency fits. */
  lemma ChargeFits(t: Terms, quote: int, r: H.JobResult)
    requires IsInt64(quote) && t.inputChars < 0x4000_0000 && r.contentChars < 0x4000_0000
    ensures FitsUsage(Charge(t, quote, r).measured) <==> IsInt32(r.latency)
  {
    var (rp, rc) := if r.usage.Some? then r.usage.value else (0, 0);
    ValidationIsStable(t.inputChars, r.contentChars, rp, rc);
  }

  /** A job_error without an error code is billed as an empty completion: the prompt is charged at its
      estimate. */
  lemma EmptyErrorIsBilled(t: Terms, quote: int, job: nat)
    requires IsInt64(quote)
    ensures var prompt := EstimateTokensFromChars(t.inputChars);
            var price := PriceCredits(prompt, 0, t.inputPer1K, t.outputPer1K);
            && Charge(t, quote, H.FromError(job, "")).cost == (if price > quote then quote else price)
            && Charge(t, quote, H.FromError(job, "")).measured == Measured(prompt, 0, 0)
  {
  }
}
