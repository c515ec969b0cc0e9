/** What a request reserves and what its result costs, in the plain arithmetic of the design. */
module Amounts {
  import opened Credits
  import opened Pricing
  import opened Metering
  import opened Settlement
  import opened Billing
  import B = Binary64
  import H = Hub

  // ---- The reservation ----

  /** Both parts of the price are in the exact range of float64. */
  predicate ExactParts(prompt: int, completion: int, t: Terms) {
    && prompt >= 0 && completion >= 0 && t.inputPer1K >= 0 && t.outputPer1K >= 0
    && prompt * t.inputPer1K < B.TWO53 && completion * t.outputPer1K < B.TWO53
  }

  /** A quarter of the input's length at the input rate and the whole token limit at the output rate, per
      thousand tokens, each rounded up. */
  lemma QuoteIsPrice(t: Terms)
    requires ExactParts((t.inputChars + 3) / 4, t.maxTokens, t)
    ensures Quote(t) ==
            ((t.inputChars + 3) / 4 * t.inputPer1K + 999) / 1000 + (t.maxTokens * t.outputPer1K + 999) / 1000
  {
    assert EstimateTokensFromChars(t.inputChars) == (t.inputChars + 3) / 4;
    hide Quotient, Ceil;
    PriceIsExact((t.inputChars + 3) / 4, t.maxTokens, t.inputPer1K, t.outputPer1K);
  }

  // ---- The charge ----

  /** A count that can belong to a text: at least one token in eight characters and at most one in two, and
      a hundred; an empty text has none. */
  predicate FitsText(chars: nat, tokens: int) {
    if chars == 0 then tokens == 0 else chars <= 8 * tokens && 2 * (tokens - 100) <= chars + 1
  }

  predicate ReportHolds(t: Terms, r: H.JobResult) {
    r.usage.Some? && FitsText(t.inputChars, r.usage.value.0) && FitsText(r.contentChars, r.usage.value.1)
  }

  /** Prompt and completion tokens: the provider's report if both of its figures can belong to their texts,
      and otherwise a quarter of each length, rounded up. */
  function Tokens(t: Terms, r: H.JobResult): (int, int) {
    if ReportHolds(t, r) then r.usage.value else ((t.inputChars + 3) / 4, (r.contentChars + 3) / 4)
  }

  /** A bill measures exactly these tokens and the provider's latency, */
  lemma ChargeMeasures(t: Terms, quote: int, r: H.JobResult)
    requires IsInt64(quote)
    ensures Charge(t, quote, r).measured == Measured(Tokens(t, r).0, Tokens(t, r).1, r.latency)
  {
    hide PriceCredits, ProviderReward;
  }

  /** and costs their price, at most the reservation. */
  lemma ChargeIsPrice(t: Terms, quote: int, r: H.JobResult)
    requires IsInt64(quote) && ExactParts(Tokens(t, r).0, Tokens(t, r).1, t)
    ensures var (prompt, completion) := Tokens(t, r);
            var price := (prompt * t.inputPer1K + 999) / 1000 + (completion * t.outputPer1K + 999) / 1000;
            Charge(t, quote, r).cost == if price > quote then quote else price
  {
    ChargeMeasures(t, quote, r);
    var (prompt, completion) := Tokens(t, r);
    assert Counts(t, r) == (prompt, completion);
    hide Counts, Tokens, Quotient, Ceil;
    PriceIsExact(prompt, completion, t.inputPer1K, t.outputPer1K);
  }
}
