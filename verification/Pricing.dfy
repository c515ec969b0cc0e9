/** PriceCredits and ProviderReward in float64, against the exact arithmetic of the design. */
module Pricing {
  import opened Credits
  import opened Binary64

  /** Conversion to int64. Out of range Go leaves the value to the machine: here amd64's. */
  function ToInt64(n: int): (r: int)
    ensures IsInt64(r)
  {
    if IsInt64(n) then n else MIN_INT64
  }

  function Ceil(x: real): (n: int)
    ensures n as real - 1.0 < x <= n as real
  {
    -((-x).Floor)
  }

  /** float64(tokens) * float64(rate) / 1000 */
  function Quotient(tokens: int, rate: int): real {
    Round(Times(Round(tokens as real), Round(rate as real)) / 1000.0)
  }

  function PriceCredits(inputTokens: int, outputTokens: int, inputPer1K: int, outputPer1K: int): (r: int)
    ensures IsInt64(r)
  {
    Wrap64(ToInt64(Ceil(Quotient(inputTokens, inputPer1K))) + ToInt64(Ceil(Quotient(outputTokens, outputPer1K))))
  }

  /** numeric(6,4) ratios are stored as ten-thousandths and read as the nearest float64. */
  const RATIO_SCALE: int := 10000

  function StoredRatio(k: int): real {
    Round(k as real / 10000.0)
  }

  function RewardProduct(cost: int, k: int): real {
    Times(Round(cost as real), StoredRatio(k))
  }

  function ProviderReward(cost: int, k: int): (r: int)
    ensures IsInt64(r)
  {
    ToInt64(RewardProduct(cost, k).Floor)
  }

  // ---- The exact arithmetic ----

  function CeilDiv(n: int, d: int): int
    requires d > 0
  {
    (n + d - 1) / d
  }

  /** ceil(in*rin/1000) + ceil(out*rout/1000) over the integers. */
  function ExactPrice(inputTokens: int, outputTokens: int, inputPer1K: int, outputPer1K: int): int {
    CeilDiv(inputTokens * inputPer1K, 1000) + CeilDiv(outputTokens * outputPer1K, 1000)
  }

  // ---- Prices ----

  lemma FactorsBelow(a: int, b: int)
    requires a >= 0 && b >= 0 && 0 < a * b < TWO53
    ensures 0 < a < TWO53 && 0 < b < TWO53
  {
    assert a * b >= a && a * b >= b by {
      assert a * (b - 1) >= 0 && (a - 1) * b >= 0;
    }
  }

  lemma ProductExact(a: int, b: int)
    requires a >= 0 && b >= 0 && a * b < TWO53
    ensures Times(Round(a as real), Round(b as real)) == (a * b) as real
  {
    if a == 0 || b == 0 {
      RoundInt(0);
      TimesZero(Round(a as real), Round(b as real));
    } else {
      assert a * b > 0;
      FactorsBelow(a, b);
      RoundInt(a);
      RoundInt(b);
      TimesExact(a, b);
    }
  }

  lemma TimesZero(a: real, b: real)
    requires a == 0.0 || b == 0.0
    ensures Times(a, b) == 0.0
  {
    assert a * b == 0.0;
  }

  lemma CeilOfQuotient(n: int)
    requires 0 <= n < TWO53
    ensures Ceil(Round(n as real / 1000.0)) == CeilDiv(n, 1000)
  {
    var q, r := n / 1000, n % 1000;
    var x := n as real / 1000.0;
    assert x == q as real + r as real / 1000.0;
    RoundInt(q);
    RoundInt(q + 1);
    RoundError(x);
    RoundPosMonotone(q as real, x);
    RoundPosMonotone(x, (q + 1) as real);
    if r == 0 {
      assert CeilDiv(n, 1000) == q;
    } else {
      assert CeilDiv(n, 1000) == q + 1;
      assert R53 * (RoundPos(x) - x) >= -x > -R53 / 1000.0;
      assert RoundPos(x) > q as real;
    }
  }

  /** While both products stay below 2^53 the float price is the exact integer price: the rounded
      quotient never crosses an integer. */
  lemma PriceIsExact(inputTokens: int, outputTokens: int, inputPer1K: int, outputPer1K: int)
    requires inputTokens >= 0 && outputTokens >= 0 && inputPer1K >= 0 && outputPer1K >= 0
    requires inputTokens * inputPer1K < TWO53 && outputTokens * outputPer1K < TWO53
    ensures PriceCredits(inputTokens, outputTokens, inputPer1K, outputPer1K)
         == ExactPrice(inputTokens, outputTokens, inputPer1K, outputPer1K)
  {
    ProductExact(inputTokens, inputPer1K);
    ProductExact(outputTokens, outputPer1K);
    CeilOfQuotient(inputTokens * inputPer1K);
    CeilOfQuotient(outputTokens * outputPer1K);
  }

  lemma QuotientMonotone(tokens: int, rate: int, tokens': int, rate': int)
    requires 0 <= tokens <= tokens' && 0 <= rate <= rate'
    ensures 0.0 <= Quotient(tokens, rate) <= Quotient(tokens', rate')
  {
    RoundMonotone(tokens as real, tokens' as real);
    RoundMonotone(rate as real, rate' as real);
    RoundMonotone(0.0, tokens as real);
    RoundMonotone(0.0, rate as real);
    var a, b, a', b' := Round(tokens as real), Round(rate as real), Round(tokens' as real), Round(rate' as real);
    TimesMonotone(a, b, a', b');
    RoundMonotone(0.0, Times(a, b) / 1000.0);
    RoundMonotone(Times(a, b) / 1000.0, Times(a', b') / 1000.0);
  }

  /** The price before conversion to int64. */
  function WidePrice(inputTokens: int, outputTokens: int, inputPer1K: int, outputPer1K: int): int {
    Ceil(Quotient(inputTokens, inputPer1K)) + Ceil(Quotient(outputTokens, outputPer1K))
  }

  /** Prices never fall when any argument grows, up to the end of the 64-bit range, and are never
      negative there. */
  lemma PriceMonotone(i: int, o: int, ri: int, ro: int, i': int, o': int, ri': int, ro': int)
    requires 0 <= i <= i' && 0 <= o <= o' && 0 <= ri <= ri' && 0 <= ro <= ro'
    requires WidePrice(i', o', ri', ro') <= MAX_INT64
    ensures 0 <= PriceCredits(i, o, ri, ro) <= PriceCredits(i', o', ri', ro')
  {
    QuotientMonotone(i, ri, i', ri');
    QuotientMonotone(o, ro, o', ro');
  }

  // ---- Rewards ----

  lemma RatioBounds(k: int)
    requires 0 <= k <= RATIO_SCALE
    ensures 0.0 <= StoredRatio(k) <= 1.0
    ensures StoredRatio(RATIO_SCALE) == 1.0
  {
    RoundInt(1);
    RoundInt(0);
    RoundMonotone(0.0, k as real / 10000.0);
    RoundMonotone(k as real / 10000.0, 1.0);
  }

  /** A reward may exceed the cost it is a share of, and exactly when the share is the whole cost and
      float64(cost) rounds up. */
  lemma RewardWithinCost(cost: int, k: int)
    requires 0 <= cost <= MAX_INT64 && 0 <= k <= RATIO_SCALE
    ensures 0 <= ProviderReward(cost, k) <= cost <==> !(k == RATIO_SCALE && Round(cost as real) > cost as real)
  {
    if k == RATIO_SCALE {
      RatioBounds(k);
      var c := Round(cost as real);
      RoundError(cost as real);
      RoundOfRounded(cost as real);
      RoundedIsInt(cost);
      TimesOne(c);
    } else {
      RewardBelowCost(cost, k);
    }
  }

  lemma TimesOne(a: real)
    ensures Times(a, 1.0) == Round(a)
  {
    assert a * 1.0 == a;
  }

  /** Rounding again changes nothing. */
  lemma {:induction false} RoundOfRounded(x: real)
    requires x >= 0.0
    ensures RoundPos(x) >= 0.0 && RoundPos(RoundPos(x)) == RoundPos(x)
    decreases Steps(x)
  {
    StepsDown(x);
    RoundError(x);
    if x == 0.0 {
    } else if x >= R53 {
      RoundOfRounded(x / 2.0);
      RoundDouble(RoundPos(x / 2.0));
    } else if x < R52 {
      RoundOfRounded(2.0 * x);
      RoundDouble(RoundPos(x));
    } else {
      RoundInt(NearestEven(x));
    }
  }

  /** An integer rounds to an integer. */
  lemma {:induction false} RoundedIsInt(n: int)
    requires n >= 0
    ensures RoundPos(n as real).Floor as real == RoundPos(n as real)
  {
    if n <= TWO53 {
      RoundInt(n);
    } else {
      RoundedLargeIsInt(n as real);
    }
  }

  lemma {:induction false} RoundedLargeIsInt(x: real)
    requires x >= R52
    ensures RoundPos(x).Floor as real == RoundPos(x)
    decreases Steps(x)
  {
    StepsDown(x);
    if x >= R53 {
      RoundedLargeIsInt(x / 2.0);
      var n := RoundPos(x / 2.0).Floor;
      assert RoundPos(x) == (2 * n) as real;
    }
  }

  /** Below the whole cost three roundings cannot make up the missing ten-thousandth. */
  lemma RewardBelowCost(cost: int, k: int)
    requires 0 <= cost <= MAX_INT64 && 0 <= k < RATIO_SCALE
    ensures 0.0 <= RewardProduct(cost, k) <= cost as real
  {
    var x := cost as real;
    var y := k as real / 10000.0;
    RoundError(x);
    RoundError(y);
    var c, r := RoundPos(x), RoundPos(y);
    RatioBounds(k);
    assert c <= x * 1.00001;
    assert r <= 0.99991 by {
      assert y <= 0.9999;
    }
    MulMonotone(c, r, x * 1.00001, 0.99991);
    assert (x * 1.00001) * 0.99991 <= x * 0.99993;
    TimesBound(c, r, x * 0.99993);
  }

  /** Up to costs of 2^53 credits the reward is a share of the cost. */
  lemma RewardIsShare(cost: int, k: int)
    requires 0 <= cost <= TWO53 && 0 <= k <= RATIO_SCALE
    ensures 0 <= ProviderReward(cost, k) <= cost
  {
    RoundInt(cost);
    RewardWithinCost(cost, k);
  }

  /** The product is within one ten-thousandth of the exact share for costs up to 2^38. */
  lemma RewardProductClose(cost: int, k: int)
    requires 0 <= cost <= 0x40_0000_0000 && 0 <= k <= RATIO_SCALE
    ensures var y := cost as real * (k as real / 10000.0);
            y - 0.0001 < RewardProduct(cost, k) < y + 0.0001
  {
    var c := cost as real;
    var q := k as real / 10000.0;
    RoundInt(cost);
    RoundError(q);
    RatioBounds(k);
    TimesNear(c, q, RoundPos(q));
  }

  lemma TimesNear(c: real, q: real, r: real)
    requires 0.0 <= c <= 274877906944.0 && 0.0 <= r <= 1.0 && -1.0 <= R53 * (r - q) <= 1.0
    ensures c * q - 0.0001 < Times(c, r) < c * q + 0.0001
  {
    ScaledError(c, q, r);
    TimesAbsoluteError(c, r);
  }

  lemma TimesAbsoluteError(c: real, r: real)
    requires 0.0 <= c <= 274877906944.0 && 0.0 <= r <= 1.0
    ensures -0.00004 < Times(c, r) - c * r < 0.00004
  {
    var p := c * r;
    MulUnit(c, r, p);
    TimesError(c, r, p);
    assert -0.00004 < Times(c, r) - p < 0.00004;
  }

  /** Multiplying by c multiplies the rounding error of r by c. */
  lemma ScaledError(c: real, q: real, r: real)
    requires 0.0 <= c <= 274877906944.0 && -1.0 <= R53 * (r - q) <= 1.0
    ensures -0.000031 < c * r - c * q < 0.000031
  {
    var e := R53 * (r - q);
    UnitTimes(c, e);
    Distribute(c, q, r, e);
    ErrorBound(c, c * e, c * r - c * q);
  }

  lemma ErrorBound(c: real, ce: real, d: real)
    requires c <= 274877906944.0 && -c <= ce <= c && ce == R53 * d
    ensures -0.000031 < d < 0.000031
  {
  }

  lemma UnitTimes(c: real, e: real)
    requires 0.0 <= c && -1.0 <= e <= 1.0
    ensures -c <= c * e <= c
  {
    assert c * (1.0 - e) >= 0.0;
    assert c * (1.0 + e) >= 0.0;
  }

  lemma Distribute(c: real, q: real, r: real, e: real)
    requires e == R53 * (r - q)
    ensures c * e == R53 * (c * r - c * q)
  {
  }

  /** The paid reward is the documented floor(cost * ratio) or one credit less, the latter only when
      the exact share is a whole number. */
  lemma RewardFloorOrOneLess(cost: int, k: int)
    requires 0 <= cost <= 0x40_0000_0000 && 0 <= k <= RATIO_SCALE
    ensures var exact := cost * k / RATIO_SCALE;
            || ProviderReward(cost, k) == exact
            || (cost * k % RATIO_SCALE == 0 && ProviderReward(cost, k) == exact - 1)
  {
    var m, j := cost * k / RATIO_SCALE, cost * k % RATIO_SCALE;
    var y := cost as real * (k as real / 10000.0);
    assert y == (cost * k) as real / 10000.0 by {
      assert cost as real * k as real == (cost * k) as real;
    }
    assert cost * k == m * 10000 + j;
    assert y == m as real + j as real / 10000.0;
    RewardProductClose(cost, k);
    RewardIsShare(cost, k);
    var z := RewardProduct(cost, k);
    if j != 0 {
      assert m as real < z < m as real + 1.0;
      assert z.Floor == m;
    } else {
      assert m as real - 1.0 < z < m as real + 1.0;
      assert z.Floor == m || z.Floor == m - 1;
    }
  }
}
