/** Exactly where float64 prices and rewards leave the exact arithmetic. */
module PricingLimits {
  import opened Binary64
  import opened Pricing

  // ---- Prices ----

  /** Between 2^53 and 2^54 float64 holds the even integers; an odd one goes to the adjacent multiple of 4. */
  function Even(n: int): (v: int)
    ensures v % 2 == 0 && n - 1 <= v <= n + 1
  {
    var h, a := n / 4, n % 4;
    2 * (2 * h + if a < 2 then 0 else a - 1)
  }

  lemma RoundAbove(n: int)
    requires TWO53 <= n < 2 * TWO53
    ensures RoundPos(n as real) == Even(n) as real
  {
    var h, a := n / 4, n % 4;
    var x := n as real / 2.0;
    assert x == (2 * h) as real + a as real / 2.0;
    HalfWay(h, a, x);
    var m := NearestEven(x);
    hide NearestEven;
    assert RoundPos(x) == m as real;
  }

  lemma HalfWay(h: int, a: int, x: real)
    requires 0 <= a < 4 && x == (2 * h) as real + a as real / 2.0
    ensures NearestEven(x) == 2 * h + if a < 2 then 0 else a - 1
  {
    var f := x.Floor;
    assert f == 2 * h + if a < 2 then 0 else 1;
  }

  /** A remainder of at least two thousandths survives rounding. */
  lemma RemainderSurvives(x: real, q: int, r: int)
    requires x == q as real + r as real / 1000.0 && 2 <= r < 1000 && q >= 0
    requires x < 2.0 * R53 / 1000.0 || (r > 2 && x <= 2.0 * R53 / 1000.0)
    ensures RoundPos(x) > q as real
  {
    RoundError(x);
    hide RoundPos;
  }

  lemma CeilOfMixed(x: real, q: int, r: int)
    requires x == q as real + r as real / 1000.0 && 0 <= r < 1000 && r != 1 && 0 <= q < TWO53
    requires x < 2.0 * R53 / 1000.0 || (r > 2 && x <= 2.0 * R53 / 1000.0)
    ensures Ceil(Round(x)) == if r == 0 then q else q + 1
  {
    hide RoundPos;
    RoundInt(q);
    RoundInt(q + 1);
    RoundPosMonotone(q as real, x);
    RoundPosMonotone(x, (q + 1) as real);
    if r != 0 {
      RemainderSurvives(x, q, r);
    }
  }

  /** Rounding the quotient of an even number does not change its ceiling. */
  lemma CeilOfEven(v: int)
    requires 0 <= v <= 2 * TWO53 && v % 2 == 0
    ensures Ceil(Round(v as real / 1000.0)) == CeilDiv(v, 1000)
  {
    hide Round, Ceil;
    var q, r := v / 1000, v % 1000;
    assert v as real == q as real * 1000.0 + r as real;
    CeilOfMixed(v as real / 1000.0, q, r);
  }

  lemma EvenQuotient(n: int)
    requires TWO53 <= n < 2 * TWO53
    ensures 0 <= Even(n) <= 2 * TWO53 && Even(n) % 2 == 0
    ensures CeilDiv(Even(n), 1000) == CeilDiv(n, 1000) - if n % 1000 == 1 then 1 else 0
  {
    hide CeilDiv, Even;
    var q, r := n / 1000, n % 1000;
    EvenOf(n, 250 * q + r / 4, r % 4);
    CeilDivOf(q, r, n);
    CeilDivOf(q, r + Even(n) - n, Even(n));
  }

  lemma EvenOf(n: int, h: int, a: int)
    requires n == 4 * h + a && 0 <= a < 4
    ensures Even(n) == n + (if a == 1 then -1 else if a == 3 then 1 else 0)
  {
    assert n / 4 == h && n % 4 == a;
  }

  lemma CeilDivOf(q: int, r: int, n: int)
    requires n == 1000 * q + r && 0 <= r <= 1000
    ensures CeilDiv(n, 1000) == if r == 0 then q else q + 1
  {
  }

  /** What the float64 price of one side lacks. */
  function Shortfall(product: int): int {
    if product > TWO53 && product % 1000 == 1 then 1 else 0
  }

  lemma QuotientOfProduct(tokens: int, rate: int, n: int)
    requires 0 <= tokens <= TWO53 && 0 <= rate <= TWO53 && n == tokens * rate
    ensures n >= 0 && Quotient(tokens, rate) == Round(RoundPos(n as real) / 1000.0)
  {
    hide RoundPos;
    RoundInt(tokens);
    RoundInt(rate);
    var a, b := tokens as real, rate as real;
    assert a * b == n as real;
    assert Round(a) == a && Round(b) == b;
    TimesOf(a, b, n as real);
  }

  lemma TimesOf(a: real, b: real, p: real)
    requires p == a * b
    ensures Times(a, b) == Round(p)
  {
  }

  lemma SideFallsShort(n: int)
    requires 0 <= n < 2 * TWO53
    ensures Ceil(Round(RoundPos(n as real) / 1000.0)) == CeilDiv(n, 1000) - Shortfall(n)
  {
    hide RoundPos, Round, Ceil, CeilDiv, Even;
    if n < TWO53 {
      RoundInt(n);
      CeilOfQuotient(n);
    } else {
      RoundAbove(n);
      EvenQuotient(n);
      CeilOfEven(Even(n));
    }
  }

  /** With factors up to 2^53 and products below 2^54 the float64 price is short by one credit for each
      product above 2^53 that leaves remainder 1 modulo 1000, and exact otherwise. */
  lemma PriceFallsShort(i: int, o: int, rin: int, rout: int)
    requires 0 <= i <= TWO53 && 0 <= o <= TWO53 && 0 <= rin <= TWO53 && 0 <= rout <= TWO53
    requires i * rin < 2 * TWO53 && o * rout < 2 * TWO53
    ensures PriceCredits(i, o, rin, rout) == ExactPrice(i, o, rin, rout) - Shortfall(i * rin) - Shortfall(o * rout)
    ensures PriceCredits(i, o, rin, rout) == ExactPrice(i, o, rin, rout) <==>
            !(i * rin > TWO53 && i * rin % 1000 == 1) && !(o * rout > TWO53 && o * rout % 1000 == 1)
  {
    hide Quotient, Ceil, Round;
    var p, q := i * rin, o * rout;
    QuotientOfProduct(i, rin, p);
    QuotientOfProduct(o, rout, q);
    SideFallsShort(p);
    SideFallsShort(q);
  }

  /** 2^53 + 9 = 9481 * 950026289921 is the first such product. */
  lemma PriceCanMissAbove()
    ensures 9481 * 950026289921 == TWO53 + 9
    ensures PriceCredits(9481, 0, 950026289921, 0) == ExactPrice(9481, 0, 950026289921, 0) - 1
  {
    hide PriceCredits, ExactPrice;
    PriceFallsShort(9481, 0, 950026289921, 0);
  }

  // ---- Rewards ----

  lemma {:induction false} ScaleMinus(x: real, y: real, j: nat)
    ensures Scale(x - y, j) == Scale(x, j) - Scale(y, j)
  {
    if j > 0 {
      ScaleMinus(x, y, j - 1);
    }
  }

  lemma {:induction false} ScaleTimes(c: real, x: real, j: nat)
    ensures Scale(c * x, j) == c * Scale(x, j)
  {
    if j > 0 {
      ScaleTimes(c, x, j - 1);
    }
  }

  lemma {:induction false} ScaleOrder(x: real, y: real, j: nat)
    ensures Scale(x, j) <= Scale(y, j) <==> x <= y
    ensures Scale(0.0, j) == 0.0
  {
    if j > 0 {
      ScaleOrder(x, y, j - 1);
    }
  }

  /** An integer scaled at least once is an even integer. */
  lemma {:induction false} ScaledInt(m: int, j: nat) returns (h: int)
    requires j > 0
    ensures Scale(m as real, j) == (2 * h) as real
  {
    if j == 1 {
      h := m;
    } else {
      var g := ScaledInt(m, j - 1);
      h := 2 * g;
    }
  }

  /** A value just below the integer n of the binade rounds up to it exactly within half a unit. */
  lemma RoundsUpAtScale(n: int, d: real, h: int)
    requires TWO52 < n <= TWO53 && n == 2 * h && 0.0 < d <= 1.0
    ensures RoundPos(n as real - d) >= n as real <==> d <= 0.5
  {
    var x := n as real - d;
    assert RoundPos(x) == NearestEven(x) as real;
    assert d < 1.0 ==> x.Floor == n - 1;
    assert d == 1.0 ==> x.Floor == n - 1;
  }

  /** The exponent that takes m into the upper end of the integer binade. */
  predicate InBinade(m: int, j: nat) {
    R52 < Scale(m as real, j) <= R53
  }

  lemma RoundsUp(m: int, j: nat, d: real)
    requires 0 < m < TWO52 && InBinade(m, j) && 0.0 < d && R53 * d <= m as real
    ensures RoundPos(m as real - d) >= m as real <==> Scale(d, j) <= 0.5
  {
    hide RoundPos, Scale;
    ScaleZero(m as real);
    var h := ScaledInt(m, j);
    var n := 2 * h;
    var e := Scale(d, j);
    ScaleOrder(0.0, d, j);
    ScaleOrder(d, 0.0, j);
    ScaleTimes(R53, d, j);
    ScaleOrder(R53 * d, m as real, j);
    var x := m as real - d;
    ScaleMinus(m as real, d, j);
    RoundsUpAtScale(n, e, h);
    RoundAt(x, j);
    ScaleOrder(m as real, RoundPos(x), j);
  }

  lemma ScaleZero(x: real)
    ensures Scale(x, 0) == x
  {
  }

  /** By how much the exact product with the stored ratio lies below the share. */
  function Deficit(cost: int, k: int): real {
    cost as real * (k as real / 10000.0) - cost as real * StoredRatio(k)
  }

  /** A whole share m > 0 is paid in full if and only if the product with the stored ratio is within
      half a unit of float64 below m (that unit is taken below m, also where m is a power of two). In
      particular it is when the stored ratio is not below the decimal one. */
  lemma WholeShareIsPaid(cost: int, k: int, m: int, j: nat)
    requires 0 <= cost <= 0x40_0000_0000 && 0 <= k <= RATIO_SCALE
    requires cost * k == m * RATIO_SCALE && m > 0 && InBinade(m, j)
    ensures ProviderReward(cost, k) == m <==> Scale(Deficit(cost, k), j) <= 0.5
    ensures ProviderReward(cost, k) == m || ProviderReward(cost, k) == m - 1
    ensures StoredRatio(k) >= k as real / 10000.0 ==> ProviderReward(cost, k) == m
  {
    hide RoundPos, Scale, ToInt64, Times;
    RewardFloorOrOneLess(cost, k);
    RewardIsShare(cost, k);
    var d := Deficit(cost, k);
    DeficitOf(cost, k, m);
    ProductOf(cost, k, m as real - d);
    ScaleOrder(d, 0.0, j);
    if d > 0.0 {
      RoundsUp(m, j, d);
    } else {
      RoundInt(m);
      RoundPosMonotone(m as real, m as real - d);
    }
    RewardOf(cost, k, m);
  }

  lemma StoredRatioNear(k: int)
    requires 0 <= k <= RATIO_SCALE
    ensures StoredRatio(k) >= 0.0 && R53 * (StoredRatio(k) - k as real / 10000.0) >= -(k as real / 10000.0)
  {
    hide RoundPos;
    RoundError(k as real / 10000.0);
    RatioBounds(k);
  }

  lemma DeficitOf(cost: int, k: int, m: int)
    requires 0 <= cost <= 0x40_0000_0000 && 0 <= k <= RATIO_SCALE && cost * k == m * RATIO_SCALE
    ensures 0 <= m <= cost && R53 * Deficit(cost, k) <= m as real
    ensures m as real - Deficit(cost, k) == cost as real * StoredRatio(k) >= 0.0
    ensures StoredRatio(k) >= k as real / 10000.0 ==> Deficit(cost, k) <= 0.0
  {
    hide StoredRatio;
    ShareOf(cost, k, m);
    StoredRatioNear(k);
    DeficitBounds(cost as real, k as real / 10000.0, StoredRatio(k), m as real);
  }

  lemma ProductOf(cost: int, k: int, p: real)
    requires 0 <= cost <= 0x40_0000_0000 && 0 <= k <= RATIO_SCALE && p == cost as real * StoredRatio(k) >= 0.0
    ensures RewardProduct(cost, k) == RoundPos(p)
  {
    hide RoundPos, StoredRatio, Times;
    RoundInt(cost);
    assert Round(cost as real) == cost as real;
    TimesOf(cost as real, StoredRatio(k), p);
  }

  lemma ShareOf(cost: int, k: int, m: int)
    requires 0 <= cost && 0 <= k <= RATIO_SCALE && cost * k == m * RATIO_SCALE
    ensures cost as real * (k as real / 10000.0) == m as real && 0 <= m <= cost
  {
    assert cost as real * k as real == (cost * k) as real;
    assert cost * (RATIO_SCALE - k) >= 0 && cost * k >= 0;
  }

  lemma DeficitBounds(c: real, q: real, r: real, m: real)
    requires c >= 0.0 && r >= 0.0 && c * q == m && R53 * (r - q) >= -q
    ensures R53 * (c * q - c * r) <= m && c * r >= 0.0
    ensures r >= q ==> c * q - c * r <= 0.0
  {
    assert c * (R53 * (r - q) + q) >= 0.0;
    assert c * (R53 * (r - q) + q) == R53 * (c * r - c * q) + m;
    assert r >= q ==> c * (r - q) >= 0.0;
  }

  lemma RewardOf(cost: int, k: int, m: int)
    requires 0 <= cost <= 0x40_0000_0000 && 0 <= k <= RATIO_SCALE
    requires ProviderReward(cost, k) == m || ProviderReward(cost, k) == m - 1
    requires 0 <= m <= cost && 0 <= ProviderReward(cost, k) <= cost
    ensures ProviderReward(cost, k) == m <==> RewardProduct(cost, k) >= m as real
  {
    hide RewardProduct;
  }

  /** Exactly when the documented floor(cost * ratio) is paid: the share is not whole, or nothing, or its
      product with the stored ratio rounds up to it. Otherwise the reward is one credit less. */
  lemma RewardMeetsTheFloor(cost: int, k: int, j: nat)
    requires 0 <= cost <= 0x40_0000_0000 && 0 <= k <= RATIO_SCALE
    requires cost * k > 0 && cost * k % RATIO_SCALE == 0 ==> InBinade(cost * k / RATIO_SCALE, j)
    ensures ProviderReward(cost, k) == cost * k / RATIO_SCALE <==>
            cost * k % RATIO_SCALE != 0 || cost * k == 0 || Scale(Deficit(cost, k), j) <= 0.5
    ensures ProviderReward(cost, k) == cost * k / RATIO_SCALE || ProviderReward(cost, k) == cost * k / RATIO_SCALE - 1
  {
    hide ProviderReward, Scale, Deficit, InBinade;
    RewardFloorOrOneLess(cost, k);
    RewardIsShare(cost, k);
    var p := cost * k;
    if p % RATIO_SCALE == 0 && p != 0 {
      assert p >= 0;
      WholeShareIsPaid(cost, k, p / RATIO_SCALE, j);
    }
  }

  /** There is such an exponent. */
  lemma {:induction false} BinadeOf(m: int) returns (j: nat)
    requires 0 < m <= TWO53
    ensures InBinade(m, j)
    decreases TWO53 - m
  {
    if m > TWO52 {
      j := 0;
    } else {
      var h := BinadeOf(2 * m);
      j := h + 1;
      assert 2.0 * m as real == (2 * m) as real;
      ScaleTimes(2.0, m as real, h);
    }
  }

  /** 29% of 100 credits pays 28: float64 0.29 lies below 0.29, by more than half a unit of 29. The
      reward of the design document is not met there. */
  lemma RewardCanMissTheFloor()
    ensures InBinade(29, 48) && Scale(Deficit(100, 2900), 48) == 0.5625
    ensures ProviderReward(100, 2900) == 28 && 100 * 2900 / RATIO_SCALE == 29
  {
    hide ProviderReward;
    Scale48(0.29);
    RoundAt(0.29, 54);
    assert RoundPos(Scale(0.29, 54)) == 5224175567749775.0;
    var r := RoundPos(0.29);
    Scale48(r);
    assert r == 5224175567749775.0 / 18014398509481984.0;
    Scale48(29.0);
    Scale48(29.0 - 100.0 * r);
    assert Deficit(100, 2900) == 29.0 - 100.0 * r;
    hide Scale, RoundPos;
    WholeShareIsPaid(100, 2900, 29, 48);
  }

  lemma Scale48(x: real)
    ensures Scale(x, 48) == 281474976710656.0 * x
    ensures Scale(x, 54) == 18014398509481984.0 * x
  {
    Scale8(x);
    assert Scale(x, 6) == 64.0 * x by {
      assert Scale(x, 2) == 4.0 * x;
      assert Scale(x, 4) == 4.0 * Scale(x, 2);
    }
    assert Scale(x, 8 + 8) == 256.0 * Scale(x, 8);
    assert Scale(x, 0 + 8) == 256.0 * Scale(x, 0);
    assert Scale(x, 16 + 8) == 256.0 * Scale(x, 16);
    assert Scale(x, 24 + 8) == 256.0 * Scale(x, 24);
    assert Scale(x, 32 + 8) == 256.0 * Scale(x, 32);
    assert Scale(x, 40 + 8) == 256.0 * Scale(x, 40);
    assert Scale(x, 6 + 8) == 256.0 * Scale(x, 6);
    assert Scale(x, 14 + 8) == 256.0 * Scale(x, 14);
    assert Scale(x, 22 + 8) == 256.0 * Scale(x, 22);
    assert Scale(x, 30 + 8) == 256.0 * Scale(x, 30);
    assert Scale(x, 38 + 8) == 256.0 * Scale(x, 38);
    assert Scale(x, 46 + 8) == 256.0 * Scale(x, 46);
  }
}
