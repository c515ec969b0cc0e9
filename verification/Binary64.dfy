/** Rounding of a real to the nearest float64, ties to even (IEEE 754-2019, section 4.3.1), with the
    exponent left unbounded: overflow and gradual underflow lie outside every range used here. */
module Binary64 {

  const TWO52: int := 0x10_0000_0000_0000
  const TWO53: int := 0x20_0000_0000_0000
  const R52: real := 4503599627370496.0
  const R53: real := 9007199254740992.0

  /** Nearest integer, ties to even. */
  function NearestEven(x: real): (n: int)
    ensures n as real - 0.5 <= x <= n as real + 0.5
  {
    var f := x.Floor;
    var d := x - f as real;
    if d < 0.5 || (d == 0.5 && f % 2 == 0) then f else f + 1
  }

  /** Distance of x > 0 from the binade [2^52, 2^53), where float64 values are the integers. */
  function Steps(x: real): nat {
    if x >= R53 then x.Floor
    else if 0.0 < x < R52 then (R52 / x).Floor
    else 0
  }

  lemma StepsDown(x: real)
    ensures x >= R53 ==> Steps(x / 2.0) < Steps(x)
    ensures 0.0 < x < R52 ==> Steps(2.0 * x) < Steps(x)
  {
    if 0.0 < x < R52 {
      var y := R52 / x;
      assert y > 1.0;
      assert R52 / (2.0 * x) == y / 2.0;
    }
  }

  /** x rounded, by scaling it into the binade where the values are the integers. */
  function RoundPos(x: real): real
    requires x >= 0.0
    decreases Steps(x)
  {
    StepsDown(x);
    if x == 0.0 then 0.0
    else if x >= R53 then 2.0 * RoundPos(x / 2.0)
    else if x < R52 then RoundPos(2.0 * x) / 2.0
    else NearestEven(x) as real
  }

  function Round(x: real): real {
    if x < 0.0 then -RoundPos(-x) else RoundPos(x)
  }

  /** The relative error is at most 2^-53. */
  lemma {:induction false} RoundError(x: real)
    requires x >= 0.0
    ensures -x <= R53 * (RoundPos(x) - x) <= x
    decreases Steps(x)
  {
    StepsDown(x);
    if x == 0.0 {
    } else if x >= R53 {
      RoundError(x / 2.0);
    } else if x < R52 {
      RoundError(2.0 * x);
    }
  }

  /** Integers up to 2^53 are exact. */
  lemma {:induction false} RoundInt(n: int)
    requires 0 <= n <= TWO53
    ensures RoundPos(n as real) == n as real
    decreases TWO53 - n
  {
    if n == 0 {
    } else if n < TWO52 {
      RoundInt(2 * n);
      assert 2.0 * (n as real) == (2 * n) as real;
    } else if n == TWO53 {
      assert (n as real) / 2.0 == R52;
      assert RoundPos(R52) == R52;
    }
  }

  /** Rounding does not leave a binade on either side. */
  lemma {:induction false} RoundStaysBelow(x: real)
    requires 0.0 <= x < R53
    ensures RoundPos(x) <= R53 && (x < R52 ==> RoundPos(x) <= R52)
    decreases Steps(x)
  {
    StepsDown(x);
    if 0.0 < x < R52 {
      RoundStaysBelow(2.0 * x);
    }
  }

  lemma {:induction false} RoundStaysAbove(x: real)
    requires x >= R52
    ensures RoundPos(x) >= R52 && (x >= R53 ==> RoundPos(x) >= R53)
    decreases Steps(x)
  {
    StepsDown(x);
    if x >= R53 {
      RoundStaysAbove(x / 2.0);
    }
  }

  lemma {:induction false} RoundPosMonotone(x: real, y: real)
    requires 0.0 <= x <= y
    ensures RoundPos(x) <= RoundPos(y)
    decreases Steps(y)
  {
    StepsDown(y);
    if x == 0.0 {
      RoundError(y);
    } else if y < R52 {
      RoundPosMonotone(2.0 * x, 2.0 * y);
    } else if x >= R53 {
      RoundPosMonotone(x / 2.0, y / 2.0);
    } else {
      RoundPosAcross(x, y);
    }
  }

  lemma NearestEvenMonotone(x: real, y: real)
    requires x <= y
    ensures NearestEven(x) <= NearestEven(y)
  {
    var f, g := x.Floor, y.Floor;
    if f == g {
    } else {
      assert NearestEven(x) <= f + 1 <= g <= NearestEven(y);
    }
  }

  lemma RoundPosAcross(x: real, y: real)
    requires 0.0 < x <= y && x < R53 && R52 <= y
    ensures RoundPos(x) <= RoundPos(y)
  {
    if x < R52 {
      RoundStaysBelow(x);
      RoundStaysAbove(y);
    } else if y >= R53 {
      RoundStaysBelow(x);
      RoundStaysAbove(y);
    } else {
      NearestEvenMonotone(x, y);
      assert RoundPos(x) == NearestEven(x) as real;
      assert RoundPos(y) == NearestEven(y) as real;
    }
  }

  lemma RoundMonotone(x: real, y: real)
    requires x <= y
    ensures Round(x) <= Round(y)
  {
    if x < 0.0 {
      RoundError(-x);
      if y < 0.0 { RoundPosMonotone(-y, -x); } else { RoundError(y); }
    } else {
      RoundPosMonotone(x, y);
    }
  }

  /** Doubling only changes the exponent. */
  lemma RoundDouble(x: real)
    requires x >= 0.0
    ensures RoundPos(2.0 * x) == 2.0 * RoundPos(x)
  {
    if x >= R52 {
      assert (2.0 * x) / 2.0 == x;
    }
  }

  /** x * 2^k */
  function Scale(x: real, k: nat): real {
    if k == 0 then x else 2.0 * Scale(x, k - 1)
  }

  /** Rounding at a known exponent, for computing single values. */
  lemma {:induction false} RoundAt(x: real, k: nat)
    requires x >= 0.0
    ensures Scale(x, k) >= 0.0 && RoundPos(Scale(x, k)) == Scale(RoundPos(x), k)
  {
    if k > 0 {
      RoundAt(x, k - 1);
      RoundDouble(Scale(x, k - 1));
    }
  }

  lemma Scale8(x: real)
    ensures forall k: nat :: Scale(x, k + 8) == 256.0 * Scale(x, k)
  {
    forall k: nat
      ensures Scale(x, k + 8) == 256.0 * Scale(x, k)
    {
      assert Scale(x, k + 2) == 4.0 * Scale(x, k);
      assert Scale(x, k + 4) == 4.0 * Scale(x, k + 2);
      assert Scale(x, k + 6) == 4.0 * Scale(x, k + 4);
      assert Scale(x, k + 8) == 4.0 * Scale(x, k + 6);
    }
  }

  /** The float64 product. */
  function Times(a: real, b: real): real {
    Round(a * b)
  }

  lemma TimesMonotone(a: real, b: real, a': real, b': real)
    requires 0.0 <= a <= a' && 0.0 <= b <= b'
    ensures 0.0 <= Times(a, b) <= Times(a', b')
  {
    MulMonotone(a, b, a', b');
    RoundMonotone(0.0, a * b);
    RoundMonotone(a * b, a' * b');
  }

  lemma TimesError(a: real, b: real, p: real)
    requires a >= 0.0 && b >= 0.0 && p == a * b
    ensures p >= 0.0 && -p <= R53 * (Times(a, b) - p) <= p
  {
    RoundError(p);
  }

  /** A float64 product stays near any bound of the exact product. */
  lemma TimesBound(a: real, b: real, w: real)
    requires a >= 0.0 && b >= 0.0 && a * b <= w
    ensures 0.0 <= Times(a, b) && R53 * Times(a, b) <= (R53 + 1.0) * w
  {
    TimesError(a, b, a * b);
  }

  lemma MulUnit(a: real, b: real, p: real)
    requires a >= 0.0 && 0.0 <= b <= 1.0 && p == a * b
    ensures 0.0 <= p <= a
  {
    assert a * (1.0 - b) >= 0.0;
  }

  /** The float64 product of exact integers below 2^53 is exact. */
  lemma TimesExact(a: int, b: int)
    requires 0 <= a * b <= TWO53
    ensures Times(a as real, b as real) == (a * b) as real
  {
    var n := a * b;
    assert a as real * b as real == n as real;
    RoundInt(n);
  }

  /** Products of non-negative reals grow with their factors. */
  lemma MulMonotone(a: real, b: real, a': real, b': real)
    requires 0.0 <= a <= a' && 0.0 <= b <= b'
    ensures 0.0 <= a * b <= a' * b'
  {
    assert (a' - a) * b >= 0.0;
    assert a' * (b' - b) >= 0.0;
  }
}
