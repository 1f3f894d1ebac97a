/**
 * IEEE 754 binary64 arithmetic as the scripts use it: every operation is the
 * exact real result rounded to nearest, ties to even. Exponents are
 * unbounded, so overflow and subnormal numbers are not part of this model.
 */
module Doubles {
  const TWO_53: int := 0x20_0000_0000_0000

  const UNITS_52: real := 4503599627370496.0
  const UNITS_53: real := 9007199254740992.0

  function Abs(x: real): real {
    if x < 0.0 then -x else x
  }

  // The weight of the last of 53 significant bits of x: a power of two that
  // x holds between 2^52 and 2^53 times.
  function Unit(x: real): (u: real)
    requires x > 0.0
    ensures u > 0.0 && UNITS_52 * u <= x < UNITS_53 * u
    decreases if x >= UNITS_53 then x.Floor
              else if x < UNITS_52 then (UNITS_52 / x).Floor else 0
  {
    if x >= UNITS_53 then 2.0 * Unit(x / 2.0)
    else if x < UNITS_52 then
      HalveQuotient(x);
      Unit(2.0 * x) / 2.0
    else 1.0
  }

  lemma HalveQuotient(x: real)
    requires 0.0 < x < UNITS_52
    ensures (UNITS_52 / (2.0 * x)).Floor < (UNITS_52 / x).Floor
    ensures (UNITS_52 / x).Floor > 0
  {
    var y := UNITS_52 / x;
    assert y * x == UNITS_52;
    assert y > 1.0;
    assert UNITS_52 / (2.0 * x) == y / 2.0;
  }

  function RoundHalfEven(x: real): int {
    var f := x.Floor;
    var d := x - f as real;
    if d < 0.5 || (d == 0.5 && f % 2 == 0) then f else f + 1
  }

  /** Rounding goes to the nearest integer, and to the even one of two that are equally near. */
  lemma RoundsToNearestEven(x: real, n: int)
    ensures RoundHalfEven(x) == n <==>
            n as real - 0.5 <= x <= n as real + 0.5 && (x == n as real - 0.5 || x == n as real + 0.5 ==> n % 2 == 0)
  {
  }

  function RoundToUnit(x: real, unit: real): real
    requires unit > 0.0
  {
    RoundHalfEven(x / unit) as real * unit
  }

  /** The double nearest to x. */
  function Nearest(x: real): real {
    if x == 0.0 then 0.0
    else if x < 0.0 then -RoundToUnit(-x, Unit(-x))
    else RoundToUnit(x, Unit(x))
  }

  lemma HalfUnit(d: real, unit: real)
    requires -0.5 <= d <= 0.5 && unit >= 0.0
    ensures 2.0 * (d * unit) <= unit && 0.0 <= 2.0 * (d * unit) + unit
  {
  }

  // One rounding step in units: x is q units, at least 2^52 of them, and r is nearest to q.
  lemma UnitError(x: real, unit: real, q: real, r: real, d: real)
    requires unit > 0.0 && q * unit == x && r == q + d
    requires -0.5 <= d <= 0.5
    requires UNITS_52 * unit <= x
    ensures (r * unit - x) * UNITS_53 <= x
    ensures (x - r * unit) * UNITS_53 <= x
  {
    HalfUnit(d, unit);
    assert r * unit == q * unit + d * unit;
  }

  lemma RoundToUnitError(x: real, unit: real)
    requires unit > 0.0 && UNITS_52 * unit <= x
    ensures Abs(RoundToUnit(x, unit) - x) * UNITS_53 <= x
  {
    var q := x / unit;
    var r := RoundHalfEven(q) as real;
    assert q * unit == x;
    UnitError(x, unit, q, r, r - q);
  }

  /** One rounding has relative error at most 2^-53. */
  lemma NearestError(x: real)
    ensures Abs(Nearest(x) - x) * UNITS_53 <= Abs(x)
  {
    if x != 0.0 {
      var y := Abs(x);
      RoundToUnitError(y, Unit(y));
    }
  }

  lemma RoundToDoubleUnit(x: real, unit: real)
    requires unit > 0.0
    ensures RoundToUnit(2.0 * x, 2.0 * unit) == 2.0 * RoundToUnit(x, unit)
  {
    var q := x / unit;
    assert q * unit == x;
    assert q * (2.0 * unit) == 2.0 * x;
    assert (2.0 * x) / (2.0 * unit) == q;
  }

  lemma UnitDoubles(x: real)
    requires x > 0.0
    ensures Unit(2.0 * x) == 2.0 * Unit(x)
  {
  }

  /** Rounding commutes with scaling by two. */
  lemma NearestDoubles(x: real)
    ensures Nearest(2.0 * x) == 2.0 * Nearest(x)
  {
    if x > 0.0 {
      PositiveDoubles(x, 2.0 * x);
    } else if x < 0.0 {
      PositiveDoubles(-x, -(2.0 * x));
    }
  }

  lemma PositiveDoubles(x: real, twice: real)
    requires x > 0.0 && twice == 2.0 * x
    ensures RoundToUnit(twice, Unit(twice)) == 2.0 * RoundToUnit(x, Unit(x))
  {
    UnitDoubles(x);
    RoundToDoubleUnit(x, Unit(x));
  }

  /** Integers of at most 53 bits are doubles. */
  lemma {:induction false} NearestInteger(m: int)
    requires -TWO_53 <= m <= TWO_53
    ensures Nearest(m as real) == m as real
    decreases m < 0, if m >= 0 then TWO_53 - m else 0
  {
    if m < 0 {
      NearestInteger(-m);
    } else if m == TWO_53 {
      NearestDoubles(UNITS_52);
      assert Unit(UNITS_52) == 1.0;
    } else if 0 < m {
      if m as real < UNITS_52 {
        NearestInteger(2 * m);
        NearestDoubles(m as real);
      } else {
        assert Unit(m as real) == 1.0;
      }
    }
  }

  // m / 2^s
  function Halved(m: int, s: nat): real {
    if s == 0 then m as real else Halved(m, s - 1) / 2.0
  }

  lemma HalvedFourTimes(m: int, s: nat)
    ensures Halved(m, s + 4) == Halved(m, s) / 16.0
  {
    assert Halved(m, s + 1) == Halved(m, s) / 2.0;
    assert Halved(m, s + 2) == Halved(m, s + 1) / 2.0;
    assert Halved(m, s + 3) == Halved(m, s + 2) / 2.0;
  }

  lemma Halved32(m: int)
    ensures Halved(m, 32) == m as real / 4294967296.0
  {
    HalvedFourTimes(m, 0);
    HalvedFourTimes(m, 4);
    HalvedFourTimes(m, 8);
    HalvedFourTimes(m, 12);
    HalvedFourTimes(m, 16);
    HalvedFourTimes(m, 20);
    HalvedFourTimes(m, 24);
    HalvedFourTimes(m, 28);
  }

  /** Fractions with at most 53 significant bits are doubles. */
  lemma {:induction false} NearestHalved(m: int, s: nat)
    requires -TWO_53 <= m <= TWO_53
    ensures Nearest(Halved(m, s)) == Halved(m, s)
  {
    if s == 0 {
      NearestInteger(m);
    } else {
      NearestHalved(m, s - 1);
      NearestDoubles(Halved(m, s));
    }
  }

  /** Math.round (section 21.3.2.28 of ECMA-262): nearest integer, halves upward. */
  function MathRound(x: real): int {
    (x + 0.5).Floor
  }
}
