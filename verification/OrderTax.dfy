/** The seed's tax arithmetic in doubles (backend/prisma/seed.demo.ts:1206, 2484-2517). */
module OrderTax {
  import opened Doubles
  import opened Arithmetic

  // The least subtotal whose tax the script gets wrong, as shown below.
  const CENTS_BOUND: int := 541298032135973

  // The double nearest to 0.13: 1170935903116329 units of 2^-53.
  const TAX_RATE: real := 1170935903116329.0 / 9007199254740992.0

  // Math.round(subtotalCents * TAX_RATE)
  function TaxOf(subtotal: int): int {
    MathRound(Nearest(subtotal as real * TAX_RATE))
  }

  // An integer nearest to 13 percent of the subtotal.
  predicate IsNearestTax(subtotal: int, tax: int) {
    -50 <= 100 * tax - 13 * subtotal <= 50
  }

  // The rate is too large by 0.04 units.
  lemma RateError(x: real, product: real)
    requires 0.0 <= x <= 541298032135973.0 && product == x * TAX_RATE
    ensures 0.13 * x <= product <= 0.13 * x + 0.0025
  {
    assert TAX_RATE == 0.13 + 0.04 / UNITS_53;
    assert product == 0.13 * x + x * (0.04 / UNITS_53);
  }

  // Doubles below 2^46 are at most 2^-7 apart.
  lemma UnitBelow46(x: real)
    requires 0.0 < x < 70368744177664.0
    ensures Unit(x) <= 1.0 / 128.0
  {
    UnitDoubles(x);
    UnitDoubles(2.0 * x);
    UnitDoubles(4.0 * x);
    UnitDoubles(8.0 * x);
    UnitDoubles(16.0 * x);
    UnitDoubles(32.0 * x);
    UnitDoubles(64.0 * x);
    UnitAtMostOne(128.0 * x);
  }

  lemma UnitAtMostOne(x: real)
    requires 0.0 < x < UNITS_53
    ensures Unit(x) <= 1.0
  {
    if x < UNITS_52 {
      assert UNITS_52 * Unit(2.0 * x) <= 2.0 * x;
    }
  }

  // A rounded product below 2^46 is off by at most 2^-8.
  lemma ErrorBelow46(x: real)
    requires 0.0 < x < 70368744177664.0
    ensures -0.00390625 <= Nearest(x) - x <= 0.00390625
  {
    UnitBelow46(x);
    HalfUnitError(x, Unit(x), x / Unit(x));
  }

  lemma HalfUnitError(x: real, u: real, q: real)
    requires 0.0 < u && q == x / u
    ensures -u <= 2.0 * (RoundToUnit(x, u) - x) <= u
  {
    var d := RoundHalfEven(q) as real - q;
    assert q * u == x;
    HalfUnit(d, u);
    assert RoundToUnit(x, u) == q * u + d * u;
  }

  // The subtotals whose product is just below a half.
  lemma AlmostHalf(s: int, q: int)
    requires 13 * s == 100 * q + 49
    ensures s % 100 == 73
  {
    assert s == 100 * (77 * q + 37 - 10 * s) + 73;
  }

  /** Below the bound the script's tax is an integer nearest to 13 percent, in spite of the double arithmetic. */
  lemma TaxIsNearest(subtotal: int)
    requires 0 <= subtotal < CENTS_BOUND
    ensures IsNearestTax(subtotal, TaxOf(subtotal)) && TaxOf(subtotal) >= 0
  {
    var product := subtotal as real * TAX_RATE;
    RateError(subtotal as real, product);
    if product == 0.0 {
    } else if product < 70368744177664.0 {
      ErrorBelow46(product);
      NearestBelow46(subtotal, Nearest(product));
    } else {
      NearestError(product);
      NearestAbove46(subtotal, product, Nearest(product));
    }
  }

  /** At the bound 13 percent are 70368744177676.49 cents, and the double product rounds up to the half above. */
  lemma TaxIsNotNearest()
    ensures !IsNearestTax(CENTS_BOUND, TaxOf(CENTS_BOUND))
  {
    var x := CENTS_BOUND as real * TAX_RATE;
    UnitAbove46(x);
    var q := x / Unit(x);
    assert q == 64.0 * x;
    assert RoundHalfEven(q) == 4503599627371296;
    assert Nearest(x) == 70368744177676.5;
  }

  lemma UnitAbove46(x: real)
    requires 70368744177664.0 <= x < 70368744177677.0
    ensures Unit(x) == 1.0 / 64.0
  {
    UnitDoubles(x);
    UnitDoubles(2.0 * x);
    UnitDoubles(4.0 * x);
    UnitDoubles(8.0 * x);
    UnitDoubles(16.0 * x);
    UnitDoubles(32.0 * x);
    assert Unit(64.0 * x) == 1.0;
  }

  /** So the bound is exact. */
  lemma TaxIsNearestUntil(n: int)
    ensures (forall s :: 0 <= s < n ==> IsNearestTax(s, TaxOf(s))) <==> n <= CENTS_BOUND
  {
    TaxIsNotNearest();
    if n <= CENTS_BOUND {
      forall s | 0 <= s < n ensures IsNearestTax(s, TaxOf(s)) {
        TaxIsNearest(s);
      }
    }
  }

  lemma NearestBelow46(s: int, p: real)
    requires s >= 0 && -0.004 <= p - 0.13 * s as real <= 0.0065
    ensures IsNearestTax(s, MathRound(p)) && MathRound(p) >= 0
  {
  }

  lemma NearestAbove46(s: int, product: real, p: real)
    requires 0 <= s < CENTS_BOUND && product >= 70368744177664.0
    requires 0.13 * s as real <= product <= 0.13 * s as real + 0.0025
    requires Abs(p - product) * UNITS_53 <= product
    ensures IsNearestTax(s, MathRound(p)) && MathRound(p) >= 0
  {
    var t := MathRound(p);
    assert 100 * t - 13 * s <= 51;
    if 100 * t - 13 * s == 51 {
      AlmostHalf(s, t - 1);
      assert false;
    }
  }

  lemma {:induction false} SummedTaxes(subtotals: seq<int>, taxes: seq<int>)
    requires |subtotals| == |taxes|
    requires forall i :: 0 <= i < |taxes| ==> IsNearestTax(subtotals[i], taxes[i])
    ensures -50 * |taxes| <= 100 * Sum(taxes) - 13 * Sum(subtotals) <= 50 * |taxes|
  {
    if taxes != [] {
      var n := |taxes| - 1;
      SummedTaxes(subtotals[..n], taxes[..n]);
      assert IsNearestTax(subtotals[n], taxes[n]);
    }
  }

  /**
   * The lines' rounded taxes add up to the order's rounded tax within
   * (lines + 1) / 2 cents, whichever way halves are rounded.
   */
  lemma TaxDrift(subtotals: seq<int>, taxes: seq<int>, orderTax: int)
    requires |subtotals| == |taxes|
    requires forall i :: 0 <= i < |taxes| ==> IsNearestTax(subtotals[i], taxes[i])
    requires IsNearestTax(Sum(subtotals), orderTax)
    ensures -(|taxes| + 1) <= 2 * (Sum(taxes) - orderTax) <= |taxes| + 1
  {
    SummedTaxes(subtotals, taxes);
  }

  lemma TaxOfFourAndEight(four: int, eight: int)
    requires four == 4 && eight == 8
    ensures TaxOf(four) == 1 && TaxOf(eight) == 1
  {
    TaxIsNearest(four);
    TaxIsNearest(eight);
  }

  /** The taxes need not add up exactly: two lines of four cents are taxed two cents, their order one. */
  lemma TaxesNeedNotAddUp()
    ensures exists a, b :: 0 < a && 0 < b && TaxOf(a) + TaxOf(b) != TaxOf(a + b)
  {
    var four, eight := 4, 8;
    TaxOfFourAndEight(four, eight);
    assert TaxOf(four) + TaxOf(four) != TaxOf(four + four);
  }
}
