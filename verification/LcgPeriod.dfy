/**
 * Number theory of the seed script's linear congruential generator
 * (backend/prisma/seed.demo.ts:41-46).
 *
 * Everything here is over unbounded integers; Lcg connects it to the
 * script's doubles and 32-bit truncation.
 */
module LcgPeriod {
  const MULTIPLIER: int := 1664525
  const INCREMENT: int := 1013904223

  // (MULTIPLIER - 1) / 4: the multiplier is 1 modulo 4.
  const QUARTER: int := 416131

  ghost function Pow2(k: nat): (p: nat)
    ensures p > 0
  {
    if k == 0 then 1 else 2 * Pow2(k - 1)
  }

  ghost predicate Divides(d: nat, x: int)
    requires d > 0
  {
    exists q: int :: x == d * q
  }

  // The unreduced generator, and n steps of it.
  ghost function Step(x: int): int {
    MULTIPLIER * x + INCREMENT
  }

  ghost function Steps(x: int, n: nat): int {
    if n == 0 then x else Step(Steps(x, n - 1))
  }

  // 1 + a + ... + a^(n-1) for the multiplier a.
  ghost function Geometric(n: nat): (g: nat) {
    if n == 0 then 0 else MULTIPLIER * Geometric(n - 1) + 1
  }

  lemma {:induction false} StepsClosedForm(x: int, n: nat)
    ensures Steps(x, n) == x + Geometric(n) * ((MULTIPLIER - 1) * x + INCREMENT)
  {
    if n > 0 {
      StepsClosedForm(x, n - 1);
      var g, t := Geometric(n - 1), (MULTIPLIER - 1) * x + INCREMENT;
      assert Geometric(n) * t == MULTIPLIER * (g * t) + t by {
        assert (MULTIPLIER * g + 1) * t == MULTIPLIER * (g * t) + t;
      }
    }
  }

  lemma {:induction false} StepsCompose(x: int, m: nat, n: nat)
    ensures Steps(x, m + n) == Steps(Steps(x, m), n)
  {
    if n > 0 {
      StepsCompose(x, m, n - 1);
      assert m + n - 1 == m + (n - 1);
    }
  }

  lemma {:induction false} GeometricAdd(m: nat, n: nat)
    ensures Geometric(m + n) == Geometric(m) * ((MULTIPLIER - 1) * Geometric(n) + 1) + Geometric(n)
  {
    if n > 0 {
      GeometricAdd(m, n - 1);
      assert m + n - 1 == m + (n - 1);
      OneMoreTerm(Geometric(m), Geometric(n - 1));
    }
  }

  lemma OneMoreTerm(gm: int, gn: int)
    ensures MULTIPLIER * (gm * ((MULTIPLIER - 1) * gn + 1) + gn) + 1 ==
            gm * ((MULTIPLIER - 1) * (MULTIPLIER * gn + 1) + 1) + (MULTIPLIER * gn + 1)
  {
    var inner := (MULTIPLIER - 1) * gn + 1;
    assert (MULTIPLIER - 1) * (MULTIPLIER * gn + 1) + 1 == MULTIPLIER * inner;
    Regroup(gm, MULTIPLIER, inner);
  }

  lemma Regroup(a: int, b: int, c: int)
    ensures a * (b * c) == b * (a * c)
  {
  }

  lemma {:induction false} GeometricParity(n: nat)
    ensures Geometric(n) % 2 == n % 2
  {
    if n > 0 {
      GeometricParity(n - 1);
      var g := Geometric(n - 1);
      assert MULTIPLIER * g == 2 * (832262 * g) + g;
    }
  }

  // Cancelling an odd factor: if 2^k divides x * (2j+1), it divides x.
  lemma {:induction false} OddFactor(k: nat, x: int, j: int)
    ensures Divides(Pow2(k), x * (2 * j + 1)) <==> Divides(Pow2(k), x)
  {
    if Divides(Pow2(k), x) {
      var q :| x == Pow2(k) * q;
      assert x * (2 * j + 1) == Pow2(k) * (q * (2 * j + 1));
    }
    if Divides(Pow2(k), x * (2 * j + 1)) {
      OddFactorCancels(k, x, j);
    }
  }

  lemma {:induction false} OddFactorCancels(k: nat, x: int, j: int)
    requires Divides(Pow2(k), x * (2 * j + 1))
    ensures Divides(Pow2(k), x)
  {
    if k == 0 {
      assert x == Pow2(0) * x;
    } else {
      var h := Pow2(k - 1);
      var q :| x * (2 * j + 1) == Pow2(k) * q;
      assert Pow2(k) * q == 2 * (h * q);
      assert x * (2 * j + 1) == 2 * (x * j) + x;
      assert x == 2 * (h * q - x * j);
      var y := h * q - x * j;
      assert y * (2 * j + 1) == h * q by {
        assert 2 * (y * (2 * j + 1)) == x * (2 * j + 1);
      }
      OddFactorCancels(k - 1, y, j);
      var r :| y == h * r;
      assert x == Pow2(k) * r;
    }
  }

  lemma HalveDivisor(k: nat, x: int)
    requires k > 0
    ensures Divides(Pow2(k), 2 * x) <==> Divides(Pow2(k - 1), x)
  {
    if Divides(Pow2(k), 2 * x) {
      var q :| 2 * x == Pow2(k) * q;
      assert Pow2(k) * q == 2 * (Pow2(k - 1) * q);
      assert x == Pow2(k - 1) * q;
    }
    if Divides(Pow2(k - 1), x) {
      var q :| x == Pow2(k - 1) * q;
      assert 2 * x == Pow2(k) * q;
    }
  }

  lemma EvenDivisor(k: nat, x: int)
    requires k > 0 && Divides(Pow2(k), x)
    ensures x % 2 == 0
  {
    var q :| x == Pow2(k) * q;
    assert x == 2 * (Pow2(k - 1) * q);
  }

  /** The 2-adic valuation of the geometric sum is that of its length. */
  lemma {:induction false} GeometricValuation(k: nat, n: nat)
    ensures Divides(Pow2(k), Geometric(n)) <==> Divides(Pow2(k), n)
  {
    if k == 0 {
      assert Geometric(n) == Pow2(0) * Geometric(n) && n == Pow2(0) * n;
    } else if n % 2 == 1 {
      GeometricParity(n);
      if Divides(Pow2(k), Geometric(n)) { EvenDivisor(k, Geometric(n)); }
      if Divides(Pow2(k), n) { EvenDivisor(k, n); }
    } else {
      var h := n / 2;
      var g := Geometric(h);
      GeometricAdd(h, h);
      var j := QUARTER * g;
      assert Geometric(n) == 2 * (g * (2 * j + 1)) by {
        assert h + h == n;
        assert (MULTIPLIER - 1) * g == 4 * j;
        assert g * (4 * j + 1) + g == 2 * (g * (2 * j + 1));
      }
      HalveDivisor(k, g * (2 * j + 1));
      OddFactor(k - 1, g, j);
      GeometricValuation(k - 1, h);
      HalveDivisor(k, h);
      assert n == 2 * h;
    }
  }

  // (a - 1) * y + c is odd: this is half of it.
  ghost function OddHalf(y: int): (j: int)
    ensures 2 * j + 1 == (MULTIPLIER - 1) * y + INCREMENT
  {
    832262 * y + 506952111
  }

  lemma {:induction false} StepsDifference(x: int, m: nat, n: nat)
    requires m <= n
    ensures Steps(x, n) - Steps(x, m) == Geometric(n - m) * (2 * OddHalf(Steps(x, m)) + 1)
  {
    StepsCompose(x, m, n - m);
    assert m + (n - m) == n;
    StepsClosedForm(Steps(x, m), n - m);
  }

  /**
   * Two states of one run agree modulo 2^k exactly when their step counts do:
   * the low k bits of the generator have period exactly 2^k.
   */
  lemma StepsAgree(k: nat, x: int, m: nat, n: nat)
    requires m <= n
    ensures Divides(Pow2(k), Steps(x, n) - Steps(x, m)) <==> Divides(Pow2(k), n - m)
  {
    StepsDifference(x, m, n);
    OddFactor(k, Geometric(n - m), OddHalf(Steps(x, m)));
    GeometricValuation(k, n - m);
  }
}
