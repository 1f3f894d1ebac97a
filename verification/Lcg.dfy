/**
 * The demo seed's random number generator and the draws built on it
 * (backend/prisma/seed.demo.ts:39-68), in doubles truncated to 32 bits.
 */
module Lcg {
  import opened Arithmetic
  import opened Doubles
  import opened LcgPeriod
  import opened Counting

  const WORDS: int := 0x1_0000_0000

  // Section 7.1.6 and 7.1.7 of ECMA-262, for integral arguments.
  function ToUint32(n: int): (w: int)
    ensures 0 <= w < WORDS
  {
    n % WORDS
  }

  function ToInt32(n: int): (w: int)
    ensures -0x8000_0000 <= w < 0x8000_0000 && w % WORDS == n % WORDS
  {
    var w := n % WORDS;
    if w >= 0x8000_0000 then w - WORDS else w
  }

  // The generator on 32-bit words.
  ghost function NextWord(w: int): int {
    Step(w) % WORDS
  }

  // The word drawn i-th (from 0) by a generator whose state is congruent to w.
  ghost function DrawAt(w: int, i: nat): int {
    Steps(w, i + 1) % WORDS
  }

  ghost function Prefix(weights: seq<nat>, k: nat): nat
    requires k <= |weights|
  {
    SumOfNaturals(weights[..k]);
    Sum(weights[..k])
  }

  // floor(u / 2^32 * n): the n equal buckets of a draw.
  ghost function Bucket(u: int, n: nat): int {
    u * n / WORDS
  }

  // Math.floor(r * n) in doubles.
  function FloorScaled(r: real, n: nat): int {
    Nearest(r * n as real).Floor
  }

  // The same for the draw of word u, for any n.
  ghost function IndexDrawn(u: int, n: nat): int {
    FloorScaled(u as real / 4294967296.0, n)
  }

  // One of min, ..., max on the draw of word u.
  ghost function Choice(min: int, max: int, u: int): int
    requires min <= max
  {
    min + Bucket(u, max - min + 1)
  }

  // A draw below a probability.
  ghost predicate Chance(u: int, probability: real) {
    u as real / 4294967296.0 < probability
  }

  // The word a generator on word w stands on after n draws.
  ghost function WordAfter(w: int, n: nat): int {
    if n == 0 then w else NextWord(WordAfter(w, n - 1))
  }

  // i is the first index whose prefix weight reaches the threshold u / 2^32 * total.
  ghost predicate Selects(u: int, weights: seq<nat>, i: int) {
    && 0 <= i < |weights|
    && u * Sum(weights) <= WORDS * Prefix(weights, i + 1)
    && forall j :: 1 <= j <= i ==> WORDS * Prefix(weights, j) < u * Sum(weights)
  }

  class Rng {
    // The module variable of the script: first an unsigned, then a signed 32-bit integer.
    var seed: int

    ghost predicate Valid()
      reads this
    {
      -0x8000_0000 <= seed < WORDS
    }

    ghost function Word(): int
      reads this
    {
      ToUint32(seed)
    }

    constructor (hrtime: nat)
      ensures Valid() && Word() == hrtime % WORDS
    {
      seed := hrtime % WORDS;
    }

    method Next() returns (r: real)
      requires Valid()
      modifies this
      ensures Valid() && Word() == NextWord(old(Word()))
      ensures r == Word() as real / 4294967296.0
      ensures 0.0 <= r < 1.0
    {
      var product := Nearest(seed as real * 1664525.0);
      var sum := Nearest(product + 1013904223.0);
      StepIsExact(seed);
      seed := ToInt32(sum.Floor);
      r := Nearest(ToUint32(seed) as real / 4294967296.0);
      NearestFraction(ToUint32(seed));
      StepModulo(old(seed));
    }

    // Math.floor(rng() * n), the shared part of rngInt and rngPick.
    method Below(n: nat) returns (k: int)
      requires Valid() && 0 < n <= TWO_53
      modifies this
      ensures Valid() && Word() == NextWord(old(Word()))
      ensures 0 <= k < n && k == IndexDrawn(Word(), n)
      ensures n <= 0x20_0000 ==> k == Bucket(Word(), n)
    {
      var r := Next();
      k := FloorScaled(r, n);
      ScaledIndex(Word(), n, r);
    }

    method RngInt(min: int, max: int) returns (k: int)
      requires Valid() && -0x8_0000_0000_0000 <= min <= max < 0x8_0000_0000_0000
      modifies this
      ensures Valid() && Word() == NextWord(old(Word()))
      ensures min <= k <= max && k == min + IndexDrawn(Word(), max - min + 1)
      ensures max - min < 0x20_0000 ==> k == Choice(min, max, Word())
    {
      k := Below(max - min + 1);
      k := k + min;
    }

    method RngPick<T>(arr: seq<T>) returns (x: T, ghost index: int)
      requires Valid() && 0 < |arr| < WORDS
      modifies this
      ensures Valid() && Word() == NextWord(old(Word()))
      ensures 0 <= index < |arr| && x == arr[index] && index == IndexDrawn(Word(), |arr|)
      ensures |arr| <= 0x20_0000 ==> index == Bucket(Word(), |arr|)
    {
      var i := Below(|arr|);
      x, index := arr[i], i;
    }

    method RngBool(probability: real) returns (b: bool)
      requires Valid()
      modifies this
      ensures Valid() && Word() == NextWord(old(Word()))
      ensures b <==> Chance(Word(), probability)
    {
      var r := Next();
      b := r < probability;
    }

    method RngPickWeighted<T>(items: seq<T>, weights: seq<nat>) returns (x: T, ghost index: int)
      requires Valid()
      requires 0 < |items| == |weights| && Sum(weights) <= 0x20_0000
      modifies this
      ensures Valid() && Word() == NextWord(old(Word()))
      ensures Selects(Word(), weights, index) && x == items[index]
    {
      var total := Total(weights);
      var draw := Next();
      var r := Nearest(draw * total as real);
      ghost var threshold := Word() * total;
      ScaledExact(Word(), total, draw);
      ProductBound(Word(), total, WORDS, 0x20_0000);
      for i := 0 to |items|
        invariant Valid() && Word() == NextWord(old(Word()))
        invariant r == Remaining(threshold, Prefix(weights, i))
        invariant forall j :: 1 <= j <= i ==> WORDS * Prefix(weights, j) < threshold
      {
        PrefixBound(weights, i);
        RemainingStep(threshold, Prefix(weights, i), weights[i], Prefix(weights, i + 1));
        r := Nearest(r - weights[i] as real);
        if r <= 0.0 {
          return items[i], i;
        }
      }
      // The script's fallback to the last item is dead code.
      assert weights[..|items|] == weights;
      ProductBound(Word(), total, WORDS, total);
      assert false;
    }
  }

  method Total(weights: seq<nat>) returns (total: nat)
    ensures total == Sum(weights)
  {
    total := 0;
    for i := 0 to |weights|
      invariant total == Prefix(weights, i)
    {
      assert weights[..i + 1][..i] == weights[..i];
      total := total + weights[i];
    }
    assert weights[..|weights|] == weights;
  }

  // The value of the script's r once the weights before add up to prefix, in units of 2^-32.
  ghost function Remaining(threshold: int, prefix: int): real {
    (threshold - WORDS * prefix) as real / 4294967296.0
  }

  /**
   * Every intermediate of one generator step is an integer below 2^53, so the
   * doubles compute it exactly.
   */
  lemma StepIsExact(seed: int)
    requires -0x8000_0000 <= seed < WORDS
    ensures Nearest(seed as real * 1664525.0) == (MULTIPLIER * seed) as real
    ensures Nearest(Nearest(seed as real * 1664525.0) + 1013904223.0) == Step(seed) as real
  {
    assert seed as real * 1664525.0 == (MULTIPLIER * seed) as real;
    NearestInteger(MULTIPLIER * seed);
    NearestInteger(Step(seed));
  }

  lemma AddMultiple(x: int, q: int)
    ensures (x + WORDS * q) % WORDS == x % WORDS
  {
  }

  // The generator respects congruence modulo 2^32.
  lemma {:induction false} StepModulo(x: int)
    ensures Step(x % WORDS) % WORDS == Step(x) % WORDS
  {
    var q := x / WORDS;
    assert Step(x) == Step(x % WORDS) + WORDS * (MULTIPLIER * q);
    AddMultiple(Step(x % WORDS), MULTIPLIER * q);
  }

  lemma NearestFraction(w: int)
    requires -TWO_53 <= w <= TWO_53
    ensures Nearest(w as real / 4294967296.0) == w as real / 4294967296.0
  {
    Halved32(w);
    NearestHalved(w, 32);
  }

  lemma ProductBound(u: int, n: int, p: int, q: int)
    requires 0 <= u <= p && 0 <= n <= q
    ensures 0 <= u * n <= p * q
  {
  }

  lemma ScaledValue(u: int, n: int, r: real)
    requires r == u as real / 4294967296.0
    ensures r * n as real == (u * n) as real / 4294967296.0
  {
  }

  lemma FloorOfQuotient(m: int)
    ensures (m as real / 4294967296.0).Floor == m / WORDS
  {
  }

  /** A draw scaled by at most 2^21 is exact: its floor is an integer division. */
  lemma ScaledExact(u: int, n: nat, r: real)
    requires 0 <= u < WORDS && n <= 0x20_0000
    requires r == u as real / 4294967296.0
    ensures Nearest(r * n as real) == (u * n) as real / 4294967296.0
    ensures Nearest(r * n as real).Floor == Bucket(u, n)
  {
    ProductBound(u, n, WORDS, 0x20_0000);
    ScaledValue(u, n, r);
    NearestFraction(u * n);
    FloorOfQuotient(u * n);
  }

  /** A draw scaled by any span rounds to something below the span. */
  lemma ScaledBelow(u: int, n: nat, r: real)
    requires 0 <= u < WORDS && 0 < n <= TWO_53
    requires r == u as real / 4294967296.0
    ensures 0.0 <= Nearest(r * n as real) < n as real
  {
    var x := r * n as real;
    ProductBound(u, n, WORDS - 1, n);
    ScaledValue(u, n, r);
    NearestError(x);
  }

  lemma ScaledIndex(u: int, n: nat, r: real)
    requires 0 <= u < WORDS && 0 < n <= TWO_53
    requires r == u as real / 4294967296.0
    ensures 0 <= FloorScaled(r, n) < n
    ensures 0 <= Bucket(u, n) < n
    ensures n <= 0x20_0000 ==> FloorScaled(r, n) == Bucket(u, n)
  {
    ScaledBelow(u, n, r);
    BucketBelow(u, n);
    if n <= 0x20_0000 {
      ScaledExact(u, n, r);
    }
  }

  /** WordAfter lists the words of the closed form. */
  lemma {:induction false} WordAfterIsDraw(w: int, n: nat)
    requires 0 <= w < WORDS
    ensures WordAfter(w, n + 1) == DrawAt(w, n)
  {
    if n == 0 {
      FirstDraw(w);
      assert WordAfter(w, 1) == NextWord(WordAfter(w, 0));
    } else {
      WordAfterIsDraw(w, n - 1);
      DrawsFollowGenerator(w, n - 1);
    }
  }

  lemma {:induction false} WordAfterAdds(w: int, m: nat, n: nat)
    ensures WordAfter(WordAfter(w, m), n) == WordAfter(w, m + n)
  {
    if n > 0 { WordAfterAdds(w, m, n - 1); }
  }

  lemma BucketBelow(u: int, n: nat)
    requires 0 <= u < WORDS && 0 < n
    ensures 0 <= Bucket(u, n) < n
  {
  }

  lemma {:induction false} PrefixMonotone(weights: seq<nat>, i: nat, j: nat)
    requires i <= j <= |weights|
    ensures Prefix(weights, i) <= Prefix(weights, j)
    decreases j
  {
    if i < j {
      PrefixStep(weights, j - 1);
      PrefixMonotone(weights, i, j - 1);
    }
  }

  lemma PrefixStep(weights: seq<nat>, i: nat)
    requires i < |weights|
    ensures Prefix(weights, i + 1) == Prefix(weights, i) + weights[i]
  {
    assert weights[..i + 1][..i] == weights[..i];
  }

  lemma PrefixAll(weights: seq<nat>)
    ensures Prefix(weights, |weights|) == Sum(weights)
  {
    assert weights[..|weights|] == weights;
  }

  lemma FractionMinus(a: int, w: int)
    ensures a as real / 4294967296.0 - w as real == (a - WORDS * w) as real / 4294967296.0
  {
  }

  lemma ExactMinus(a: int, w: int)
    requires -TWO_53 <= a - WORDS * w <= TWO_53
    ensures Nearest(a as real / 4294967296.0 - w as real) == (a - WORDS * w) as real / 4294967296.0
  {
    FractionMinus(a, w);
    NearestFraction(a - WORDS * w);
  }

  lemma PrefixBound(weights: seq<nat>, i: nat)
    requires i < |weights|
    ensures Prefix(weights, i + 1) == Prefix(weights, i) + weights[i] <= Sum(weights)
    ensures i + 1 == |weights| ==> Prefix(weights, i + 1) == Sum(weights)
  {
    PrefixStep(weights, i);
    PrefixMonotone(weights, i + 1, |weights|);
    PrefixAll(weights);
  }

  // One subtraction of the weighted pick is exact.
  lemma RemainingStep(threshold: int, before: int, weight: int, after: int)
    requires 0 <= threshold <= TWO_53 && 0 <= after <= 0x20_0000 && after == before + weight
    ensures Nearest(Remaining(threshold, before) - weight as real) == Remaining(threshold, after)
  {
    ExactMinus(threshold - WORDS * before, weight);
  }

  /** DrawAt lists the words the generator steps through. */
  lemma DrawsFollowGenerator(w: int, i: nat)
    ensures DrawAt(w, i + 1) == NextWord(DrawAt(w, i))
  {
    var x := Steps(w, i + 1);
    assert Steps(w, i + 1 + 1) == Step(x);
    StepModulo(x);
  }

  lemma FirstDraw(w: int)
    ensures DrawAt(w, 0) == NextWord(w % WORDS)
  {
    assert Steps(w, 1) == Step(Steps(w, 0));
    StepModulo(w);
  }

  lemma Pow2Words()
    ensures Pow2(32) == WORDS
  {
    assert Pow2(8) == 256;
    assert Pow2(16) == 256 * Pow2(8);
    assert Pow2(24) == 256 * Pow2(16);
    assert Pow2(32) == 256 * Pow2(24);
  }

  lemma DividesIsModulo(x: int)
    ensures Divides(Pow2(32), x) <==> x % WORDS == 0
  {
    Pow2Words();
    if x % WORDS == 0 {
      assert x == Pow2(32) * (x / WORDS);
    }
  }

  lemma CongruentDifference(x: int, y: int)
    ensures x % WORDS == y % WORDS <==> (x - y) % WORDS == 0
  {
  }

  /**
   * The generator draws the same word twice exactly when the number of draws
   * between is a multiple of 2^32: its period is full from every state.
   */
  lemma DrawsRepeat(w: int, i: nat, j: nat)
    requires i <= j
    ensures DrawAt(w, i) == DrawAt(w, j) <==> (j - i) % WORDS == 0
  {
    StepsAgree(32, w, i + 1, j + 1);
    CongruentDifference(Steps(w, j + 1), Steps(w, i + 1));
    DividesIsModulo(Steps(w, j + 1) - Steps(w, i + 1));
    DividesIsModulo(j - i);
  }

  // The words of one full period from state w.
  ghost function Period(w: int): (s: seq<int>)
    ensures |s| == WORDS
  {
    seq(WORDS, (i: int) requires 0 <= i => DrawAt(w, i))
  }

  /** One period is a permutation of all 32-bit words. */
  lemma PeriodIsPermutation(w: int)
    ensures Distinct(Period(w))
    ensures Elements(Period(w)) == Range(0, WORDS)
  {
    forall i, j | 0 <= i < j < WORDS ensures Period(w)[i] != Period(w)[j] {
      DrawsRepeat(w, i, j);
    }
    DistinctIsOnto(Period(w));
  }

  function CeilDiv(a: int, b: int): int
    requires b > 0
  {
    -(-a / b)
  }

  lemma CeilDivLeast(a: int, b: int, x: int)
    requires b > 0
    ensures CeilDiv(a, b) <= x <==> a <= x * b
  {
    var c := CeilDiv(a, b);
    var r := -a % b;
    assert c * b == a + r;
    if c <= x { assert c * b <= x * b; }
    if x < c { assert x * b <= (c - 1) * b == c * b - b; }
  }

  // The words in bucket j of n are an interval.
  lemma BucketInterval(u: int, n: nat, j: int)
    requires n > 0
    ensures Bucket(u, n) == j <==> CeilDiv(j * WORDS, n) <= u < CeilDiv((j + 1) * WORDS, n)
  {
    CeilDivLeast(j * WORDS, n, u);
    CeilDivLeast((j + 1) * WORDS, n, u);
  }

  // Consecutive multiples of a step, divided by n and rounded up, differ by step/n up or down.
  lemma CeilDivGap(a: int, step: int, n: nat)
    requires n > 0 && step >= 0
    ensures step / n <= CeilDiv(a + step, n) - CeilDiv(a, n) <= CeilDiv(step, n)
  {
    var c, d, f, g := CeilDiv(a, n), CeilDiv(a + step, n), step / n, CeilDiv(step, n);
    CeilDivLeast(a, n, c);
    CeilDivLeast(a + step, n, c + g);
    CeilDivLeast(step, n, g);
    assert (c + g) * n == c * n + g * n;
    CeilDivLeast(a + step, n, d);
    CeilDivLeast(a, n, d - f);
    assert (d - f) * n == d * n - f * n;
    assert f * n <= step;
  }

  // The draws of one period from w that rngInt(min, min + n - 1) turns into min + j.
  ghost function BucketHits(w: int, n: nat, j: int): set<int>
    requires n > 0
  {
    set i | 0 <= i < WORDS && Bucket(Period(w)[i], n) == j
  }

  lemma BucketEdges(n: nat, j: nat)
    requires 0 < n && j < n
    ensures 0 <= CeilDiv(j * WORDS, n) <= CeilDiv((j + 1) * WORDS, n) <= WORDS
    ensures WORDS / n <= CeilDiv((j + 1) * WORDS, n) - CeilDiv(j * WORDS, n) <= CeilDiv(WORDS, n)
  {
    CeilDivGap(j * WORDS, WORDS, n);
    assert (j + 1) * WORDS == j * WORDS + WORDS;
    CeilDivLeast(j * WORDS, n, -1);
    assert -1 * n < 0 <= j * WORDS;
    CeilDivLeast((j + 1) * WORDS, n, WORDS);
    assert (j + 1) * WORDS <= n * WORDS;
  }

  // A property of draws that means "from lo up to hi" holds hi - lo times in a period.
  lemma CountDraws(s: seq<int>, hits: set<int>, lo: int, hi: int)
    requires Distinct(s) && Elements(s) == Range(0, |s|)
    requires 0 <= lo <= hi <= |s|
    requires forall i :: i in hits <==> 0 <= i < |s| && lo <= s[i] < hi
    ensures |hits| == hi - lo
  {
    assert hits == Hits(s, lo, hi);
    forall x | x in s ensures 0 <= x < |s| {
      assert x in Elements(s);
    }
    HitsOfPermutation(s, lo, hi);
  }

  /**
   * Over one full period every value of a span n is drawn floor(2^32 / n) or
   * ceil(2^32 / n) times, whatever the state it starts from.
   */
  lemma UniformOverPeriod(w: int, n: nat, j: nat)
    requires 0 < n && j < n
    ensures WORDS / n <= |BucketHits(w, n, j)| <= CeilDiv(WORDS, n)
  {
    BucketEdges(n, j);
    BucketHitsInterval(w, n, j);
    PeriodIsPermutation(w);
    CountDraws(Period(w), BucketHits(w, n, j), CeilDiv(j * WORDS, n), CeilDiv((j + 1) * WORDS, n));
  }

  lemma BucketHitsInterval(w: int, n: nat, j: nat)
    requires 0 < n && j < n
    ensures forall i :: i in BucketHits(w, n, j) <==>
                          0 <= i < WORDS && CeilDiv(j * WORDS, n) <= Period(w)[i] < CeilDiv((j + 1) * WORDS, n)
  {
    forall i | 0 <= i < WORDS
      ensures Bucket(Period(w)[i], n) == j <==> CeilDiv(j * WORDS, n) <= Period(w)[i] < CeilDiv((j + 1) * WORDS, n)
    {
      BucketInterval(Period(w)[i], n, j);
    }
  }

  // The draws of one period from w for which rngPickWeighted returns item i.
  ghost function PickHits(w: int, weights: seq<nat>, i: nat): set<int> {
    set k | 0 <= k < WORDS && Selects(Period(w)[k], weights, i)
  }

  // The least word past the share of the first k weights.
  ghost function Edge(weights: seq<nat>, k: nat): int
    requires k <= |weights| && Sum(weights) > 0
  {
    if k == 0 then 0 else Min(WORDS, WORDS * Prefix(weights, k) / Sum(weights) + 1)
  }

  lemma FloorDivGreatest(a: int, b: int, x: int)
    requires b > 0
    ensures x <= a / b <==> x * b <= a
  {
    var q, r := a / b, a % b;
    assert q * b == a - r;
    if x <= q { assert x * b <= q * b; }
    if x > q { assert x * b >= (q + 1) * b == q * b + b; }
  }

  lemma SelectsInterval(u: int, weights: seq<nat>, i: nat)
    requires 0 <= u < WORDS && i < |weights| && Sum(weights) > 0
    ensures Selects(u, weights, i) <==> Edge(weights, i) <= u < Edge(weights, i + 1)
  {
    var total := Sum(weights);
    FloorDivGreatest(WORDS * Prefix(weights, i), total, u);
    FloorDivGreatest(WORDS * Prefix(weights, i + 1), total, u);
    PrefixAll(weights);
    ProductBound(u, total, WORDS, total);
    forall j | 1 <= j <= i ensures Prefix(weights, j) <= Prefix(weights, i) {
      PrefixMonotone(weights, j, i);
    }
  }

  // Rounding a / b to the least integer above it, at most w.
  lemma AboveQuotient(a: int, b: int, w: int, e: int)
    requires b > 0 && 0 <= a <= w * b && e == Min(w, a / b + 1)
    ensures 0 <= e <= w && 0 <= e * b - a <= b
  {
  }

  // An edge exceeds the exact share of the words by at most one word.
  lemma EdgeShare(weights: seq<nat>, k: nat)
    requires k <= |weights| && Sum(weights) > 0
    ensures 0 <= Edge(weights, k) <= WORDS
    ensures 0 <= Edge(weights, k) * Sum(weights) - WORDS * Prefix(weights, k) <= Sum(weights)
  {
    PrefixMonotone(weights, k, |weights|);
    PrefixAll(weights);
    if k > 0 {
      ProductBound(Prefix(weights, k), WORDS, Sum(weights), WORDS);
      AboveQuotient(WORDS * Prefix(weights, k), Sum(weights), WORDS, Edge(weights, k));
    }
  }

  lemma QuotientMonotone(a: int, b: int, t: int)
    requires 0 < t && 0 <= a <= b
    ensures a / t <= b / t
  {
    FloorDivGreatest(a, t, a / t);
    FloorDivGreatest(b, t, a / t);
  }

  lemma EdgesOrdered(weights: seq<nat>, i: nat)
    requires i < |weights| && Sum(weights) > 0
    ensures Edge(weights, i) <= Edge(weights, i + 1)
  {
    PrefixStep(weights, i);
    EdgeShare(weights, i + 1);
    if i > 0 {
      QuotientMonotone(WORDS * Prefix(weights, i), WORDS * Prefix(weights, i + 1), Sum(weights));
    }
  }

  // Two edges, each at most one word above its exact share, bound the words between.
  lemma ShareError(lo: int, hi: int, total: int, before: int, after: int)
    requires 0 <= lo * total - WORDS * before <= total
    requires 0 <= hi * total - WORDS * after <= total
    ensures -total <= (hi - lo) * total - WORDS * (after - before) <= total
  {
  }

  lemma PickHitsInterval(w: int, weights: seq<nat>, i: nat)
    requires i < |weights| && Sum(weights) > 0
    ensures forall k :: k in PickHits(w, weights, i) <==>
                          0 <= k < WORDS && Edge(weights, i) <= Period(w)[k] < Edge(weights, i + 1)
  {
    forall k | 0 <= k < WORDS
      ensures Selects(Period(w)[k], weights, i) <==> Edge(weights, i) <= Period(w)[k] < Edge(weights, i + 1)
    {
      SelectsInterval(Period(w)[k], weights, i);
    }
  }

  lemma PickHitsCount(w: int, weights: seq<nat>, i: nat)
    requires i < |weights| && Sum(weights) > 0
    ensures |PickHits(w, weights, i)| == Edge(weights, i + 1) - Edge(weights, i)
  {
    var lo, hi := Edge(weights, i), Edge(weights, i + 1);
    PickHitsInterval(w, weights, i);
    EdgeShare(weights, i);
    EdgeShare(weights, i + 1);
    EdgesOrdered(weights, i);
    PeriodIsPermutation(w);
    CountDraws(Period(w), PickHits(w, weights, i), lo, hi);
  }

  /**
   * Over one full period rngPickWeighted returns item i for a number of draws
   * within one of 2^32 * weight / total, whatever the state it starts from.
   */
  lemma WeightedOverPeriod(w: int, weights: seq<nat>, i: nat)
    requires i < |weights| && Sum(weights) > 0
    ensures -Sum(weights) <= |PickHits(w, weights, i)| * Sum(weights) - WORDS * weights[i] <= Sum(weights)
  {
    var lo, hi, total := Edge(weights, i), Edge(weights, i + 1), Sum(weights);
    PickHitsCount(w, weights, i);
    EdgeShare(weights, i);
    EdgeShare(weights, i + 1);
    PrefixStep(weights, i);
    ShareError(lo, hi, total, Prefix(weights, i), Prefix(weights, i + 1));
  }
}
