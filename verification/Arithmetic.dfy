/** Small arithmetic that several components share. */
module Arithmetic {
  function Min(a: int, b: int): int {
    if a < b then a else b
  }

  // Sums as the scripts' reduce calls and running totals compute them, left to right.
  function Sum(xs: seq<int>): int {
    if xs == [] then 0 else Sum(xs[..|xs| - 1]) + xs[|xs| - 1]
  }

  lemma SumSnoc(xs: seq<int>, x: int)
    ensures Sum(xs + [x]) == Sum(xs) + x
  {
    assert (xs + [x])[..|xs|] == xs;
  }

  lemma {:induction false} SumOfNaturals(xs: seq<nat>)
    ensures Sum(xs) >= 0
  {
    if xs != [] {
      SumOfNaturals(xs[..|xs| - 1]);
    }
  }
}
