/** Counting with finite sets: a list of n distinct values below n holds each of them once. */
module Counting {
  ghost function Range(lo: int, hi: int): (s: set<int>)
    ensures forall i :: i in s <==> lo <= i < hi
    ensures lo <= hi ==> |s| == hi - lo
    decreases hi - lo
  {
    if lo >= hi then {} else Range(lo, hi - 1) + {hi - 1}
  }

  ghost predicate Distinct(s: seq<int>) {
    forall i, j :: 0 <= i < j < |s| ==> s[i] != s[j]
  }

  ghost function Elements(s: seq<int>): set<int> {
    set x | x in s
  }

  // The positions of s that hold a value of the interval from lo up to hi.
  ghost function Hits(s: seq<int>, lo: int, hi: int): set<int> {
    set i | 0 <= i < |s| && lo <= s[i] < hi
  }

  lemma ElementsOfLast(s: seq<int>)
    requires s != []
    ensures Elements(s) == Elements(s[..|s| - 1]) + {s[|s| - 1]}
  {
  }

  lemma {:induction false} DistinctSize(s: seq<int>)
    requires Distinct(s)
    ensures |Elements(s)| == |s|
  {
    if s != [] {
      var last, rest := s[|s| - 1], s[..|s| - 1];
      DistinctSize(rest);
      ElementsOfLast(s);
    }
  }

  lemma SubsetOfSameSize(a: set<int>, b: set<int>)
    requires a <= b && |a| == |b|
    ensures a == b
  {
    assert b == a + (b - a);
  }

  lemma DistinctIsOnto(s: seq<int>)
    requires Distinct(s) && forall x :: x in s ==> 0 <= x < |s|
    ensures Elements(s) == Range(0, |s|)
  {
    DistinctSize(s);
    SubsetOfSameSize(Elements(s), Range(0, |s|));
  }

  // Widening the interval by a value that s holds at position p adds just p.
  lemma HitsOfOneMore(s: seq<int>, lo: int, v: int, p: int)
    requires Distinct(s) && lo <= v && 0 <= p < |s| && s[p] == v
    ensures Hits(s, lo, v + 1) == Hits(s, lo, v) + {p} && p !in Hits(s, lo, v)
  {
  }

  lemma {:induction false} HitsSize(s: seq<int>, lo: int, hi: int)
    requires Distinct(s) && lo <= hi
    requires Range(lo, hi) <= Elements(s)
    ensures |Hits(s, lo, hi)| == hi - lo
    decreases hi - lo
  {
    if lo < hi {
      assert hi - 1 in Elements(s);
      var p :| 0 <= p < |s| && s[p] == hi - 1;
      HitsSize(s, lo, hi - 1);
      HitsOfOneMore(s, lo, hi - 1, p);
    }
  }

  /** A permutation of the first n naturals hits an interval as often as it is long. */
  lemma HitsOfPermutation(s: seq<int>, lo: int, hi: int)
    requires Distinct(s) && forall x :: x in s ==> 0 <= x < |s|
    requires 0 <= lo <= hi <= |s|
    ensures |Hits(s, lo, hi)| == hi - lo
  {
    DistinctIsOnto(s);
    HitsSize(s, lo, hi);
  }
}
