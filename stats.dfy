/**
 * The column reductions the aggregations use: sum, mean, minimum, maximum
 * and the median as pandas computes it (the middle value of the sorted
 * column, or the mean of the two middle values when the count is even).
 * Values are exact reals.
 */
module Stats {

  /** Sum of a column; `Sum(xs + [x]) == Sum(xs) + x` holds by definition. */
  function Sum(xs: seq<real>): real {
    if xs == [] then 0.0 else Sum(xs[..|xs| - 1]) + xs[|xs| - 1]
  }

  lemma {:induction false} SumAppend(xs: seq<real>, ys: seq<real>)
    ensures Sum(xs + ys) == Sum(xs) + Sum(ys)
    decreases |ys|
  {
    if ys == [] {
      assert xs + ys == xs;
    } else {
      assert (xs + ys)[..|xs + ys| - 1] == xs + ys[..|ys| - 1];
      SumAppend(xs, ys[..|ys| - 1]);
    }
  }

  function Min(xs: seq<real>): (m: real)
    requires |xs| > 0
    ensures m in xs && forall i :: 0 <= i < |xs| ==> m <= xs[i]
  {
    if |xs| == 1 then xs[0]
    else
      var m := Min(xs[..|xs| - 1]);
      if xs[|xs| - 1] < m then xs[|xs| - 1] else m
  }

  function Max(xs: seq<real>): (m: real)
    requires |xs| > 0
    ensures m in xs && forall i :: 0 <= i < |xs| ==> xs[i] <= m
  {
    if |xs| == 1 then xs[0]
    else
      var m := Max(xs[..|xs| - 1]);
      if xs[|xs| - 1] > m then xs[|xs| - 1] else m
  }

  /** A sum of values within [lo, hi] lies within [n * lo, n * hi]. */
  lemma {:induction false} SumBounds(xs: seq<real>, lo: real, hi: real)
    requires forall i :: 0 <= i < |xs| ==> lo <= xs[i] <= hi
    ensures |xs| as real * lo <= Sum(xs) <= |xs| as real * hi
  {
    if xs != [] {
      SumBounds(xs[..|xs| - 1], lo, hi);
    }
  }

  /** Dividing bounds n * lo <= s <= n * hi by a positive n. */
  lemma DivideBounds(s: real, n: real, lo: real, hi: real)
    requires n > 0.0 && n * lo <= s <= n * hi
    ensures lo <= s / n <= hi
  {
    assert s / n * n == s;
  }

  /** The arithmetic mean, as pandas `mean` computes it. */
  function Mean(xs: seq<real>): (m: real)
    requires |xs| > 0
    ensures Min(xs) <= m <= Max(xs)
  {
    MeanBetween(xs, Min(xs), Max(xs));
    Sum(xs) / |xs| as real
  }

  /** The mean of values within [lo, hi] lies within [lo, hi]. */
  lemma MeanBetween(xs: seq<real>, lo: real, hi: real)
    requires |xs| > 0 && forall i :: 0 <= i < |xs| ==> lo <= xs[i] <= hi
    ensures lo <= Sum(xs) / |xs| as real <= hi
  {
    SumBounds(xs, lo, hi);
    DivideBounds(Sum(xs), |xs| as real, lo, hi);
  }

  predicate Sorted(xs: seq<real>) {
    forall i, j :: 0 <= i < j < |xs| ==> xs[i] <= xs[j]
  }

  /** Inserts `x` into a sorted sequence. */
  function Insert(xs: seq<real>, x: real): (r: seq<real>)
    requires Sorted(xs)
    ensures Sorted(r) && multiset(r) == multiset(xs) + multiset{x}
    ensures |r| == |xs| + 1 && (r[0] == x || (xs != [] && r[0] == xs[0]))
  {
    if xs == [] || x <= xs[0] then [x] + xs
    else
      assert xs == [xs[0]] + xs[1..];
      var t := Insert(xs[1..], x);
      assert xs[0] <= t[0];
      [xs[0]] + t
  }

  /** The sorted order of a column. */
  function Sort(xs: seq<real>): (r: seq<real>)
    ensures Sorted(r) && multiset(r) == multiset(xs)
  {
    if xs == [] then []
    else
      assert xs == xs[..|xs| - 1] + [xs[|xs| - 1]];
      Insert(Sort(xs[..|xs| - 1]), xs[|xs| - 1])
  }

  /** The first value of a sorted sequence is its least. */
  lemma FirstIsLeast(xs: seq<real>, v: real)
    requires Sorted(xs) && v in multiset(xs)
    ensures xs[0] <= v
  {
    assert v in xs;
    var k :| 0 <= k < |xs| && xs[k] == v;
  }

  /** Two sorted sequences holding the same values are equal. */
  lemma {:induction false} SortedUnique(xs: seq<real>, ys: seq<real>)
    requires Sorted(xs) && Sorted(ys) && multiset(xs) == multiset(ys)
    ensures xs == ys
    decreases |xs|
  {
    assert |xs| == |multiset(xs)| == |ys|;
    if xs != [] {
      assert xs == [xs[0]] + xs[1..] && ys == [ys[0]] + ys[1..];
      FirstIsLeast(ys, xs[0]);
      FirstIsLeast(xs, ys[0]);
      assert xs[0] == ys[0];
      assert multiset(xs) == multiset{xs[0]} + multiset(xs[1..]);
      assert multiset(ys) == multiset{ys[0]} + multiset(ys[1..]);
      forall v ensures multiset(xs[1..])[v] == multiset(ys[1..])[v] {
        assert multiset(xs)[v] == multiset(ys)[v];
      }
      assert multiset(xs[1..]) == multiset(ys[1..]);
      SortedUnique(xs[1..], ys[1..]);
    }
  }

  /** Median as pandas `Series.median` computes it on a column without missing values. */
  function Median(xs: seq<real>): (m: real)
    requires |xs| > 0
    ensures Min(xs) <= m <= Max(xs)
  {
    var s := Sort(xs);
    var n := |s|;
    SortedWithin(xs, s);
    if n % 2 == 1 then s[n / 2] else (s[n / 2 - 1] + s[n / 2]) / 2.0
  }

  /** Every value of the sorted order lies between the column's minimum and maximum. */
  lemma SortedWithin(xs: seq<real>, s: seq<real>)
    requires |xs| > 0 && multiset(s) == multiset(xs)
    ensures |s| == |xs| && forall i :: 0 <= i < |s| ==> Min(xs) <= s[i] <= Max(xs)
  {
    assert |s| == |multiset(s)| == |xs|;
    forall i | 0 <= i < |s|
      ensures Min(xs) <= s[i] <= Max(xs)
    {
      assert s[i] in multiset(xs);
      assert s[i] in xs;
    }
  }

  /** The median depends only on the values, not on the order of the rows. */
  lemma MedianOrderFree(xs: seq<real>, ys: seq<real>)
    requires |xs| > 0 && multiset(xs) == multiset(ys)
    ensures |ys| > 0 && Median(xs) == Median(ys)
  {
    assert |xs| == |multiset(xs)| == |ys|;
    SortedUnique(Sort(xs), Sort(ys));
  }
}
