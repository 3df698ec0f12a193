/**
 * Sums, means, sorting and the linear-interpolation percentile shared by
 * every tracker (`compute_percentile` exists in three identical copies; the
 * game's copy clamps the upper index, which never matters for percentiles in
 * [0, 100]).
 */
module Statistics {
  import opened Numeric

  /** Python's `sum(values)`, accumulated left to right. */
  function Sum(s: seq<real>): real {
    if |s| == 0 then 0.0 else Sum(s[..|s| - 1]) + s[|s| - 1]
  }

  /** Appending a value adds it to the sum. */
  lemma SumAppend(s: seq<real>, x: real)
    ensures Sum(s + [x]) == Sum(s) + x
  {
    assert (s + [x])[..|s|] == s;
  }

  /** Every value in `[lo, hi]` puts the sum in `[|s| * lo, |s| * hi]`. */
  lemma {:induction false} SumBounds(s: seq<real>, lo: real, hi: real)
    requires forall i :: 0 <= i < |s| ==> lo <= s[i] <= hi
    ensures (|s| as real) * lo <= Sum(s) <= (|s| as real) * hi
  {
    if |s| > 0 {
      SumBounds(s[..|s| - 1], lo, hi);
      assert (|s| as real) * lo == ((|s| - 1) as real) * lo + lo;
      assert (|s| as real) * hi == ((|s| - 1) as real) * hi + hi;
    }
  }

  /** `sum(values) / len(values)` on a non-empty list. */
  function Mean(s: seq<real>): real
    requires |s| > 0
  {
    Sum(s) / (|s| as real)
  }

  /** The mean of values in `[lo, hi]` is in `[lo, hi]`. */
  lemma MeanBounds(s: seq<real>, lo: real, hi: real)
    requires |s| > 0
    requires forall i :: 0 <= i < |s| ==> lo <= s[i] <= hi
    ensures lo <= Mean(s) <= hi
  {
    SumBounds(s, lo, hi);
    var n := |s| as real;
    assert (n * lo) / n == lo && (n * hi) / n == hi;
  }

  /** The mean of a constant sequence is that constant. */
  lemma MeanOfConstant(s: seq<real>, c: real)
    requires |s| > 0
    requires forall i :: 0 <= i < |s| ==> s[i] == c
    ensures Mean(s) == c
  {
    MeanBounds(s, c, c);
  }

  /** Mean of a rolling window, 0.0 while it is empty. */
  function WindowMean(window: seq<real>): real {
    if |window| == 0 then 0.0 else Mean(window)
  }

  predicate Sorted(s: seq<real>) {
    forall i, j :: 0 <= i < j < |s| ==> s[i] <= s[j]
  }

  /** Inserts `x` into a sorted sequence in order. */
  function Insert(x: real, s: seq<real>): (r: seq<real>)
    requires Sorted(s)
    ensures Sorted(r)
    ensures multiset(r) == multiset(s) + multiset{x}
    ensures |r| == |s| + 1
    ensures r[0] == if |s| == 0 || x <= s[0] then x else s[0]
  {
    if |s| == 0 then [x]
    else if x <= s[0] then [x] + s
    else
      var rest := Insert(x, s[1..]);
      assert s == [s[0]] + s[1..];
      assert forall k :: 0 <= k < |rest| ==> s[0] <= rest[k] by {
        forall k | 0 <= k < |rest|
          ensures s[0] <= rest[k]
        {
          assert rest[0] <= rest[k];
        }
      }
      [s[0]] + rest
  }

  /** Python's `sorted(values)`: an ascending permutation of the input. */
  function Sort(s: seq<real>): (r: seq<real>)
    ensures Sorted(r)
    ensures multiset(r) == multiset(s)
    ensures |r| == |s|
  {
    if |s| == 0 then []
    else
      assert s == s[..|s| - 1] + [s[|s| - 1]];
      Insert(s[|s| - 1], Sort(s[..|s| - 1]))
  }

  /** The least element of a sorted sequence is its first. */
  lemma SortedFirstIsLeast(s: seq<real>, x: real)
    requires Sorted(s) && x in multiset(s)
    ensures s[0] <= x
  {
    var k :| 0 <= k < |s| && s[k] == x;
  }

  /** The tail of a sorted sequence is sorted and holds all but its first element. */
  lemma SortedTail(a: seq<real>)
    requires Sorted(a) && |a| > 0
    ensures Sorted(a[1..])
    ensures multiset(a[1..]) == multiset(a) - multiset{a[0]}
  {
    assert a == [a[0]] + a[1..];
  }

  /** Two sorted sequences with the same elements have the same length and the same first element. */
  lemma SameHead(a: seq<real>, b: seq<real>)
    requires Sorted(a) && Sorted(b) && multiset(a) == multiset(b) && |a| > 0
    ensures |b| == |a| && a[0] == b[0]
  {
    assert |multiset(a)| == |a| && |multiset(b)| == |b|;
    assert a[0] in multiset(b) && b[0] in multiset(a);
    SortedFirstIsLeast(b, a[0]);
    SortedFirstIsLeast(a, b[0]);
  }

  /** Sequences that agree on the first element and on the rest are equal. */
  lemma SameHeadAndTail(a: seq<real>, b: seq<real>)
    requires |a| > 0 && |b| > 0 && a[0] == b[0] && a[1..] == b[1..]
    ensures a == b
  {
    assert a == [a[0]] + a[1..];
    assert b == [b[0]] + b[1..];
  }

  /** Two sorted sequences with the same elements are equal. */
  lemma {:induction false} SortedUnique(a: seq<real>, b: seq<real>)
    requires Sorted(a) && Sorted(b) && multiset(a) == multiset(b)
    ensures a == b
  {
    if |a| > 0 {
      SameHead(a, b);
      SortedTail(a);
      SortedTail(b);
      assert multiset(a[1..]) == multiset(b[1..]);
      SortedUnique(a[1..], b[1..]);
      SameHeadAndTail(a, b);
    } else {
      assert |multiset(b)| == 0;
    }
  }

  /** Sorting depends only on the multiset of its input. */
  lemma SortPermutationInvariant(a: seq<real>, b: seq<real>)
    requires multiset(a) == multiset(b)
    ensures Sort(a) == Sort(b)
  {
    SortedUnique(Sort(a), Sort(b));
  }

  /** `lower + (upper - lower) * fraction`: linear interpolation stays between its ends. */
  function Lerp(lower: real, upper: real, fraction: real): (r: real)
    requires lower <= upper && 0.0 <= fraction <= 1.0
    ensures lower <= r <= upper
    ensures fraction == 0.0 ==> r == lower
  {
    MulNonNegative(upper - lower, fraction);
    ScaleDown(upper - lower, fraction);
    lower + (upper - lower) * fraction
  }

  /** `index = (percentile / 100) * (n - 1)`, which for a percentile in [0, 100] lies in [0, n - 1]. */
  function PercentileIndex(n: nat, p: real): (index: real)
    requires n > 0 && 0.0 <= p <= 100.0
    ensures 0.0 <= index <= (n - 1) as real
  {
    var f := p / 100.0;
    assert f * ((n - 1) as real) <= 1.0 * ((n - 1) as real);
    f * ((n - 1) as real)
  }

  /**
   * The percentile of already sorted values: the element at an integral
   * index, or the linear interpolation between the two elements around a
   * fractional one.
   */
  function SortedPercentile(sorted: seq<real>, p: real): (r: real)
    requires Sorted(sorted) && |sorted| > 0 && 0.0 <= p <= 100.0
    ensures sorted[0] <= r <= sorted[|sorted| - 1]
  {
    var index := PercentileIndex(|sorted|, p);
    var k := index.Floor;
    assert sorted[0] <= sorted[k] <= sorted[|sorted| - 1];
    if index == k as real then
      sorted[k]
    else
      assert k + 1 < |sorted|;
      Lerp(sorted[k], sorted[k + 1], index - k as real)
  }

  /**
   * `compute_percentile(values, p)`: 0.0 for no values; otherwise the
   * percentile of the sorted values, so never below the least sorted element
   * nor above the greatest.
   */
  function Percentile(values: seq<real>, p: real): (r: real)
    requires 0.0 <= p <= 100.0
    ensures |values| == 0 ==> r == 0.0
    ensures |values| > 0 ==> Sort(values)[0] <= r <= Sort(values)[|values| - 1]
  {
    if |values| == 0 then 0.0 else SortedPercentile(Sort(values), p)
  }

  /** Every element of a sorted sequence lies between its first and its last. */
  lemma SortedElementBetweenEnds(s: seq<real>, v: real)
    requires Sorted(s) && v in multiset(s)
    ensures s[0] <= v <= s[|s| - 1]
  {
    var k :| 0 <= k < |s| && s[k] == v;
  }

  /** The first and last sorted elements are the minimum and the maximum of the values. */
  lemma SortedEnds(values: seq<real>)
    requires |values| > 0
    ensures Sort(values)[0] in values && Sort(values)[|values| - 1] in values
    ensures forall i :: 0 <= i < |values| ==> Sort(values)[0] <= values[i] <= Sort(values)[|values| - 1]
  {
    var sorted := Sort(values);
    var n := |values|;
    assert sorted[0] in multiset(values) && sorted[n - 1] in multiset(values);
    forall i | 0 <= i < n
      ensures sorted[0] <= values[i] <= sorted[n - 1]
    {
      assert values[i] in multiset(sorted);
      SortedElementBetweenEnds(sorted, values[i]);
    }
  }

  /** A percentile of values lies between their minimum and their maximum. */
  lemma PercentileBetweenMinAndMax(values: seq<real>, p: real)
    requires 0.0 <= p <= 100.0 && |values| > 0
    ensures exists i :: 0 <= i < |values| && values[i] <= Percentile(values, p)
    ensures exists j :: 0 <= j < |values| && Percentile(values, p) <= values[j]
  {
    SortedEnds(values);
    var i :| 0 <= i < |values| && values[i] == Sort(values)[0];
    var j :| 0 <= j < |values| && values[j] == Sort(values)[|values| - 1];
  }

  /** Bounds on the values bound the percentile. */
  lemma PercentileWithin(values: seq<real>, p: real, lo: real, hi: real)
    requires 0.0 <= p <= 100.0 && |values| > 0
    requires forall i :: 0 <= i < |values| ==> lo <= values[i] <= hi
    ensures lo <= Percentile(values, p) <= hi
  {
    SortedEnds(values);
  }

  /** The 0th percentile is the minimum of the values. */
  lemma PercentileZeroIsMin(values: seq<real>)
    requires |values| > 0
    ensures Percentile(values, 0.0) in values
    ensures forall i :: 0 <= i < |values| ==> Percentile(values, 0.0) <= values[i]
  {
    assert PercentileIndex(|values|, 0.0) == 0.0;
    SortedEnds(values);
  }

  /** The 100th percentile is the maximum of the values. */
  lemma PercentileHundredIsMax(values: seq<real>)
    requires |values| > 0
    ensures Percentile(values, 100.0) in values
    ensures forall i :: 0 <= i < |values| ==> values[i] <= Percentile(values, 100.0)
  {
    assert PercentileIndex(|values|, 100.0) == (|values| - 1) as real;
    SortedEnds(values);
  }

  /** The percentile depends only on the multiset of values, not on their order. */
  lemma PercentilePermutationInvariant(a: seq<real>, b: seq<real>, p: real)
    requires 0.0 <= p <= 100.0 && multiset(a) == multiset(b)
    ensures Percentile(a, p) == Percentile(b, p)
  {
    SortPermutationInvariant(a, b);
    assert |a| == |b| by {
      assert |multiset(a)| == |a| && |multiset(b)| == |b|;
    }
  }
}
