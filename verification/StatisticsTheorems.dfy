/** What mean, median and variance say about the samples, in whatever order these come. */
module StatisticsTheorems {
  import opened Sorting
  import opened Aggregation
  import opened ReportStatistics

  function Total(values: seq<real>): real {
    if values == [] then 0.0 else Total(values[..|values| - 1]) + values[|values| - 1]
  }

  function SquareTotal(values: seq<real>): real {
    if values == [] then 0.0
    else SquareTotal(values[..|values| - 1]) + values[|values| - 1] * values[|values| - 1]
  }

  const Squared := (v: real) => v * v

  lemma {:induction false} TotalIsSum(values: seq<real>)
    ensures SumBy(values, Itself) == Total(values)
  {
    if values != [] {
      TotalIsSum(values[..|values| - 1]);
    }
  }

  lemma {:induction false} SquareTotalIsSum(values: seq<real>)
    ensures SumBy(values, Squared) == SquareTotal(values)
  {
    if values != [] {
      SquareTotalIsSum(values[..|values| - 1]);
    }
  }

  lemma TotalsPermutation(a: seq<real>, b: seq<real>)
    requires multiset(a) == multiset(b)
    ensures Total(a) == Total(b) && SquareTotal(a) == SquareTotal(b)
  {
    SumByPermutation(a, b, Itself);
    SumByPermutation(a, b, Squared);
    TotalIsSum(a);
    TotalIsSum(b);
    SquareTotalIsSum(a);
    SquareTotalIsSum(b);
  }

  // ----- the mean

  /** The mean is the sum of the samples by their number. */
  lemma MeanIs(values: seq<real>)
    requires values != []
    ensures Observe(values).mean == Total(values) / |values| as real && Observe(values).sampleCount == |values|
  {
    var sorted := SortedSamples(values);
    SameSize(sorted, values);
    TotalIsSum(sorted);
    TotalsPermutation(sorted, values);
  }

  // ----- the variance

  lemma OneMoreSquare(squares: real, total: real, n: real, mean: real, v: real)
    ensures (squares - 2.0 * mean * total + n * mean * mean) + (v - mean) * (v - mean)
            == (squares + v * v) - 2.0 * mean * (total + v) + (n + 1.0) * mean * mean
  {}

  function Expanded(squares: real, total: real, n: real, mean: real): real {
    squares - 2.0 * mean * total + n * mean * mean
  }

  lemma ExpandedSnoc(squares: real, total: real, n: real, mean: real, v: real, deviations: real)
    requires deviations == Expanded(squares, total, n, mean)
    ensures deviations + (v - mean) * (v - mean) == Expanded(squares + v * v, total + v, n + 1.0, mean)
  {
    OneMoreSquare(squares, total, n, mean, v);
  }

  lemma {:induction false} DeviationsExpand(values: seq<real>, mean: real, n: real)
    requires n == |values| as real
    ensures SquaredDeviations(values, mean) == Expanded(SquareTotal(values), Total(values), n, mean)
  {
    if values != [] {
      var front, v := values[..|values| - 1], values[|values| - 1];
      DeviationsExpand(front, mean, n - 1.0);
      ExpandedSnoc(SquareTotal(front), Total(front), n - 1.0, mean, v, SquaredDeviations(front, mean));
    }
  }

  /** Squares less the square of their sum, shared among `n`. */
  function Spread(squares: real, total: real, n: real): real
    requires n > 0.0
  {
    squares - total * total / n
  }

  lemma MeanSquared(total: real, n: real, mean: real)
    requires n > 0.0 && mean == total / n
    ensures n * mean * mean == mean * total && mean * total == total * total / n
  {
    assert mean * n == total;
    assert n * mean * mean == total * mean;
  }

  lemma ExpandedAroundMean(squares: real, total: real, n: real, mean: real)
    requires n > 0.0 && mean == total / n
    ensures Expanded(squares, total, n, mean) == Spread(squares, total, n)
  {
    MeanSquared(total, n, mean);
  }

  /** The variance of at least two samples is the spread of their squares by one less than their number. */
  lemma VarianceIs(values: seq<real>)
    requires |values| > 1
    ensures Observe(values).variance
            == Spread(SquareTotal(values), Total(values), |values| as real) / (|values| - 1) as real
  {
    var sorted := SortedSamples(values);
    SameSize(sorted, values);
    TotalsPermutation(sorted, values);
    MeanIs(values);
    var mean := Observe(values).mean;
    DeviationsAre(sorted, mean, SquareTotal(values), Total(values), |values| as real);
  }

  lemma DeviationsAre(sorted: seq<real>, mean: real, squares: real, total: real, n: real)
    requires n == |sorted| as real > 0.0 && mean == total / n && squares == SquareTotal(sorted)
    requires total == Total(sorted)
    ensures SquaredDeviations(sorted, mean) == Spread(squares, total, n)
  {
    DeviationsExpand(sorted, mean, n);
    ExpandedAroundMean(squares, total, n, mean);
  }

  lemma PositiveProduct(a: real, b: real, product: real)
    requires a > 0.0 && b > 0.0 && product == a * b
    ensures product > 0.0
  {}

  lemma NegativeProduct(a: real, b: real, product: real)
    requires a < 0.0 && b < 0.0 && product == a * b
    ensures product > 0.0
  {}

  lemma SquarePositive(x: real, square: real)
    requires x != 0.0 && square == x * x
    ensures square > 0.0
  {
    if x > 0.0 {
      PositiveProduct(x, x, square);
    } else {
      NegativeProduct(x, x, square);
    }
  }

  lemma SquareAdded(sum: real, x: real, square: real)
    requires sum >= 0.0 && square == x * x
    ensures sum + square >= 0.0 && (sum + square == 0.0 <==> sum == 0.0 && x == 0.0)
  {
    if x != 0.0 {
      SquarePositive(x, square);
    }
  }

  predicate AllAt(values: seq<real>, v: real) {
    forall i :: 0 <= i < |values| ==> values[i] == v
  }

  lemma AllAtSnoc(values: seq<real>, v: real)
    requires values != []
    ensures AllAt(values, v) <==> AllAt(values[..|values| - 1], v) && values[|values| - 1] == v
  {
    assert forall i :: 0 <= i < |values| - 1 ==> values[i] == values[..|values| - 1][i];
  }

  lemma {:induction false} DeviationsZero(values: seq<real>, mean: real)
    ensures SquaredDeviations(values, mean) >= 0.0
    ensures SquaredDeviations(values, mean) == 0.0 <==> AllAt(values, mean)
  {
    if values != [] {
      var n := |values| - 1;
      DeviationsZero(values[..n], mean);
      var deviation := values[n] - mean;
      SquareAdded(SquaredDeviations(values[..n], mean), deviation, deviation * deviation);
      AllAtSnoc(values, mean);
    }
  }

  predicate AllEqual(values: seq<real>) {
    forall i, j :: 0 <= i < |values| && 0 <= j < |values| ==> values[i] == values[j]
  }

  lemma VarianceNonnegative(deviations: real, n: real)
    requires n > 0.0 && deviations >= 0.0
    ensures deviations / n >= 0.0 && (deviations / n == 0.0 <==> deviations == 0.0)
  {
    assert deviations / n * n == deviations;
  }

  lemma EqualsAreMean(values: seq<real>)
    requires values != [] && AllEqual(values)
    ensures Observe(values).mean == values[0]
  {
    var sorted := SortedSamples(values);
    SameSize(sorted, values);
    forall i | 0 <= i < |sorted| ensures sorted[i] == values[0] {
      SameMembers(sorted, values, sorted[i]);
    }
    MeanBetween(sorted, values[0], values[0]);
  }

  /** The variance is never negative, and zero exactly when all samples are equal. */
  lemma VarianceZeroExactly(values: seq<real>)
    requires values != []
    ensures Observe(values).variance >= 0.0
    ensures Observe(values).variance == 0.0 <==> AllEqual(values)
  {
    var sorted := SortedSamples(values);
    SameSize(sorted, values);
    var mean := Observe(values).mean;
    if |values| > 1 {
      DeviationsZero(sorted, mean);
      VarianceNonnegative(SquaredDeviations(sorted, mean), (|values| - 1) as real);
      if AllEqual(values) {
        EqualsAreMean(values);
        EqualStaysEqual(values, sorted, mean);
      } else if Observe(values).variance == 0.0 {
        EqualStaysEqual(sorted, values, mean);
      }
    }
  }

  lemma EqualStaysEqual(a: seq<real>, b: seq<real>, v: real)
    requires multiset(a) == multiset(b) && AllAt(a, v)
    ensures AllAt(b, v)
  {
    forall i | 0 <= i < |b| ensures b[i] == v {
      SameMembers(a, b, b[i]);
    }
  }

  // ----- the median

  function AtLeast(values: seq<real>, bound: real): seq<real> {
    Matching(values, (v: real) => v >= bound)
  }

  lemma {:induction false} SuffixAtLeast(sorted: seq<real>, k: nat, bound: real)
    requires k <= |sorted| && Sorted(sorted, Ascending) && (k < |sorted| ==> bound <= sorted[k])
    ensures |AtLeast(sorted, bound)| >= |sorted| - k
  {
    if k < |sorted| {
      var n := |sorted| - 1;
      assert k < n ==> Ascending(sorted[k], sorted[n]);
      SuffixAtLeast(sorted[..n], k, bound);
    }
  }

  lemma SameCountAtLeast(a: seq<real>, b: seq<real>, bound: real)
    requires multiset(a) == multiset(b)
    ensures |AtLeast(a, bound)| == |AtLeast(b, bound)|
  {
    MatchingPermutation(a, b, (v: real) => v >= bound);
    SameSize(AtLeast(a, bound), AtLeast(b, bound));
  }

  lemma {:induction false} PrefixAtMostBound(sorted: seq<real>, k: nat, bound: real)
    requires 0 < k <= |sorted| && Sorted(sorted, Ascending) && sorted[k - 1] <= bound
    ensures |AtMost(sorted, bound)| >= k
    decreases |sorted|
  {
    var n := |sorted| - 1;
    if k <= n {
      PrefixAtMostBound(sorted[..n], k, bound);
    } else if n > 0 {
      assert Ascending(sorted[n - 1], sorted[n]);
      PrefixAtMostBound(sorted[..n], n, bound);
    }
  }

  /** At least half of the samples lie on each side of `low` and `high`, and none between them. */
  predicate Halves(values: seq<real>, low: real, high: real) {
    && low in values && high in values && low <= high
    && 2 * |AtMost(values, low)| >= |values| && 2 * |AtLeast(values, high)| >= |values|
    && forall v :: v in values ==> v <= low || high <= v
  }

  lemma SortedHalves(values: seq<real>, sorted: seq<real>, i: nat, j: nat)
    requires multiset(sorted) == multiset(values) && Sorted(sorted, Ascending) && i <= j < |sorted| && j <= i + 1
    requires 2 * (i + 1) >= |sorted| && 2 * (|sorted| - j) >= |sorted|
    ensures Halves(values, sorted[i], sorted[j])
  {
    SameSize(sorted, values);
    SameMembers(sorted, values, sorted[i]);
    SameMembers(sorted, values, sorted[j]);
    PrefixAtMostBound(sorted, i + 1, sorted[i]);
    SuffixAtLeast(sorted, j, sorted[j]);
    SameCount(sorted, values, sorted[i]);
    SameCountAtLeast(sorted, values, sorted[j]);
    assert i < j ==> Ascending(sorted[i], sorted[j]);
    forall v | v in values ensures v <= sorted[i] || sorted[j] <= v {
      SameMembers(sorted, values, v);
      var k :| 0 <= k < |sorted| && sorted[k] == v;
      assert k < i ==> Ascending(sorted[k], sorted[i]);
      assert j < k ==> Ascending(sorted[j], sorted[k]);
    }
  }

  /**
   * The median is midway between two neighbouring samples, one and the same for an odd number, that halve the samples.
   */
  lemma MedianHalves(values: seq<real>) returns (low: real, high: real)
    requires values != []
    ensures Halves(values, low, high) && 2.0 * Observe(values).median == low + high
    ensures |values| % 2 == 1 ==> low == high
  {
    var sorted := SortedSamples(values);
    SameSize(sorted, values);
    var middle := |sorted| / 2;
    var i := if |sorted| % 2 == 0 then middle - 1 else middle;
    low, high := sorted[i], sorted[middle];
    SortedHalves(values, sorted, i, middle);
  }
}
