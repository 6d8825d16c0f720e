/** Observed statistics and nearest-rank percentiles. */
module ReportStatistics {
  import opened Base
  import opened Sorting
  import opened Aggregation

  /** The standard deviation of the source is the square root of `variance`. */
  datatype ObservedStatistics = ObservedStatistics(mean: real, median: real, min: real, max: real, variance: real,
                                                   sampleCount: nat)

  const Ascending := (a: real, b: real) => a <= b
  const Itself := (a: real) => a

  function Mean(values: seq<real>): real
    requires values != []
  {
    SumBy(values, Itself) / |values| as real
  }

  function Median(sorted: seq<real>): real
    requires sorted != []
  {
    var middle := |sorted| / 2;
    if |sorted| % 2 == 0 then (sorted[middle - 1] + sorted[middle]) / 2.0 else sorted[middle]
  }

  function SquaredDeviations(values: seq<real>, mean: real): real {
    if values == [] then 0.0
    else
      var deviation := values[|values| - 1] - mean;
      SquaredDeviations(values[..|values| - 1], mean) + deviation * deviation
  }

  function Variance(values: seq<real>, mean: real): real
    requires values != []
  {
    if |values| == 1 then 0.0 else SquaredDeviations(values, mean) / (|values| - 1) as real
  }

  /** `calculateObservedStatistics`, for at least one finite sample. */
  function Observe(values: seq<real>): ObservedStatistics
    requires values != []
  {
    var sorted := Sort(values, Ascending);
    ObservedStatistics(Mean(sorted), Median(sorted), sorted[0], sorted[|sorted| - 1], Variance(sorted, Mean(sorted)),
                       |sorted|)
  }

  lemma AscendingOrder(values: seq<real>)
    ensures TotalPreorder(Ascending) && TellsApart(values, Ascending)
  {
  }

  /** The statistics do not depend on the order of the samples. */
  lemma ObservePermutation(a: seq<real>, b: seq<real>)
    requires multiset(a) == multiset(b) && a != [] && b != []
    ensures Observe(a) == Observe(b)
  {
    AscendingOrder(a);
    SortOfPermutation(a, b, Ascending);
  }

  lemma {:induction false} SumBetween(values: seq<real>, low: real, high: real)
    requires forall i :: 0 <= i < |values| ==> low <= values[i] <= high
    ensures |values| as real * low <= SumBy(values, Itself) <= |values| as real * high
  {
    if values != [] {
      SumBetween(values[..|values| - 1], low, high);
      Distributes(|values| - 1, low);
      Distributes(|values| - 1, high);
    }
  }

  lemma Distributes(n: nat, x: real)
    ensures (n + 1) as real * x == n as real * x + x
  {
  }

  lemma QuotientBetween(sum: real, n: real, low: real, high: real)
    requires n > 0.0 && n * low <= sum <= n * high
    ensures low <= sum / n <= high
  {
  }

  lemma SortedSamples(values: seq<real>) returns (sorted: seq<real>)
    requires values != []
    ensures sorted == Sort(values, Ascending) && Sorted(sorted, Ascending) && multiset(sorted) == multiset(values)
    ensures forall i :: 0 <= i < |sorted| ==> sorted[0] <= sorted[i] <= sorted[|sorted| - 1]
  {
    sorted := Sort(values, Ascending);
    AscendingOrder(values);
    SortCorrect(values, Ascending);
    var n := |sorted|;
    forall i | 0 <= i < n ensures sorted[0] <= sorted[i] <= sorted[n - 1] {
      assert i == 0 || Ascending(sorted[0], sorted[i]);
      assert i == n - 1 || Ascending(sorted[i], sorted[n - 1]);
    }
  }

  lemma MeanBetween(values: seq<real>, low: real, high: real)
    requires values != [] && forall i :: 0 <= i < |values| ==> low <= values[i] <= high
    ensures low <= Mean(values) <= high
  {
    SumBetween(values, low, high);
    QuotientBetween(SumBy(values, Itself), |values| as real, low, high);
  }

  lemma MedianBetween(sorted: seq<real>, low: real, high: real)
    requires sorted != [] && forall i :: 0 <= i < |sorted| ==> low <= sorted[i] <= high
    ensures low <= Median(sorted) <= high
  {
  }

  /** Mean, median and every sample lie between the least and the greatest sample. */
  lemma ObservedBounds(values: seq<real>)
    requires values != []
    ensures Observe(values).min <= Observe(values).mean <= Observe(values).max
    ensures Observe(values).min <= Observe(values).median <= Observe(values).max
    ensures forall v :: v in values ==> Observe(values).min <= v <= Observe(values).max
  {
    var sorted := SortedSamples(values);
    MeanBetween(sorted, sorted[0], sorted[|sorted| - 1]);
    MedianBetween(sorted, sorted[0], sorted[|sorted| - 1]);
    forall v | v in values ensures sorted[0] <= v <= sorted[|sorted| - 1] {
      SameMembers(sorted, values, v);
    }
  }

  // ----- percentiles

  /** `Math.ceil(percentile * n)`, at least one. */
  function RankOf(percentile: real, n: nat): (k: nat)
    requires 0.0 < percentile <= 1.0 && n > 0
    ensures 1 <= k <= n && k as real - 1.0 < percentile * n as real <= k as real
  {
    assert 0.0 < percentile * n as real <= 1.0 * n as real;
    Ceiling(percentile * n as real)
  }

  /** `calculateNearestRankPercentile`; `None` where it throws. */
  function NearestRank(values: seq<real>, percentile: real): (r: Option<real>)
    ensures r.None? <==> values == [] || percentile <= 0.0 || percentile > 1.0
  {
    if values == [] || percentile <= 0.0 || percentile > 1.0 then None
    else
      var index := RankOf(percentile, |values|) - 1;
      Some(Sort(values, Ascending)[if index < 0 then 0 else index])
  }

  function AtMost(values: seq<real>, bound: real): seq<real> {
    Matching(values, (v: real) => v <= bound)
  }

  lemma {:induction false} PrefixAtMost(sorted: seq<real>, k: nat, bound: real)
    requires k <= |sorted| && Sorted(sorted, Ascending) && (k > 0 ==> sorted[k - 1] <= bound)
    requires (k < |sorted| ==> bound < sorted[k])
    ensures |AtMost(sorted, bound)| == k
  {
    if sorted != [] {
      var n := |sorted| - 1;
      if k == |sorted| {
        assert n > 0 ==> Ascending(sorted[n - 1], sorted[n]);
        PrefixAtMost(sorted[..n], k - 1, bound);
      } else {
        assert k < n ==> Ascending(sorted[k], sorted[n]);
        PrefixAtMost(sorted[..n], k, bound);
      }
    }
  }

  lemma {:induction false} AtLeastPrefix(sorted: seq<real>, k: nat)
    requires 0 < k <= |sorted| && Sorted(sorted, Ascending)
    ensures |AtMost(sorted, sorted[k - 1])| >= k
    decreases |sorted|
  {
    var n := |sorted| - 1;
    if k == |sorted| {
      PrefixAtMost(sorted, k, sorted[k - 1]);
    } else {
      AtLeastPrefix(sorted[..n], k);
    }
  }

  lemma {:induction false} FewBelow(sorted: seq<real>, k: nat, v: real)
    requires k < |sorted| && Sorted(sorted, Ascending) && v < sorted[k]
    ensures |AtMost(sorted, v)| <= k
    decreases |sorted|
  {
    var n := |sorted| - 1;
    if k < n {
      assert Ascending(sorted[k], sorted[n]);
      FewBelow(sorted[..n], k, v);
    } else {
      MatchingAll(sorted[..n], (x: real) => x <= v);
    }
  }

  lemma SameCount(a: seq<real>, b: seq<real>, bound: real)
    requires multiset(a) == multiset(b)
    ensures |AtMost(a, bound)| == |AtMost(b, bound)|
  {
    MatchingPermutation(a, b, (v: real) => v <= bound);
    SameSize(AtMost(a, bound), AtMost(b, bound));
  }

  /**
   * The sample of rank `k` is the least one that at least `target` samples do not exceed, for a target rounded up to
   * `k`.
   */
  lemma RankIsLeast(values: seq<real>, k: nat, target: real, v: real)
    requires 0 < k <= |values| && k as real - 1.0 < target <= k as real
    ensures Sort(values, Ascending)[k - 1] in values
    ensures |AtMost(values, Sort(values, Ascending)[k - 1])| as real >= target
    ensures v < Sort(values, Ascending)[k - 1] ==> (|AtMost(values, v)| as real) < target
  {
    var sorted := SortedSamples(values);
    var p := sorted[k - 1];
    SameMembers(sorted, values, p);
    AtLeastPrefix(sorted, k);
    SameCount(sorted, values, p);
    if v < p {
      FewBelow(sorted, k - 1, v);
      SameCount(sorted, values, v);
    }
  }

  /** The percentile is the least sample that at least that share of the samples does not exceed. */
  lemma NearestRankIsLeast(values: seq<real>, percentile: real, v: real)
    requires NearestRank(values, percentile).Some?
    ensures NearestRank(values, percentile).value in values
    ensures |AtMost(values, NearestRank(values, percentile).value)| as real >= percentile * |values| as real
    ensures v < NearestRank(values, percentile).value ==> (|AtMost(values, v)| as real) < percentile * |values| as real
  {
    RankIsLeast(values, RankOf(percentile, |values|), percentile * |values| as real, v);
  }
}
