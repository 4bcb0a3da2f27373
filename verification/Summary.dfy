/** The distribution summary of one metric: quantiles, outlier counts and histogram of a sample. */
module Summaries {
  import opened Common
  import opened Sorting
  import opened Percentiles
  import opened Histograms

  const OUTLIER_LOWER: real := 0.01
  const OUTLIER_UPPER: real := 0.99

  datatype Quantiles = Quantiles(
    p01: Option<real>, p05: Option<real>, p10: Option<real>, p25: Option<real>, p50: Option<real>,
    p75: Option<real>, p90: Option<real>, p95: Option<real>, p99: Option<real>)

  datatype Bin = Bin(lower: real, upper: real, count: nat)

  datatype Histogram = Histogram(
    lowerBound: Option<real>, upperBound: Option<real>, binCount: nat, bins: seq<Bin>)

  datatype Outliers = Outliers(
    lowerThreshold: Option<real>, upperThreshold: Option<real>, lowerCount: nat, upperCount: nat)

  /** The fields of a snapshot that never vary (version, outlier method, outlier percentiles) are left out. */
  datatype Snapshot = Snapshot(
    sampleCount: nat, min: Option<real>, max: Option<real>,
    quantiles: Quantiles, histogram: Histogram, outliers: Outliers)

  function QuantilesOf(s: seq<real>): Quantiles {
    Quantiles(
      PercentileCont(s, OUTLIER_LOWER), PercentileCont(s, 0.05), PercentileCont(s, 0.10),
      PercentileCont(s, 0.25), PercentileCont(s, 0.50), PercentileCont(s, 0.75),
      PercentileCont(s, 0.90), PercentileCont(s, 0.95), PercentileCont(s, OUTLIER_UPPER))
  }

  function P01(values: seq<real>): real
    requires values != []
  {
    PercentileCont(Sort(values), OUTLIER_LOWER).value
  }

  function P99(values: seq<real>): real
    requires values != []
  {
    PercentileCont(Sort(values), OUTLIER_UPPER).value
  }

  /** The bins, each with the number of samples that lie in its interval. */
  function BinsOf(values: seq<real>, lo: real, hi: real): (bins: seq<Bin>)
    ensures |bins| == BIN_COUNT
  {
    seq(BIN_COUNT, k requires 0 <= k < BIN_COUNT =>
      Bin(BinLower(lo, hi, k), BinUpper(lo, hi, k), CountIn(values, BinInterval(lo, hi, k))))
  }

  /** What a summary says of its sample. Nothing here refers to the order of the values or to bin indices. */
  function Summary(values: seq<real>): Snapshot {
    var s := Sort(values);
    var q := QuantilesOf(s);
    if values == [] then
      Snapshot(0, None, None, q, Histogram(None, None, 0, []), Outliers(None, None, 0, 0))
    else
      var lo, hi := P01(values), P99(values);
      Assemble(|values|, s[0], s[|s| - 1], q, lo, hi, BinsOf(values, lo, hi),
               CountIn(values, Below(lo)), CountIn(values, Above(hi)))
  }

  /** With equal bounds, one bin holds every sample and no outliers are counted. */
  function Assemble(n: nat, min: real, max: real, q: Quantiles, lo: real, hi: real, bins: seq<Bin>,
                    below: nat, above: nat): Snapshot
  {
    if lo == hi then
      Snapshot(n, Some(min), Some(max), q,
               Histogram(q.p01, q.p99, 1, [Bin(lo, hi, n)]), Outliers(q.p01, q.p99, 0, 0))
    else
      Snapshot(n, Some(min), Some(max), q,
               Histogram(q.p01, q.p99, BIN_COUNT, bins), Outliers(q.p01, q.p99, below, above))
  }

  lemma BoundsOrdered(values: seq<real>)
    requires values != []
    ensures P01(values) <= P99(values)
  {
    SortSorted(values);
    PercentileMonotone(Sort(values), OUTLIER_LOWER, OUTLIER_UPPER);
  }

  // ---- building it ----

  /** Empty bins with their edges. */
  method MakeBins(lo: real, hi: real) returns (bins: array<Bin>)
    ensures fresh(bins) && bins.Length == BIN_COUNT
    ensures forall k :: 0 <= k < BIN_COUNT ==> bins[k] == Bin(BinLower(lo, hi, k), BinUpper(lo, hi, k), 0)
  {
    var width := (hi - lo) / BIN_COUNT as real;
    bins := new Bin[BIN_COUNT](_ => Bin(0.0, 0.0, 0));
    for i := 0 to bins.Length
      invariant forall k :: 0 <= k < i ==> bins[k] == Bin(BinLower(lo, hi, k), BinUpper(lo, hi, k), 0)
    {
      var lower := lo + width * i as real;
      var upper := lower + width;
      if i == bins.Length - 1 {
        upper := hi;
      }
      bins[i] := Bin(lower, upper, 0);
    }
  }

  /** The counting pass over the sorted values, which increments one counter for each value. */
  method CountValues(s: seq<real>, lo: real, hi: real, bins: array<Bin>) returns (lowerCount: nat, upperCount: nat)
    requires lo < hi && bins.Length == BIN_COUNT
    requires forall k :: 0 <= k < BIN_COUNT ==> bins[k] == Bin(BinLower(lo, hi, k), BinUpper(lo, hi, k), 0)
    modifies bins
    ensures lowerCount == CountIn(s, Below(lo)) && upperCount == CountIn(s, Above(hi))
    ensures bins[..] == BinsOf(s, lo, hi)
  {
    hide BinLower, BinUpper, BinInterval;
    lowerCount, upperCount := 0, 0;
    var width := (hi - lo) / BIN_COUNT as real;
    for i := 0 to |s|
      invariant lowerCount == CountIn(s[..i], Below(lo)) && upperCount == CountIn(s[..i], Above(hi))
      invariant forall k :: 0 <= k < BIN_COUNT ==>
        bins[k] == Bin(BinLower(lo, hi, k), BinUpper(lo, hi, k), CountIn(s[..i], BinInterval(lo, hi, k)))
    {
      var value := s[i];
      OneMore(s, i, lo, hi);
      if value < lo {
        lowerCount := lowerCount + 1;
      } else if value > hi {
        upperCount := upperCount + 1;
      } else {
        var index := bins.Length - 1;
        if value < hi {
          index := ((value - lo) / width).Floor;
          if index < 0 {
            index := 0;
          }
          if index >= bins.Length {
            index := bins.Length - 1;
          }
        }
        assert index == BinIndex(lo, hi, value) by {
          IndexUnclamped(lo, hi, value);
        }
        bins[index] := bins[index].(count := bins[index].count + 1);
      }
    }
    assert s[..|s|] == s;
  }

  lemma IndexUnclamped(lo: real, hi: real, v: real)
    requires lo < hi && lo <= v <= hi
    ensures v < hi ==> BinIndex(lo, hi, v) == RawIndex(lo, hi, v)
  {
  }

  /** How one more value changes every counter. */
  lemma OneMore(s: seq<real>, i: nat, lo: real, hi: real)
    requires i < |s| && lo < hi
    ensures CountIn(s[..i + 1], Below(lo)) == CountIn(s[..i], Below(lo)) + if s[i] < lo then 1 else 0
    ensures CountIn(s[..i + 1], Above(hi)) == CountIn(s[..i], Above(hi)) + if s[i] > hi then 1 else 0
    ensures forall k :: 0 <= k < BIN_COUNT ==>
              CountIn(s[..i + 1], BinInterval(lo, hi, k)) == CountIn(s[..i], BinInterval(lo, hi, k))
                + if lo <= s[i] <= hi && k == BinIndex(lo, hi, s[i]) then 1 else 0
  {
    hide BinInterval, BinIndex;
    CountInPrefix(s, i, Below(lo));
    CountInPrefix(s, i, Above(hi));
    forall k | 0 <= k < BIN_COUNT
      ensures CountIn(s[..i + 1], BinInterval(lo, hi, k)) == CountIn(s[..i], BinInterval(lo, hi, k))
                + if lo <= s[i] <= hi && k == BinIndex(lo, hi, s[i]) then 1 else 0
    {
      CountInPrefix(s, i, BinInterval(lo, hi, k));
      ExactlyOneBin(lo, hi, s[i], k);
    }
  }

  lemma BinsOfSorted(values: seq<real>, lo: real, hi: real)
    ensures BinsOf(Sort(values), lo, hi) == BinsOf(values, lo, hi)
  {
    forall k | 0 <= k < BIN_COUNT
      ensures CountIn(Sort(values), BinInterval(lo, hi, k)) == CountIn(values, BinInterval(lo, hi, k))
    {
      CountInSort(values, BinInterval(lo, hi, k));
    }
  }

  /** `buildMetricSummary` of the first `length` entries of a buffer, which it does not change. */
  method BuildMetricSummary(buffer: array<real>, length: nat) returns (distribution: Snapshot)
    requires length <= buffer.Length
    ensures distribution == Summary(buffer[..length])
    ensures buffer[..] == old(buffer[..])
  {
    hide PercentileCont, BinsOf, CountIn;
    ghost var values := buffer[..length];
    var sortedValues := Sort(buffer[..length]);
    var quantiles := QuantilesOf(sortedValues);
    if |sortedValues| == 0 {
      return Snapshot(0, None, None, quantiles, Histogram(None, None, 0, []), Outliers(None, None, 0, 0));
    }
    BoundsOrdered(values);
    PercentileDefined(sortedValues, OUTLIER_LOWER);
    PercentileDefined(sortedValues, OUTLIER_UPPER);
    var lo, hi := quantiles.p01.value, quantiles.p99.value;
    var min, max := Some(sortedValues[0]), Some(sortedValues[|sortedValues| - 1]);
    if lo == hi {
      return Snapshot(
        |sortedValues|, min, max, quantiles,
        Histogram(quantiles.p01, quantiles.p99, 1, [Bin(lo, hi, |sortedValues|)]),
        Outliers(quantiles.p01, quantiles.p99, 0, 0));
    }
    var bins := MakeBins(lo, hi);
    var lowerCount, upperCount := CountValues(sortedValues, lo, hi, bins);
    CountInSort(values, Below(lo));
    CountInSort(values, Above(hi));
    BinsOfSorted(values, lo, hi);
    return Snapshot(
      |sortedValues|, min, max, quantiles,
      Histogram(quantiles.p01, quantiles.p99, bins.Length, bins[..]),
      Outliers(quantiles.p01, quantiles.p99, lowerCount, upperCount));
  }

  lemma PercentileDefined(s: seq<real>, p: real)
    requires s != []
    ensures PercentileCont(s, p).Some?
  {
  }

  // ---- what a summary promises ----

  /** A summary depends only on which values there are, not on their order. */
  lemma SummaryIgnoresOrder(xs: seq<real>, ys: seq<real>)
    requires multiset(xs) == multiset(ys)
    ensures Summary(xs) == Summary(ys)
  {
    hide PercentileCont, BinsOf, CountIn;
    SortSorted(ys);
    SortIsTheSort(xs, Sort(ys));
    if xs != [] {
      var lo, hi := P01(xs), P99(xs);
      CountInSort(xs, Below(lo));
      CountInSort(ys, Below(lo));
      CountInSort(xs, Above(hi));
      CountInSort(ys, Above(hi));
      BinsOfSorted(xs, lo, hi);
      BinsOfSorted(ys, lo, hi);
    }
  }

  function Counts(bins: seq<Bin>): (cs: seq<nat>)
    ensures |cs| == |bins|
  {
    seq(|bins|, k requires 0 <= k < |bins| => bins[k].count)
  }

  /** Every sample is counted exactly once, in the bins or as an outlier. */
  lemma SummaryConserves(values: seq<real>)
    ensures var d := Summary(values);
            d.outliers.lowerCount + d.outliers.upperCount + Sum(Counts(d.histogram.bins)) == d.sampleCount
  {
    hide PercentileCont, CountIn, Sort;
    if values != [] {
      BoundsOrdered(values);
      var lo, hi := P01(values), P99(values);
      if lo != hi {
        Conservation(values, lo, hi);
        assert Counts(BinsOf(values, lo, hi)) == BinCounts(values, lo, hi, BIN_COUNT);
      } else {
        var cs := Counts([Bin(lo, hi, |values|)]);
        assert cs == [|values|] && cs[..0] == [];
      }
    }
  }

  /** At most one sample in a hundred, rounded up, is an outlier on either side. */
  lemma FewOutliers(values: seq<real>)
    requires values != []
    ensures var d := Summary(values);
            && d.outliers.lowerCount <= Ceil((|values| - 1) as real / 100.0)
            && d.outliers.upperCount <= Ceil((|values| - 1) as real / 100.0)
  {
    hide PercentileCont, BinsOf, CountIn, ValueAt;
    var s, n := Sort(values), |values|;
    var lo, hi := P01(values), P99(values);
    BoundsOrdered(values);
    if lo != hi {
      var low, high := PositionOf(OUTLIER_LOWER, n), PositionOf(OUTLIER_UPPER, n);
      SortSorted(values);
      PercentileIsValueAt(s, OUTLIER_LOWER);
      PercentileIsValueAt(s, OUTLIER_UPPER);
      ValueBracketed(s, low);
      ValueBracketed(s, high);
      FewBelow(s, lo, Ceil(low));
      FewAbove(s, hi, high.Floor);
      CountInSort(values, Below(lo));
      CountInSort(values, Above(hi));
      TailPositions(n);
    }
  }

  lemma TailPositions(n: nat)
    requires n > 0
    ensures Ceil(PositionOf(OUTLIER_LOWER, n)) == Ceil((n - 1) as real / 100.0)
    ensures n - 1 - PositionOf(OUTLIER_UPPER, n).Floor == Ceil((n - 1) as real / 100.0)
  {
    var x := (n - 1) as real / 100.0;
    assert PositionOf(OUTLIER_LOWER, n) == x;
    assert PositionOf(OUTLIER_UPPER, n) == (n - 1) as real - x;
    FloorOfDifference(n - 1, x);
  }

  lemma FloorOfDifference(m: int, x: real)
    ensures (m as real - x).Floor == m - Ceil(x)
  {
  }

  /** With distinct bounds the outlier counts are the numbers of samples strictly outside. With equal bounds
      they are zero, which is right exactly when no sample lies outside. */
  lemma OutlierCountsMeaning(values: seq<real>)
    requires values != []
    ensures var d, lo, hi := Summary(values), P01(values), P99(values);
            && (d.outliers.lowerCount == CountIn(values, Below(lo)) <==> lo < hi || lo <= Sort(values)[0])
            && (d.outliers.upperCount == CountIn(values, Above(hi)) <==> lo < hi || Sort(values)[|values| - 1] <= hi)
            && (lo == hi ==> d.histogram.bins == [Bin(lo, hi, |values|)])
  {
    hide PercentileCont, BinsOf;
    var s, lo, hi := Sort(values), P01(values), P99(values);
    BoundsOrdered(values);
    SortSorted(values);
    CountInSort(values, Below(lo));
    CountInSort(values, Above(hi));
    SomeBelow(s, lo);
    if s[|s| - 1] <= hi {
      NoneAbove(s, hi);
    }
  }

  lemma {:induction false} SomeBelow(s: seq<real>, x: real)
    requires Sorted(s) && s != []
    ensures CountIn(s, Below(x)) == 0 <==> x <= s[0]
  {
    if |s| > 1 {
      SomeBelow(s[..|s| - 1], x);
    } else {
      assert s[..0] == [];
    }
  }

  lemma TailIndices(n: nat)
    requires n > 0
    ensures PositionOf(OUTLIER_LOWER, n).Floor == (n - 1) / 100
    ensures Ceil(PositionOf(OUTLIER_UPPER, n)) == (99 * (n - 1) + 99) / 100
  {
    var m := n - 1;
    assert PositionOf(OUTLIER_LOWER, n) == m as real / 100.0;
    assert PositionOf(OUTLIER_UPPER, n) == (99 * m) as real / 100.0;
    FloorOfHundredth(m);
    FloorOfHundredth(-(99 * m));
    assert -PositionOf(OUTLIER_UPPER, n) == (-(99 * m)) as real / 100.0;
    CeilingOfHundredth(99 * m);
  }

  lemma FloorOfHundredth(k: int)
    ensures (k as real / 100.0).Floor == k / 100
  {
    var q := k / 100;
    assert q as real <= k as real / 100.0 < q as real + 1.0;
  }

  lemma CeilingOfHundredth(k: int)
    ensures -((-k) / 100) == (k + 99) / 100
  {
  }

  /** The bounds P01 and P99 of n samples meet exactly when the sorted sample is flat from index floor((n-1)/100) to index
      ceil(99(n-1)/100). */
  lemma BoundsMeet(values: seq<real>)
    requires values != []
    ensures var s, low, high := Sort(values), (|values| - 1) / 100, (99 * (|values| - 1) + 99) / 100;
            && low <= high < |s|
            && (P01(values) == P99(values) <==> s[low] == s[high])
            && (P01(values) == P99(values) ==> P01(values) == s[low])
  {
    hide PercentileCont, ValueAt;
    var s, n := Sort(values), |values|;
    var p, q := PositionOf(OUTLIER_LOWER, n), PositionOf(OUTLIER_UPPER, n);
    SortSorted(values);
    TailIndices(n);
    PercentileIsValueAt(s, OUTLIER_LOWER);
    PercentileIsValueAt(s, OUTLIER_UPPER);
    ValueBracketed(s, p);
    ValueBracketed(s, q);
    ValueMonotone(s, p, q);
    if p < q {
      ValueFlat(s, p, q);
    }
  }

  /** When an outlier count is wrong, said of the sample: it is flat between those two indices, and reaches below, or above. */
  lemma OutliersMiscounted(values: seq<real>)
    requires values != []
    ensures var d, s, n := Summary(values), Sort(values), |values|;
            var low, high := (n - 1) / 100, (99 * (n - 1) + 99) / 100;
            && low <= high < n
            && (d.outliers.lowerCount != CountIn(values, Below(P01(values))) <==> s[low] == s[high] && s[0] < s[low])
            && (d.outliers.upperCount != CountIn(values, Above(P99(values))) <==> s[low] == s[high] && s[high] < s[n - 1])
  {
    hide PercentileCont, Summary, CountIn, P01, P99;
    BoundsOrdered(values);
    BoundsMeet(values);
    OutlierCountsMeaning(values);
  }

  function Mostly(x: real, n: nat): (s: seq<real>)
    ensures |s| == n && forall i :: 0 <= i < n ==> s[i] == x
  {
    seq(n, _ => x)
  }

  /** One zero and a hundred ones: both bounds are one, the zero lies below them, and no outlier is counted. */
  lemma MiscountedSample()
    ensures var values := [0.0] + Mostly(1.0, 100);
            && P01(values) == P99(values) == 1.0
            && CountIn(values, Below(P01(values))) == 1
            && Summary(values).outliers.lowerCount == 0
            && Summary(values).histogram.bins == [Bin(1.0, 1.0, 101)]
  {
    hide PercentileCont, CountIn;
    var ones := Mostly(1.0, 100);
    var values := [0.0] + ones;
    assert Sorted(values);
    SortIsTheSort(values, values);
    BoundsMeet(values);
    CountInCons(0.0, ones, Below(1.0));
    SomeBelow(ones, 1.0);
    OutlierCountsMeaning(values);
  }

  /** Each bin's count is the number of samples in its interval, and the 32 intervals tile [P01, P99]. */
  lemma BinsTileTheRange(values: seq<real>, v: real)
    requires values != [] && P01(values) < P99(values)
    ensures var lo, hi, bins := P01(values), P99(values), Summary(values).histogram.bins;
            && |bins| == BIN_COUNT && bins[0].lower == lo && bins[BIN_COUNT - 1].upper == hi
            && (forall k :: 0 <= k < BIN_COUNT - 1 ==> bins[k].upper == bins[k + 1].lower)
            && (forall k :: 0 <= k < BIN_COUNT - 1 ==>
                  bins[k].count == CountIn(values, HalfOpen(bins[k].lower, bins[k].upper)))
            && bins[BIN_COUNT - 1].count == CountIn(values, Closed(bins[BIN_COUNT - 1].lower, hi))
            && (lo <= v <= hi <==> exists k :: 0 <= k < BIN_COUNT && Contains(BinInterval(lo, hi, k), v))
  {
    hide PercentileCont, CountIn, Sort, P01, P99, Contains, BinLower, BinIndex;
    var lo, hi := P01(values), P99(values);
    forall k | 0 <= k < BIN_COUNT
      ensures lo == BinLower(lo, hi, 0)
      ensures k + 1 < BIN_COUNT ==> BinUpper(lo, hi, k) == BinLower(lo, hi, k + 1)
      ensures Contains(BinInterval(lo, hi, k), v) ==> lo <= v <= hi
    {
      BinsAbut(lo, hi, k);
      ExactlyOneBin(lo, hi, v, k);
    }
    if lo <= v <= hi {
      ExactlyOneBin(lo, hi, v, BinIndex(lo, hi, v));
    }
  }

  lemma SummaryOrderStatistics(values: seq<real>)
    ensures Summary(values).quantiles == QuantilesOf(Sort(values))
    ensures values != [] ==> Summary(values).min == Some(Sort(values)[0])
    ensures values != [] ==> Summary(values).max == Some(Sort(values)[|values| - 1])
  {
    hide QuantilesOf, BinsOf, CountIn, Sort, P01, P99;
  }

  /** Min ≤ P01 ≤ P05 ≤ ... ≤ P99 ≤ Max. */
  lemma QuantilesOrdered(values: seq<real>)
    requires values != []
    ensures var d := Summary(values); var q := d.quantiles;
            && q.p01.Some? && q.p05.Some? && q.p10.Some? && q.p25.Some? && q.p50.Some?
            && q.p75.Some? && q.p90.Some? && q.p95.Some? && q.p99.Some?
            && d.min.value <= q.p01.value <= q.p05.value <= q.p10.value <= q.p25.value <= q.p50.value
            && q.p50.value <= q.p75.value <= q.p90.value <= q.p95.value <= q.p99.value <= d.max.value
  {
    var s := Sort(values);
    SortSorted(values);
    PercentileInRange(s, OUTLIER_LOWER);
    PercentileInRange(s, OUTLIER_UPPER);
    PercentileMonotone(s, OUTLIER_LOWER, 0.05);
    PercentileMonotone(s, 0.05, 0.10);
    PercentileMonotone(s, 0.10, 0.25);
    PercentileMonotone(s, 0.25, 0.50);
    PercentileMonotone(s, 0.50, 0.75);
    PercentileMonotone(s, 0.75, 0.90);
    PercentileMonotone(s, 0.90, 0.95);
    PercentileMonotone(s, 0.95, OUTLIER_UPPER);
    forall p: real ensures PercentileCont(s, p).Some? {
      PercentileDefined(s, p);
    }
    SummaryOrderStatistics(values);
    hide PercentileCont, Summary, Sort;
  }

  ghost predicate NotAbove(a: Option<real>, b: Option<real>) {
    a.Some? && b.Some? && a.value <= b.value
  }

  /** Raising any samples lowers none of the nine quantiles. */
  lemma QuantilesMonotone(xs: seq<real>, ys: seq<real>)
    requires AtMost(xs, ys) && xs != []
    ensures var q, r := Summary(xs).quantiles, Summary(ys).quantiles;
            && NotAbove(q.p01, r.p01) && NotAbove(q.p05, r.p05) && NotAbove(q.p10, r.p10)
            && NotAbove(q.p25, r.p25) && NotAbove(q.p50, r.p50) && NotAbove(q.p75, r.p75)
            && NotAbove(q.p90, r.p90) && NotAbove(q.p95, r.p95) && NotAbove(q.p99, r.p99)
  {
    forall p: real
      ensures NotAbove(PercentileCont(Sort(xs), p), PercentileCont(Sort(ys), p))
    {
      PercentileMonotoneInSample(xs, ys, p);
      PercentileDefined(Sort(xs), p);
      PercentileDefined(Sort(ys), p);
    }
    SummaryOrderStatistics(xs);
    SummaryOrderStatistics(ys);
    hide NotAbove, PercentileCont, Summary, Sort;
  }

  // ---- changing the unit ----

  function AffineOption(a: real, b: real, x: Option<real>): Option<real> {
    match x
    case None => None
    case Some(v) => Some(Affine(a, b, v))
  }

  function AffineBins(a: real, b: real, bins: seq<Bin>): (r: seq<Bin>)
    ensures |r| == |bins|
  {
    seq(|bins|, k requires 0 <= k < |bins| =>
      Bin(Affine(a, b, bins[k].lower), Affine(a, b, bins[k].upper), bins[k].count))
  }

  function AffineInterval(a: real, b: real, iv: Interval): Interval {
    match iv
    case Below(x) => Below(Affine(a, b, x))
    case Above(x) => Above(Affine(a, b, x))
    case HalfOpen(lo, hi) => HalfOpen(Affine(a, b, lo), Affine(a, b, hi))
    case Closed(lo, hi) => Closed(Affine(a, b, lo), Affine(a, b, hi))
  }

  function AffineQuantiles(a: real, b: real, q: Quantiles): Quantiles {
    Quantiles(
      AffineOption(a, b, q.p01), AffineOption(a, b, q.p05), AffineOption(a, b, q.p10),
      AffineOption(a, b, q.p25), AffineOption(a, b, q.p50), AffineOption(a, b, q.p75),
      AffineOption(a, b, q.p90), AffineOption(a, b, q.p95), AffineOption(a, b, q.p99))
  }

  /** Every value mapped, every count kept. */
  function AffineSnapshot(a: real, b: real, d: Snapshot): Snapshot {
    Snapshot(
      d.sampleCount, AffineOption(a, b, d.min), AffineOption(a, b, d.max), AffineQuantiles(a, b, d.quantiles),
      Histogram(
        AffineOption(a, b, d.histogram.lowerBound), AffineOption(a, b, d.histogram.upperBound),
        d.histogram.binCount, AffineBins(a, b, d.histogram.bins)),
      Outliers(
        AffineOption(a, b, d.outliers.lowerThreshold), AffineOption(a, b, d.outliers.upperThreshold),
        d.outliers.lowerCount, d.outliers.upperCount))
  }

  lemma AffineContains(a: real, b: real, iv: Interval, v: real)
    requires a > 0.0
    ensures Contains(AffineInterval(a, b, iv), Affine(a, b, v)) <==> Contains(iv, v)
  {
    hide Affine;
    match iv
    case Below(x) => AffineOrder(a, b, x, v);
    case Above(x) => AffineOrder(a, b, v, x);
    case HalfOpen(lo, hi) => AffineOrder(a, b, lo, v); AffineOrder(a, b, hi, v);
    case Closed(lo, hi) => AffineOrder(a, b, lo, v); AffineOrder(a, b, v, hi);
  }

  lemma {:induction false} CountInAffine(a: real, b: real, xs: seq<real>, iv: Interval)
    requires a > 0.0
    ensures CountIn(AffineAll(a, b, xs), AffineInterval(a, b, iv)) == CountIn(xs, iv)
  {
    hide Affine, Contains, AffineInterval;
    if xs != [] {
      var front := xs[..|xs| - 1];
      assert AffineAll(a, b, xs)[..|xs| - 1] == AffineAll(a, b, front);
      CountInAffine(a, b, front, iv);
      AffineContains(a, b, iv, xs[|xs| - 1]);
    }
  }

  lemma WidthAffine(a: real, b: real, lo: real, hi: real)
    ensures Width(Affine(a, b, lo), Affine(a, b, hi)) == a * Width(lo, hi)
  {
    assert (a * hi + b) - (a * lo + b) == a * (hi - lo);
  }

  lemma StepAffine(a: real, b: real, lo: real, w: real, k: real)
    ensures (a * lo + b) + (a * w) * k == a * (lo + w * k) + b
  {
    assert (a * w) * k == a * (w * k);
  }

  lemma BinEdgesAffine(a: real, b: real, lo: real, hi: real, k: int)
    ensures BinLower(Affine(a, b, lo), Affine(a, b, hi), k) == Affine(a, b, BinLower(lo, hi, k))
    ensures BinUpper(Affine(a, b, lo), Affine(a, b, hi), k) == Affine(a, b, BinUpper(lo, hi, k))
  {
    hide Width;
    var w, x := Width(lo, hi), k as real;
    WidthAffine(a, b, lo, hi);
    StepAffine(a, b, lo, w, x);
    StepAffine(a, b, BinLower(lo, hi, k), w, 1.0);
    assert BinLower(Affine(a, b, lo), Affine(a, b, hi), k) == (a * lo + b) + (a * w) * x;
    assert Affine(a, b, BinLower(lo, hi, k)) == a * (lo + w * x) + b;
    assert BinLower(lo, hi, k) + w == BinLower(lo, hi, k) + w * 1.0;
  }

  lemma BinsAffine(a: real, b: real, xs: seq<real>, lo: real, hi: real)
    requires a > 0.0
    ensures BinsOf(AffineAll(a, b, xs), Affine(a, b, lo), Affine(a, b, hi)) == AffineBins(a, b, BinsOf(xs, lo, hi))
  {
    hide Affine, BinLower, BinUpper, CountIn;
    forall k | 0 <= k < BIN_COUNT
      ensures BinsOf(AffineAll(a, b, xs), Affine(a, b, lo), Affine(a, b, hi))[k]
           == AffineBins(a, b, BinsOf(xs, lo, hi))[k]
    {
      BinEdgesAffine(a, b, lo, hi, k);
      CountInAffine(a, b, xs, BinInterval(lo, hi, k));
    }
  }

  lemma QuantilesAffine(a: real, b: real, s: seq<real>)
    ensures QuantilesOf(AffineAll(a, b, s)) == AffineQuantiles(a, b, QuantilesOf(s))
  {
    if s == [] {
      assert AffineAll(a, b, s) == [];
    } else {
      forall p: real
        ensures PercentileCont(AffineAll(a, b, s), p) == AffineOption(a, b, PercentileCont(s, p))
      {
        PercentileAffine(a, b, s, p);
      }
      hide PercentileCont, AffineOption, Affine;
    }
  }

  lemma AssembleAffine(a: real, b: real, n: nat, min: real, max: real, q: Quantiles, lo: real, hi: real,
                       bins: seq<Bin>, below: nat, above: nat)
    requires lo == hi <==> Affine(a, b, lo) == Affine(a, b, hi)
    ensures Assemble(n, Affine(a, b, min), Affine(a, b, max), AffineQuantiles(a, b, q),
                     Affine(a, b, lo), Affine(a, b, hi), AffineBins(a, b, bins), below, above)
         == AffineSnapshot(a, b, Assemble(n, min, max, q, lo, hi, bins, below, above))
  {
    hide Affine;
    SingleBinAffine(a, b, lo, hi, n);
  }

  lemma BoundsAffine(a: real, b: real, values: seq<real>)
    requires a > 0.0 && values != []
    ensures var mapped := AffineAll(a, b, values);
            && P01(mapped) == Affine(a, b, P01(values)) && P99(mapped) == Affine(a, b, P99(values))
            && Sort(mapped)[0] == Affine(a, b, Sort(values)[0])
            && Sort(mapped)[|values| - 1] == Affine(a, b, Sort(values)[|values| - 1])
  {
    hide PercentileCont, Affine, Sort;
    SortAffine(a, b, values);
    PercentileAffine(a, b, Sort(values), OUTLIER_LOWER);
    PercentileAffine(a, b, Sort(values), OUTLIER_UPPER);
    PercentileDefined(Sort(values), OUTLIER_LOWER);
    PercentileDefined(Sort(values), OUTLIER_UPPER);
  }

  /** Summarising in another unit (a positive factor and an offset) is the same summary in that unit. */
  lemma SummaryAffine(a: real, b: real, values: seq<real>)
    requires a > 0.0
    ensures Summary(AffineAll(a, b, values)) == AffineSnapshot(a, b, Summary(values))
  {
    hide PercentileCont, Affine, BinsOf, CountIn, Sort, AffineBins, P01, P99, AffineQuantiles, Assemble;
    var mapped := AffineAll(a, b, values);
    SortAffine(a, b, values);
    QuantilesAffine(a, b, Sort(values));
    if values != [] {
      var lo, hi := P01(values), P99(values);
      BoundsAffine(a, b, values);
      AffineOrder(a, b, lo, hi);
      CountInAffine(a, b, values, Below(lo));
      CountInAffine(a, b, values, Above(hi));
      BinsAffine(a, b, values, lo, hi);
      AssembleAffine(
        a, b, |values|, Sort(values)[0], Sort(values)[|values| - 1], QuantilesOf(Sort(values)), lo, hi,
        BinsOf(values, lo, hi), CountIn(values, Below(lo)), CountIn(values, Above(hi)));
    } else {
      assert mapped == [];
      NoBinsAffine(a, b);
    }
  }

  lemma SingleBinAffine(a: real, b: real, lo: real, hi: real, n: nat)
    ensures AffineBins(a, b, [Bin(lo, hi, n)]) == [Bin(Affine(a, b, lo), Affine(a, b, hi), n)]
  {
    hide Affine;
  }

  lemma NoBinsAffine(a: real, b: real)
    ensures AffineBins(a, b, []) == []
  {
  }
}
