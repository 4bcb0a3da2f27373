/** What a snapshot says, said of its sample: order statistics, numbers of samples, and nothing computed on the way. */
module SummaryMeaning {
  import opened Common
  import opened Sorting
  import opened Percentiles
  import opened Histograms
  import opened Summaries

  ghost predicate SortedForm(s: seq<real>, values: seq<real>) {
    multiset(s) == multiset(values) && forall i, j :: 0 <= i < j < |s| ==> s[i] <= s[j]
  }

  /** `q` is the value at a position of the sorted sample: the sample there, or between two the sum of both, each weighted
      by how near it is. */
  ghost predicate AtPosition(q: Option<real>, s: seq<real>, pos: real) {
    var lower := pos.Floor;
    if pos == lower as real then 0 <= lower < |s| && q == Some(s[lower])
    else 0 <= lower < |s| - 1 && q == Some(s[lower] * ((lower + 1) as real - pos) + s[lower + 1] * (pos - lower as real))
  }

  /** A fraction `p` of the way through the sorted sample. */
  ghost predicate AtFraction(q: Option<real>, s: seq<real>, p: real) {
    AtPosition(q, s, p * (|s| - 1) as real)
  }

  ghost predicate QuantilesSay(q: Quantiles, s: seq<real>) {
    && AtFraction(q.p01, s, 0.01) && AtFraction(q.p05, s, 0.05) && AtFraction(q.p10, s, 0.10)
    && AtFraction(q.p25, s, 0.25) && AtFraction(q.p50, s, 0.50) && AtFraction(q.p75, s, 0.75)
    && AtFraction(q.p90, s, 0.90) && AtFraction(q.p95, s, 0.95) && AtFraction(q.p99, s, 0.99)
  }

  ghost predicate Extremes(d: Snapshot, s: seq<real>) {
    s != [] && d.min == Some(s[0]) && d.max == Some(s[|s| - 1])
  }

  /** Bin `k` of 32 equal ones over [lo, hi] counts the samples from its lower edge up to, but for the last bin not
      including, its upper edge. */
  ghost predicate BinSays(bin: Bin, values: seq<real>, lo: real, hi: real, k: int) {
    && bin.lower == lo + (hi - lo) * k as real / 32.0
    && bin.upper == lo + (hi - lo) * (k + 1) as real / 32.0
    && bin.count == |set i | 0 <= i < |values| && bin.lower <= values[i]
                             && (values[i] < bin.upper || (k == 31 && values[i] == hi))|
  }

  /** With distinct bounds there are 32 bins and the samples outside are counted; with equal ones a single bin counts all. */
  ghost predicate CountsSay(h: Histogram, o: Outliers, values: seq<real>, lo: real, hi: real) {
    if lo == hi then
      && h.binCount == 1 && h.bins == [Bin(lo, hi, |values|)]
      && o.lowerCount == 0 && o.upperCount == 0
    else
      && h.binCount == 32 && |h.bins| == 32
      && (forall k :: 0 <= k < 32 ==> BinSays(h.bins[k], values, lo, hi, k))
      && o.lowerCount == |set i | 0 <= i < |values| && values[i] < lo|
      && o.upperCount == |set i | 0 <= i < |values| && values[i] > hi|
  }

  /** The bounds of the histogram and the thresholds for outliers are the first and the last of the nine quantiles. */
  ghost predicate SnapshotSays(d: Snapshot, values: seq<real>) {
    && d.sampleCount == |values|
    && d.histogram.lowerBound == d.outliers.lowerThreshold == d.quantiles.p01
    && d.histogram.upperBound == d.outliers.upperThreshold == d.quantiles.p99
    && if values == [] then
         && d.min == None && d.max == None
         && d.quantiles == Quantiles(None, None, None, None, None, None, None, None, None)
         && d.histogram.binCount == 0 && d.histogram.bins == []
         && d.outliers.lowerCount == 0 && d.outliers.upperCount == 0
       else
         && (exists s :: SortedForm(s, values) && Extremes(d, s) && QuantilesSay(d.quantiles, s))
         && d.quantiles.p01.Some? && d.quantiles.p99.Some?
         && CountsSay(d.histogram, d.outliers, values, d.quantiles.p01.value, d.quantiles.p99.value)
  }

  lemma ValueAtPosition(s: seq<real>, pos: real)
    requires 0.0 <= pos <= (|s| - 1) as real
    ensures AtPosition(Some(ValueAt(s, pos)), s, pos)
  {
    hide ValueAt, Ceil;
    CeilBounds(pos);
    TwoWeightForm(s, pos);
    var lower := pos.Floor;
    if pos != lower as real {
      var upper := Ceil(pos);
      assert upper == lower + 1;
      assert 0 <= lower < |s| - 1;
      assert ValueAt(s, pos) == s[lower] * ((lower + 1) as real - pos) + s[lower + 1] * (pos - lower as real);
      assert AtPosition(Some(ValueAt(s, pos)), s, pos);
    }
  }

  lemma PercentileAtFraction(s: seq<real>, p: real)
    requires s != [] && 0.0 < p < 1.0
    ensures AtFraction(PercentileCont(s, p), s, p)
  {
    hide ValueAt, AtPosition;
    PositionInRange(p, |s|);
    ValueAtPosition(s, p * (|s| - 1) as real);
  }

  lemma QuantilesAtFractions(s: seq<real>)
    requires s != []
    ensures QuantilesSay(QuantilesOf(s), s)
  {
    hide AtFraction, PercentileCont;
    PercentileAtFraction(s, 0.01);
    PercentileAtFraction(s, 0.05);
    PercentileAtFraction(s, 0.10);
    PercentileAtFraction(s, 0.25);
    PercentileAtFraction(s, 0.50);
    PercentileAtFraction(s, 0.75);
    PercentileAtFraction(s, 0.90);
    PercentileAtFraction(s, 0.95);
    PercentileAtFraction(s, 0.99);
  }

  ghost function Inside(xs: seq<real>, iv: Interval): set<int> {
    set i | 0 <= i < |xs| && Contains(iv, xs[i])
  }

  /** Counting one by one is counting. */
  lemma {:induction false} CountInIsSize(xs: seq<real>, iv: Interval)
    ensures CountIn(xs, iv) == |Inside(xs, iv)|
  {
    hide Contains;
    if xs != [] {
      var n := |xs| - 1;
      CountInIsSize(xs[..n], iv);
      assert Inside(xs, iv) == Inside(xs[..n], iv) + if Contains(iv, xs[n]) then {n} else {};
    }
  }

  lemma EdgesOfBin(lo: real, hi: real, k: int)
    ensures BinLower(lo, hi, k) == lo + (hi - lo) * k as real / 32.0
    ensures BinUpper(lo, hi, k) == lo + (hi - lo) * (k + 1) as real / 32.0
  {
    var w, x := hi - lo, k as real;
    assert (k + 1) as real == x + 1.0;
    assert w * (x + 1.0) == w * x + w;
    if k == BIN_COUNT - 1 {
      assert w * 32.0 / 32.0 == w;
    }
  }

  lemma BinsSay(values: seq<real>, lo: real, hi: real, k: int)
    requires 0 <= k < 32
    ensures BinSays(BinsOf(values, lo, hi)[k], values, lo, hi, k)
  {
    hide CountIn;
    var bin, iv := BinsOf(values, lo, hi)[k], BinInterval(lo, hi, k);
    CountInIsSize(values, iv);
    EdgesOfBin(lo, hi, k);
    hide BinLower, BinUpper;
    assert Inside(values, iv) == set i | 0 <= i < |values| && bin.lower <= values[i]
                                         && (values[i] < bin.upper || (k == 31 && values[i] == hi)) by {
      assert k == 31 ==> bin.upper == hi;
    }
  }

  lemma TailsSay(values: seq<real>, lo: real, hi: real)
    ensures CountIn(values, Below(lo)) == |set i | 0 <= i < |values| && values[i] < lo|
    ensures CountIn(values, Above(hi)) == |set i | 0 <= i < |values| && values[i] > hi|
  {
    CountInIsSize(values, Below(lo));
    CountInIsSize(values, Above(hi));
    assert Inside(values, Below(lo)) == set i | 0 <= i < |values| && values[i] < lo;
    assert Inside(values, Above(hi)) == set i | 0 <= i < |values| && values[i] > hi;
  }

  lemma NoQuantiles()
    ensures QuantilesOf([]) == Quantiles(None, None, None, None, None, None, None, None, None)
  {
  }

  /** A summary says all this of its sample. */
  lemma SummarySays(values: seq<real>)
    ensures SnapshotSays(Summary(values), values)
  {
    hide PercentileCont, BinsOf, CountIn, QuantilesSay, QuantilesOf, CountsSay, Sort;
    if values == [] {
      NoQuantiles();
    } else {
      var s := Sort(values);
      SortSorted(values);
      QuantilesAtFractions(s);
      assert SortedForm(s, values) && Extremes(Summary(values), s);
      BoundsDefined(s);
      CountsOfSummary(values, P01(values), P99(values));
    }
  }

  lemma BoundsDefined(s: seq<real>)
    requires s != []
    ensures QuantilesOf(s).p01 == PercentileCont(s, 0.01) && QuantilesOf(s).p01.Some?
    ensures QuantilesOf(s).p99 == PercentileCont(s, 0.99) && QuantilesOf(s).p99.Some?
  {
  }

  lemma CountsOfSummary(values: seq<real>, lo: real, hi: real)
    requires values != [] && lo == P01(values) && hi == P99(values)
    ensures CountsSay(Summary(values).histogram, Summary(values).outliers, values, lo, hi)
  {
    hide PercentileCont, CountIn, BinSays, Sort, P01, P99, QuantilesOf, BinsOf;
    TailsSay(values, lo, hi);
    forall k | 0 <= k < 32 ensures BinSays(BinsOf(values, lo, hi)[k], values, lo, hi, k) {
      BinsSay(values, lo, hi, k);
    }
  }
}
