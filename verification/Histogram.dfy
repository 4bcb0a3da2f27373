/** The clipped histogram: 32 bins of equal width over [P01, P99], in exact real arithmetic. */
module Histograms {
  import opened Common
  import opened Sorting
  import opened Percentiles

  const BIN_COUNT: nat := 32

  datatype Interval = Below(x: real) | Above(x: real) | HalfOpen(lo: real, hi: real) | Closed(lo: real, hi: real)

  predicate Contains(iv: Interval, v: real) {
    match iv
    case Below(x) => v < x
    case Above(x) => v > x
    case HalfOpen(lo, hi) => lo <= v < hi
    case Closed(lo, hi) => lo <= v <= hi
  }

  function Hit(iv: Interval, v: real): nat {
    if Contains(iv, v) then 1 else 0
  }

  /** How many samples lie in an interval. */
  function CountIn(xs: seq<real>, iv: Interval): nat {
    if xs == [] then 0 else CountIn(xs[..|xs| - 1], iv) + Hit(iv, xs[|xs| - 1])
  }

  lemma CountInPrefix(xs: seq<real>, i: nat, iv: Interval)
    requires i < |xs|
    ensures CountIn(xs[..i + 1], iv) == CountIn(xs[..i], iv) + Hit(iv, xs[i])
  {
    assert xs[..i + 1][..i] == xs[..i];
  }

  lemma {:induction false} CountInCons(x: real, xs: seq<real>, iv: Interval)
    ensures CountIn([x] + xs, iv) == Hit(iv, x) + CountIn(xs, iv)
  {
    if xs == [] {
      assert ([x] + xs)[..0] == [];
    } else {
      CountInCons(x, xs[..|xs| - 1], iv);
      assert ([x] + xs)[..|xs|] == [x] + xs[..|xs| - 1];
    }
  }

  lemma {:induction false} CountInInsert(x: real, s: seq<real>, iv: Interval)
    ensures CountIn(Insert(x, s), iv) == Hit(iv, x) + CountIn(s, iv)
  {
    CountInCons(x, s, iv);
    if s != [] && x > s[0] {
      CountInInsert(x, s[1..], iv);
      CountInCons(s[0], Insert(x, s[1..]), iv);
      CountInCons(s[0], s[1..], iv);
      assert s == [s[0]] + s[1..];
    }
  }

  /** Counting does not depend on the order of the samples. */
  lemma {:induction false} CountInSort(xs: seq<real>, iv: Interval)
    ensures CountIn(Sort(xs), iv) == CountIn(xs, iv)
  {
    if xs != [] {
      CountInSort(xs[1..], iv);
      CountInInsert(xs[0], Sort(xs[1..]), iv);
      CountInCons(xs[0], xs[1..], iv);
      assert xs == [xs[0]] + xs[1..];
    }
  }

  // ---- bins ----

  function Width(lo: real, hi: real): real {
    (hi - lo) / BIN_COUNT as real
  }

  function BinLower(lo: real, hi: real, i: int): real {
    lo + Width(lo, hi) * i as real
  }

  function BinUpper(lo: real, hi: real, i: int): real {
    if i == BIN_COUNT - 1 then hi else BinLower(lo, hi, i) + Width(lo, hi)
  }

  /** Half open, except that the last bin is closed. */
  function BinInterval(lo: real, hi: real, i: int): Interval {
    if i == BIN_COUNT - 1 then Closed(BinLower(lo, hi, i), BinUpper(lo, hi, i))
    else HalfOpen(BinLower(lo, hi, i), BinUpper(lo, hi, i))
  }

  /** The index computed for a value below the upper bound, before it is clamped. */
  function RawIndex(lo: real, hi: real, v: real): int
    requires lo < hi
  {
    ((v - lo) / Width(lo, hi)).Floor
  }

  /** The bins tile [lo, hi]: they start at lo, end at hi, and each begins where the one before it ends. */
  lemma BinsAbut(lo: real, hi: real, i: int)
    requires lo < hi && 0 <= i < BIN_COUNT
    ensures BinLower(lo, hi, 0) == lo && BinUpper(lo, hi, BIN_COUNT - 1) == hi
    ensures BinLower(lo, hi, i) < BinUpper(lo, hi, i)
    ensures i + 1 < BIN_COUNT ==> BinUpper(lo, hi, i) == BinLower(lo, hi, i + 1)
  {
    var w := Width(lo, hi);
    assert w * 32.0 == hi - lo;
    assert w * (i + 1) as real == w * i as real + w;
  }

  lemma ScaledOrder(x: real, y: real, w: real)
    requires w > 0.0
    ensures x <= y <==> x * w <= y * w
    ensures x < y <==> x * w < y * w
  {
    if x < y {
      assert (y - x) * w > 0.0;
    } else if y < x {
      assert (x - y) * w > 0.0;
    }
  }

  lemma Quotient(x: real, w: real)
    requires w > 0.0
    ensures (x / w) * w == x
  {
  }

  lemma FloorIs(q: real, k: int)
    ensures k == q.Floor <==> k as real <= q < (k + 1) as real
  {
  }

  lemma ScaledOrderOf(x: real, w: real, q: real, b: real)
    requires w > 0.0 && q * w == x
    ensures q < b <==> x < b * w
    ensures b <= q <==> b * w <= x
  {
    ScaledOrder(q, b, w);
  }

  lemma FloorByProduct(x: real, w: real, q: real, k: int)
    requires w > 0.0 && q * w == x
    ensures k == q.Floor <==> k as real * w <= x < (k + 1) as real * w
  {
    FloorIs(q, k);
    ScaledOrderOf(x, w, q, k as real);
    ScaledOrderOf(x, w, q, (k + 1) as real);
  }

  lemma FloorOfQuotient(x: real, w: real, k: int)
    requires w > 0.0
    ensures k == (x / w).Floor <==> k as real * w <= x < (k + 1) as real * w
  {
    Quotient(x, w);
    FloorByProduct(x, w, x / w, k);
  }

  lemma FloorInRange(x: real, w: real, n: nat)
    requires w > 0.0 && 0.0 <= x < n as real * w
    ensures 0 <= (x / w).Floor < n
  {
    Quotient(x, w);
    QuotientInRange(x, w, x / w, n);
  }

  lemma QuotientInRange(x: real, w: real, q: real, n: nat)
    requires w > 0.0 && q * w == x && 0.0 <= x < n as real * w
    ensures 0 <= q.Floor < n
  {
    ScaledOrder(0.0, q, w);
    ScaledOrder(q, n as real, w);
  }

  /** A bin's edges, as multiples of the width above `lo`. */
  lemma BinEdges(lo: real, hi: real, k: int)
    requires lo < hi && 0 <= k < BIN_COUNT
    ensures Width(lo, hi) > 0.0 && 32.0 * Width(lo, hi) == hi - lo
    ensures BinLower(lo, hi, k) == lo + k as real * Width(lo, hi)
    ensures BinUpper(lo, hi, k) == lo + (k + 1) as real * Width(lo, hi)
    ensures lo <= BinLower(lo, hi, k) && BinUpper(lo, hi, k) <= hi
  {
    EdgesWithin(lo, hi, k, Width(lo, hi));
  }

  lemma EdgesWithin(lo: real, hi: real, k: int, w: real)
    requires w > 0.0 && 32.0 * w == hi - lo && 0 <= k < BIN_COUNT
    ensures k as real * w + w == (k + 1) as real * w
    ensures lo <= lo + k as real * w && lo + (k + 1) as real * w <= hi
  {
    var a, b := k as real, (k + 1) as real;
    assert b == a + 1.0;
    ScaledOrder(0.0, a, w);
    ScaledOrder(b, 32.0, w);
  }

  /** In exact arithmetic the clamps never change the index, and the index is that of the one bin the value is in. */
  lemma IndexIsTheBin(lo: real, hi: real, v: real, k: int)
    requires lo < hi && lo <= v < hi && 0 <= k < BIN_COUNT
    ensures 0 <= RawIndex(lo, hi, v) < BIN_COUNT
    ensures Contains(BinInterval(lo, hi, k), v) <==> k == RawIndex(lo, hi, v)
  {
    BinEdges(lo, hi, k);
    FloorOfQuotient(v - lo, Width(lo, hi), k);
    FloorInRange(v - lo, Width(lo, hi), 32);
    hide BinLower, BinUpper, Width;
  }

  /** Which bin a value is counted in: the last one for the upper bound itself. */
  function BinIndex(lo: real, hi: real, v: real): (i: int)
    requires lo < hi && lo <= v <= hi
    ensures 0 <= i < BIN_COUNT
  {
    if v < hi then IndexIsTheBin(lo, hi, v, 0); RawIndex(lo, hi, v) else BIN_COUNT - 1
  }

  /** Every value in [lo, hi] lies in exactly one bin, and every value outside in none. */
  lemma ExactlyOneBin(lo: real, hi: real, v: real, k: int)
    requires lo < hi && 0 <= k < BIN_COUNT
    ensures lo <= v <= hi ==> (Contains(BinInterval(lo, hi, k), v) <==> k == BinIndex(lo, hi, v))
    ensures !(lo <= v <= hi) ==> !Contains(BinInterval(lo, hi, k), v)
  {
    BinEdges(lo, hi, k);
    BinsAbut(lo, hi, k);
    hide BinLower, Width, RawIndex;
    if lo <= v < hi {
      IndexIsTheBin(lo, hi, v, k);
    } else if v == hi && k < BIN_COUNT - 1 {
      BinEdges(lo, hi, k + 1);
      BinsAbut(lo, hi, k + 1);
    }
  }

  // ---- conservation ----

  function Sum(ns: seq<nat>): nat {
    if ns == [] then 0 else Sum(ns[..|ns| - 1]) + ns[|ns| - 1]
  }

  /** The counts of the first `n` bins. */
  function BinCounts(xs: seq<real>, lo: real, hi: real, n: nat): (cs: seq<nat>)
    ensures |cs| == n && forall k :: 0 <= k < n ==> cs[k] == CountIn(xs, BinInterval(lo, hi, k))
  {
    seq(n, k requires 0 <= k < n => CountIn(xs, BinInterval(lo, hi, k)))
  }

  lemma SumBinCounts(xs: seq<real>, lo: real, hi: real, n: nat)
    requires n > 0
    ensures Sum(BinCounts(xs, lo, hi, n))
         == Sum(BinCounts(xs, lo, hi, n - 1)) + CountIn(xs, BinInterval(lo, hi, n - 1))
  {
    assert BinCounts(xs, lo, hi, n)[..n - 1] == BinCounts(xs, lo, hi, n - 1);
  }

  /** One more sample adds one to the counts of the first `n` bins exactly when its bin is among them. */
  lemma {:induction false} SumWithOneMore(xs: seq<real>, lo: real, hi: real, n: nat)
    requires lo < hi && n <= BIN_COUNT && xs != []
    ensures var v := xs[|xs| - 1];
            Sum(BinCounts(xs, lo, hi, n)) ==
            Sum(BinCounts(xs[..|xs| - 1], lo, hi, n)) + if lo <= v <= hi && BinIndex(lo, hi, v) < n then 1 else 0
  {
    hide BinInterval, BinIndex, Contains;
    if n > 0 {
      SumWithOneMore(xs, lo, hi, n - 1);
      SumBinCounts(xs, lo, hi, n);
      SumBinCounts(xs[..|xs| - 1], lo, hi, n);
      ExactlyOneBin(lo, hi, xs[|xs| - 1], n - 1);
    }
  }

  lemma {:induction false} NoSamples(lo: real, hi: real, n: nat)
    ensures Sum(BinCounts([], lo, hi, n)) == 0
  {
    if n > 0 {
      NoSamples(lo, hi, n - 1);
      SumBinCounts([], lo, hi, n);
    }
  }

  /** Nothing is lost or counted twice: below, above and the bins together are all samples. */
  lemma {:induction false} Conservation(xs: seq<real>, lo: real, hi: real)
    requires lo < hi
    ensures CountIn(xs, Below(lo)) + CountIn(xs, Above(hi)) + Sum(BinCounts(xs, lo, hi, BIN_COUNT)) == |xs|
  {
    if xs == [] {
      NoSamples(lo, hi, BIN_COUNT);
    } else {
      Conservation(xs[..|xs| - 1], lo, hi);
      SumWithOneMore(xs, lo, hi, BIN_COUNT);
    }
  }

  // ---- how many samples an order statistic leaves outside ----

  lemma {:induction false} FewBelow(s: seq<real>, x: real, k: nat)
    requires Sorted(s) && k < |s| && x <= s[k]
    ensures CountIn(s, Below(x)) <= k
  {
    var last := |s| - 1;
    if k == last {
      CountAtMostLength(s[..last], Below(x));
    } else {
      FewBelow(s[..last], x, k);
    }
  }

  lemma {:induction false} CountAtMostLength(s: seq<real>, iv: Interval)
    ensures CountIn(s, iv) <= |s|
  {
    if s != [] {
      CountAtMostLength(s[..|s| - 1], iv);
    }
  }

  lemma {:induction false} FewAbove(s: seq<real>, x: real, k: nat)
    requires Sorted(s) && k < |s| && s[k] <= x
    ensures CountIn(s, Above(x)) <= |s| - 1 - k
  {
    var last := |s| - 1;
    if k == last {
      NoneAbove(s, x);
    } else {
      FewAbove(s[..last], x, k);
    }
  }

  lemma {:induction false} NoneAbove(s: seq<real>, x: real)
    requires Sorted(s) && s != [] && s[|s| - 1] <= x
    ensures CountIn(s, Above(x)) == 0
  {
    if |s| > 1 {
      NoneAbove(s[..|s| - 1], x);
    }
  }
}
