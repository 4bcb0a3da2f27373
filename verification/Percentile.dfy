/** The interpolated percentile (`PERCENTILE_CONT`), in exact real arithmetic. */
module Percentiles {
  import opened Common
  import opened Sorting

  function Ceil(x: real): int {
    -((-x).Floor)
  }

  lemma CeilBounds(x: real)
    ensures x <= Ceil(x) as real < x + 1.0
    ensures x.Floor <= Ceil(x) <= x.Floor + 1
    ensures x.Floor == Ceil(x) <==> x == x.Floor as real
  {
  }

  /** The point a fraction `f` of the way from `a` to `b`. */
  function Lerp(a: real, b: real, f: real): real {
    a + (b - a) * f
  }

  /** The value at a fractional position of a sorted sample. */
  function ValueAt(s: seq<real>, position: real): real
    requires 0.0 <= position <= (|s| - 1) as real
  {
    CeilBounds(position);
    var lower, upper := position.Floor, Ceil(position);
    assert upper <= |s| - 1 by {
      assert Ceil(position) as real < (|s| - 1) as real + 1.0;
    }
    if lower == upper then s[lower]
    else Lerp(s[lower], s[upper], position - lower as real)
  }

  /** Where a percentile strictly between 0 and 1 falls. */
  lemma PositionInRange(p: real, n: nat)
    requires 0.0 <= p <= 1.0 && n > 0
    ensures 0.0 <= p * (n - 1) as real <= (n - 1) as real
  {
  }

  function PercentileCont(s: seq<real>, percentile: real): Option<real> {
    if s == [] then None
    else if percentile <= 0.0 then Some(s[0])
    else if percentile >= 1.0 then Some(s[|s| - 1])
    else
      PositionInRange(percentile, |s|);
      Some(ValueAt(s, percentile * (|s| - 1) as real))
  }

  /** The percentile clamped to [0, 1] scaled to a position. */
  function PositionOf(p: real, n: nat): (r: real)
    requires n > 0
    ensures 0.0 <= r <= (n - 1) as real
  {
    if p <= 0.0 then 0.0
    else if p >= 1.0 then (n - 1) as real
    else PositionInRange(p, n); p * (n - 1) as real
  }

  lemma ValueAtIndex(s: seq<real>, i: nat)
    requires i < |s|
    ensures ValueAt(s, i as real) == s[i]
  {
    CeilBounds(i as real);
  }

  lemma PercentileIsValueAt(s: seq<real>, p: real)
    requires s != []
    ensures PercentileCont(s, p) == Some(ValueAt(s, PositionOf(p, |s|)))
  {
    hide ValueAt;
    if p <= 0.0 {
      ValueAtIndex(s, 0);

    } else if p >= 1.0 {
      ValueAtIndex(s, |s| - 1);
    }
  }

  // ---- between the bracketing order statistics ----

  lemma ProductNonNegative(x: real, y: real)
    requires 0.0 <= x && 0.0 <= y
    ensures 0.0 <= x * y
  {
  }

  lemma LerpWeights(a: real, b: real, f: real)
    ensures Lerp(a, b, f) == a * (1.0 - f) + b * f
  {
  }

  lemma LerpBounds(a: real, b: real, f: real)
    requires a <= b && 0.0 <= f <= 1.0
    ensures a <= Lerp(a, b, f) <= b
  {
    ProductNonNegative(b - a, f);
    ProductNonNegative(b - a, 1.0 - f);
    assert (b - a) * (1.0 - f) == b - a - (b - a) * f;
  }

  lemma LerpMonotoneInFraction(a: real, b: real, f: real, g: real)
    requires a <= b && f <= g
    ensures Lerp(a, b, f) <= Lerp(a, b, g)
  {
    ProductNonNegative(b - a, g - f);
    assert (b - a) * (g - f) == (b - a) * g - (b - a) * f;
  }

  lemma LerpMonotoneInEnds(a: real, b: real, c: real, d: real, f: real)
    requires a <= c && b <= d && 0.0 <= f <= 1.0
    ensures Lerp(a, b, f) <= Lerp(c, d, f)
  {
    ProductNonNegative(c - a, 1.0 - f);
    ProductNonNegative(d - b, f);
    assert (c - a) * (1.0 - f) == (c - a) - (c - a) * f;
    assert (d - c) * f - (b - a) * f == (d - b) * f - (c - a) * f;
  }

  lemma LerpAffine(a: real, b: real, x: real, y: real, f: real)
    ensures Affine(a, b, Lerp(x, y, f)) == Lerp(Affine(a, b, x), Affine(a, b, y), f)
  {
    assert (a * y - a * x) * f == a * ((y - x) * f);
  }

  lemma ValueBracketed(s: seq<real>, position: real)
    requires Sorted(s) && 0.0 <= position <= (|s| - 1) as real
    ensures 0 <= position.Floor <= Ceil(position) < |s|
    ensures s[position.Floor] <= ValueAt(s, position) <= s[Ceil(position)]
  {
    CeilBounds(position);
    var lower, upper := position.Floor, Ceil(position);
    if lower != upper {
      hide Lerp;
      LerpBounds(s[lower], s[upper], position - lower as real);
    }
  }

  /** The two-weight form of `PERCENTILE_CONT`: each neighbour weighs as much as the position is near to it. */
  lemma TwoWeightForm(s: seq<real>, position: real)
    requires 0.0 <= position <= (|s| - 1) as real
    ensures 0 <= position.Floor <= Ceil(position) < |s|
    ensures ValueAt(s, position) ==
            if position.Floor == Ceil(position) then s[position.Floor]
            else s[position.Floor] * (Ceil(position) as real - position)
                 + s[Ceil(position)] * (position - position.Floor as real)
  {
    CeilBounds(position);
    var lower, upper := position.Floor, Ceil(position);
    if lower != upper {
      hide Lerp;
      LerpWeights(s[lower], s[upper], position - lower as real);
    }
  }

  // ---- monotone in the position ----

  lemma ValueMonotone(s: seq<real>, p: real, q: real)
    requires Sorted(s) && 0.0 <= p <= q <= (|s| - 1) as real
    ensures ValueAt(s, p) <= ValueAt(s, q)
  {
    hide ValueAt;
    CeilBounds(p);
    CeilBounds(q);
    if p.Floor == q.Floor {
      ValueMonotoneWithin(s, p, q);
    } else {
      ValueBracketed(s, p);
      ValueBracketed(s, q);
      assert Ceil(p) <= q.Floor;
    }
  }

  lemma ValueMonotoneWithin(s: seq<real>, p: real, q: real)
    requires Sorted(s) && 0.0 <= p <= q <= (|s| - 1) as real && p.Floor == q.Floor
    ensures ValueAt(s, p) <= ValueAt(s, q)
  {
    hide Lerp;
    CeilBounds(p);
    CeilBounds(q);
    var lower := p.Floor;
    if p == lower as real {
      ValueBracketed(s, q);
    } else {
      assert Ceil(p) == Ceil(q) == lower + 1;
      assert lower + 1 <= |s| - 1 by {
        assert q < (lower + 1) as real && (lower as real) < q;
      }
      LerpMonotoneInFraction(s[lower], s[lower + 1], p - lower as real, q - lower as real);
    }
  }

  lemma LerpBelowEnd(a: real, b: real, f: real)
    requires a < b && f < 1.0
    ensures Lerp(a, b, f) < b
  {
    LerpStrict(a, b, f, 1.0);
  }

  lemma LerpAboveStart(a: real, b: real, f: real)
    requires a < b && 0.0 < f
    ensures a < Lerp(a, b, f)
  {
    ProductPositive(b - a, f);
  }

  lemma ProductPositive(x: real, y: real)
    requires 0.0 < x && 0.0 < y
    ensures 0.0 < x * y
  {
  }

  /** A value that equals its upper neighbour equals both, and so does one that equals its lower neighbour. */
  lemma ValueAtEnd(s: seq<real>, position: real)
    requires Sorted(s) && 0.0 <= position <= (|s| - 1) as real
    ensures 0 <= position.Floor <= Ceil(position) < |s|
    ensures var a, b, v := s[position.Floor], s[Ceil(position)], ValueAt(s, position);
            (v == b || (position.Floor as real < position && v == a)) ==> a == b
  {
    ValueBracketed(s, position);
    CeilBounds(position);
    var lower, upper := position.Floor, Ceil(position);
    if lower != upper {
      hide Lerp;
      var a, b, f := s[lower], s[upper], position - lower as real;
      if a < b {
        LerpBelowEnd(a, b, f);
        LerpAboveStart(a, b, f);
      }
    }
  }

  /** Between two positions the value is flat exactly when the sample is, from the order statistic below the first to the
      one above the second. */
  lemma ValueFlat(s: seq<real>, p: real, q: real)
    requires Sorted(s) && 0.0 <= p < q <= (|s| - 1) as real
    ensures 0 <= p.Floor <= Ceil(q) < |s|
    ensures ValueAt(s, p) == ValueAt(s, q) <==> s[p.Floor] == s[Ceil(q)]
  {
    hide ValueAt;
    CeilBounds(p);
    CeilBounds(q);
    ValueBracketed(s, p);
    ValueBracketed(s, q);
    ValueMonotone(s, p, q);
    if ValueAt(s, p) == ValueAt(s, q) {
      if Ceil(p) <= q.Floor {
        ValueAtEnd(s, p);
        ValueAtEnd(s, q);
      } else {
        FlatWithin(s, p, q);
      }
    }
  }

  lemma ValueWithin(s: seq<real>, p: real)
    requires 0.0 <= p && p.Floor as real <= p < p.Floor as real + 1.0 <= (|s| - 1) as real
    ensures ValueAt(s, p) == Lerp(s[p.Floor], s[p.Floor + 1], p - p.Floor as real)
  {
    CeilBounds(p);
  }

  lemma LerpStrict(a: real, b: real, f: real, g: real)
    requires f < g && a < b
    ensures Lerp(a, b, f) < Lerp(a, b, g)
  {
    ProductPositive(b - a, g - f);
    assert (b - a) * (g - f) == (b - a) * g - (b - a) * f;
  }

  lemma FlatWithin(s: seq<real>, p: real, q: real)
    requires Sorted(s) && 0.0 <= p < q <= (|s| - 1) as real && q.Floor < Ceil(p)
    requires ValueAt(s, p) == ValueAt(s, q)
    ensures 0 <= p.Floor <= Ceil(q) < |s| && s[p.Floor] == s[Ceil(q)]
  {
    CeilBounds(p);
    CeilBounds(q);
    ValueBracketed(s, p);
    ValueBracketed(s, q);
    var lower, upper := p.Floor, Ceil(q);
    assert upper == lower + 1 && Ceil(p) == upper && q.Floor == lower;
    var a, b, f, g := s[lower], s[upper], p - lower as real, q - lower as real;
    if a < b {
      LerpStrict(a, b, f, g);
      ValueWithin(s, p);
      ValueWithin(s, q);
    }
  }

  lemma PositionMonotone(p: real, q: real, n: nat)
    requires p <= q && n > 0
    ensures PositionOf(p, n) <= PositionOf(q, n)
  {
    if 0.0 < p && q < 1.0 {
      ProductNonNegative(q - p, (n - 1) as real);
      assert (q - p) * (n - 1) as real == q * (n - 1) as real - p * (n - 1) as real;
    }
  }

  /** A larger percentile is never a smaller value. */
  lemma PercentileMonotone(s: seq<real>, p: real, q: real)
    requires Sorted(s) && s != [] && p <= q
    ensures PercentileCont(s, p).value <= PercentileCont(s, q).value
  {
    hide PercentileCont, ValueAt, PositionOf;
    PercentileIsValueAt(s, p);
    PercentileIsValueAt(s, q);
    PositionMonotone(p, q, |s|);
    ValueMonotone(s, PositionOf(p, |s|), PositionOf(q, |s|));
  }

  /** Every percentile lies between the least and the greatest sample. */
  lemma PercentileInRange(s: seq<real>, p: real)
    requires Sorted(s) && s != []
    ensures s[0] <= PercentileCont(s, p).value <= s[|s| - 1]
  {
    hide ValueAt, PositionOf;
    PercentileIsValueAt(s, p);
    ValueBracketed(s, PositionOf(p, |s|));
  }

  // ---- monotone in the sample ----

  lemma ValueMonotoneInSample(s: seq<real>, t: seq<real>, position: real)
    requires AtMost(s, t) && 0.0 <= position <= (|s| - 1) as real
    ensures ValueAt(s, position) <= ValueAt(t, position)
  {
    hide Lerp;
    CeilBounds(position);
    var lower, upper := position.Floor, Ceil(position);
    if lower != upper {
      LerpMonotoneInEnds(s[lower], s[upper], t[lower], t[upper], position - lower as real);
    }
  }

  /** Raising any samples never lowers a percentile. */
  lemma PercentileMonotoneInSample(xs: seq<real>, ys: seq<real>, p: real)
    requires AtMost(xs, ys) && xs != []
    ensures PercentileCont(Sort(xs), p).value <= PercentileCont(Sort(ys), p).value
  {
    hide ValueAt, PositionOf;
    SortMonotone(xs, ys);
    PercentileIsValueAt(Sort(xs), p);
    PercentileIsValueAt(Sort(ys), p);
    ValueMonotoneInSample(Sort(xs), Sort(ys), PositionOf(p, |xs|));
  }

  // ---- affine maps ----

  /** Mapping the sample maps every percentile. */
  lemma PercentileAffine(a: real, b: real, s: seq<real>, p: real)
    requires s != []
    ensures PercentileCont(AffineAll(a, b, s), p) == Some(Affine(a, b, PercentileCont(s, p).value))
  {
    hide ValueAt, PercentileCont, PositionOf;
    PercentileIsValueAt(s, p);
    PercentileIsValueAt(AffineAll(a, b, s), p);
    ValueAffine(a, b, s, PositionOf(p, |s|));
  }

  lemma ValueAffine(a: real, b: real, s: seq<real>, position: real)
    requires 0.0 <= position <= (|s| - 1) as real
    ensures ValueAt(AffineAll(a, b, s), position) == Affine(a, b, ValueAt(s, position))
  {
    hide Affine, Lerp;
    CeilBounds(position);
    if position.Floor != Ceil(position) {
      LerpAffine(a, b, s[position.Floor], s[Ceil(position)], position - position.Floor as real);
    }
  }
}
