/** Sorting of samples. `sort.Float64s` leaves a sorted permutation, and there is only one. */
module Sorting {
  import Ordering

  predicate AtMostReal(x: real, y: real) {
    x <= y
  }

  ghost predicate Sorted(s: seq<real>) {
    Ordering.Sorted(s, AtMostReal)
  }

  function Insert(x: real, s: seq<real>): (r: seq<real>)
    ensures |r| == |s| + 1
    ensures multiset(r) == multiset(s) + multiset{x}
  {
    Ordering.InsertKeeps(x, s, AtMostReal);
    assert |multiset(Ordering.Insert(x, s, AtMostReal))| == |multiset(s) + multiset{x}|;
    Ordering.Insert(x, s, AtMostReal)
  }

  lemma InsertIs(x: real, s: seq<real>)
    ensures Insert(x, s) == if s == [] || x <= s[0] then [x] + s else [s[0]] + Insert(x, s[1..])
  {
  }

  function Sort(xs: seq<real>): (r: seq<real>)
    ensures |r| == |xs|
    ensures multiset(r) == multiset(xs)
  {
    Ordering.SortByKeeps(xs, AtMostReal);
    assert |multiset(Ordering.SortBy(xs, AtMostReal))| == |multiset(xs)|;
    Ordering.SortBy(xs, AtMostReal)
  }

  lemma {:induction false} InsertSorted(x: real, s: seq<real>)
    requires Sorted(s)
    ensures Sorted(Insert(x, s))
  {
    if s != [] && x > s[0] {
      InsertSorted(x, s[1..]);
      var r := Insert(x, s[1..]);
      forall i | 0 <= i < |r| ensures s[0] <= r[i] {
        assert r[i] in multiset(s[1..]) + multiset{x};
      }
    }
  }

  lemma {:induction false} SortSorted(xs: seq<real>)
    ensures Sorted(Sort(xs))
  {
    if xs != [] {
      SortSorted(xs[1..]);
      InsertSorted(xs[0], Sort(xs[1..]));
    }
  }

  lemma HeadIsLeast(s: seq<real>, x: real)
    requires Sorted(s) && x in multiset(s)
    ensures s != [] && s[0] <= x && Sorted(s[1..])
  {
    assert x in s;
  }

  lemma MultisetTail(s: seq<real>)
    requires s != []
    ensures s[0] in multiset(s) && multiset(s[1..]) == multiset(s) - multiset{s[0]}
  {
    assert s == [s[0]] + s[1..];
  }

  /** A sorted sequence is determined by its elements. */
  lemma {:induction false} SortedUnique(a: seq<real>, b: seq<real>)
    requires Sorted(a) && Sorted(b) && multiset(a) == multiset(b)
    ensures a == b
  {
    hide Sorted;
    if a != [] && b != [] {
      SameHead(a, b);
      SortedUnique(a[1..], b[1..]);
      assert a == [a[0]] + a[1..] && b == [b[0]] + b[1..];
    }
  }

  lemma SameHead(a: seq<real>, b: seq<real>)
    requires Sorted(a) && Sorted(b) && multiset(a) == multiset(b) && a != [] && b != []
    ensures a[0] == b[0] && multiset(a[1..]) == multiset(b[1..])
    ensures Sorted(a[1..]) && Sorted(b[1..])
  {
    hide Sorted;
    MultisetTail(a);
    MultisetTail(b);
    HeadIsLeast(a, b[0]);
    HeadIsLeast(b, a[0]);
  }

  /** `Sort` is what any sort must produce. */
  lemma SortIsTheSort(xs: seq<real>, r: seq<real>)
    requires multiset(r) == multiset(xs) && Sorted(r)
    ensures r == Sort(xs)
  {
    SortSorted(xs);
    SortedUnique(r, Sort(xs));
  }

  // ---- raising samples ----

  ghost predicate AtMost(a: seq<real>, b: seq<real>) {
    |a| == |b| && forall i :: 0 <= i < |a| ==> a[i] <= b[i]
  }

  lemma InsertHead(s: seq<real>)
    requires Sorted(s) && s != []
    ensures Sorted(s[1..]) && Insert(s[0], s[1..]) == s
  {
    assert s == [s[0]] + s[1..];
  }

  lemma AtMostCons(x: real, y: real, s: seq<real>, t: seq<real>)
    requires x <= y && AtMost(s, t)
    ensures AtMost([x] + s, [y] + t)
  {
  }

  lemma {:induction false} InsertMonotone(x: real, y: real, s: seq<real>, t: seq<real>)
    requires x <= y && AtMost(s, t) && Sorted(s) && Sorted(t)
    ensures AtMost(Insert(x, s), Insert(y, t))
    decreases |s|
  {
    hide Insert;
    InsertIs(x, s);
    InsertIs(y, t);
    if s != [] {
      hide AtMost, Sorted;
      assert s[0] <= t[0] && AtMost(s[1..], t[1..]) by {
        AtMostTail(s, t);
      }
      InsertHead(s);
      InsertHead(t);
      if x > s[0] && y > t[0] {
        InsertMonotone(x, y, s[1..], t[1..]);
        AtMostCons(s[0], t[0], Insert(x, s[1..]), Insert(y, t[1..]));
      } else if y > t[0] {
        InsertMonotone(s[0], y, s[1..], t[1..]);
        AtMostCons(x, t[0], s, Insert(y, t[1..]));
      } else if x > s[0] {
        InsertMonotone(x, t[0], s[1..], t[1..]);
        AtMostCons(s[0], y, Insert(x, s[1..]), t);
      } else {
        AtMostCons(x, y, s, t);
      }
    } else {
      AtMostCons(x, y, s, t);
    }
  }

  lemma AtMostTail(s: seq<real>, t: seq<real>)
    requires AtMost(s, t) && s != []
    ensures s[0] <= t[0] && AtMost(s[1..], t[1..])
  {
  }

  /** Sorting keeps the pointwise order between samples. */
  lemma {:induction false} SortMonotone(xs: seq<real>, ys: seq<real>)
    requires AtMost(xs, ys)
    ensures AtMost(Sort(xs), Sort(ys))
  {
    if xs != [] {
      SortMonotone(xs[1..], ys[1..]);
      SortSorted(xs[1..]);
      SortSorted(ys[1..]);
      InsertMonotone(xs[0], ys[0], Sort(xs[1..]), Sort(ys[1..]));
    }
  }

  // ---- positive affine maps ----

  function Affine(a: real, b: real, x: real): real {
    a * x + b
  }

  function AffineAll(a: real, b: real, xs: seq<real>): (r: seq<real>)
    ensures |r| == |xs| && forall i :: 0 <= i < |xs| ==> r[i] == Affine(a, b, xs[i])
  {
    seq(|xs|, i requires 0 <= i < |xs| => Affine(a, b, xs[i]))
  }

  lemma AffineOrder(a: real, b: real, x: real, y: real)
    requires a > 0.0
    ensures x <= y <==> Affine(a, b, x) <= Affine(a, b, y)
    ensures x == y <==> Affine(a, b, x) == Affine(a, b, y)
  {
    if x < y {
      assert a * (y - x) > 0.0;
    } else if y < x {
      assert a * (x - y) > 0.0;
    }
  }

  lemma AffineCons(a: real, b: real, x: real, s: seq<real>)
    ensures AffineAll(a, b, [x] + s) == [Affine(a, b, x)] + AffineAll(a, b, s)
  {
    hide Affine;
  }

  lemma {:induction false} InsertAffine(a: real, b: real, x: real, s: seq<real>)
    requires a > 0.0
    ensures Insert(Affine(a, b, x), AffineAll(a, b, s)) == AffineAll(a, b, Insert(x, s))
  {
    hide Affine;
    AffineCons(a, b, x, s);
    if s != [] {
      AffineOrder(a, b, x, s[0]);
      assert AffineAll(a, b, s)[1..] == AffineAll(a, b, s[1..]);
      if x > s[0] {
        InsertAffine(a, b, x, s[1..]);
        AffineCons(a, b, s[0], Insert(x, s[1..]));
      }
    }
  }

  lemma {:induction false} SortAffine(a: real, b: real, xs: seq<real>)
    requires a > 0.0
    ensures Sort(AffineAll(a, b, xs)) == AffineAll(a, b, Sort(xs))
  {
    if xs != [] {
      assert AffineAll(a, b, xs)[1..] == AffineAll(a, b, xs[1..]);
      SortAffine(a, b, xs[1..]);
      InsertAffine(a, b, xs[0], Sort(xs[1..]));
    }
  }
}
