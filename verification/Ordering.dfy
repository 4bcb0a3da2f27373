/** Sorting by a strict order, as `ORDER BY` does. */
module Ordering {

  function Insert<T>(x: T, xs: seq<T>, before: (T, T) -> bool): seq<T> {
    if xs == [] || before(x, xs[0]) then [x] + xs else [xs[0]] + Insert(x, xs[1..], before)
  }

  function SortBy<T>(xs: seq<T>, before: (T, T) -> bool): seq<T> {
    if xs == [] then [] else Insert(xs[0], SortBy(xs[1..], before), before)
  }

  ghost predicate Transitive<T(!new)>(before: (T, T) -> bool) {
    forall x, y, z :: before(x, y) && before(y, z) ==> before(x, z)
  }

  /** Any two entries of the list are in order one way or the other. */
  ghost predicate Comparable<T(!new)>(xs: seq<T>, before: (T, T) -> bool) {
    forall i, j :: 0 <= i < j < |xs| ==> before(xs[i], xs[j]) || before(xs[j], xs[i])
  }

  ghost predicate Sorted<T(!new)>(xs: seq<T>, before: (T, T) -> bool) {
    forall i, j :: 0 <= i < j < |xs| ==> before(xs[i], xs[j])
  }

  lemma {:induction false} InsertKeeps<T(!new)>(x: T, xs: seq<T>, before: (T, T) -> bool)
    ensures multiset(Insert(x, xs, before)) == multiset{x} + multiset(xs)
  {
    if xs != [] && !before(x, xs[0]) {
      InsertKeeps(x, xs[1..], before);
      assert xs == [xs[0]] + xs[1..];
    }
  }

  lemma {:induction false} InsertSorted<T(!new)>(x: T, xs: seq<T>, before: (T, T) -> bool)
    requires Transitive(before) && Sorted(xs, before)
    requires forall i :: 0 <= i < |xs| ==> before(x, xs[i]) || before(xs[i], x)
    ensures Sorted(Insert(x, xs, before), before)
  {
    if xs != [] && !before(x, xs[0]) {
      InsertSorted(x, xs[1..], before);
      var rest := Insert(x, xs[1..], before);
      forall j | 0 <= j < |rest| ensures before(xs[0], rest[j]) {
        InsertKeeps(x, xs[1..], before);
        assert rest[j] in multiset(rest);
        assert rest[j] == x || rest[j] in xs[1..];
      }
    }
  }

  lemma {:induction false} SortByKeeps<T(!new)>(xs: seq<T>, before: (T, T) -> bool)
    ensures multiset(SortBy(xs, before)) == multiset(xs)
    ensures forall x :: x in SortBy(xs, before) <==> x in xs
  {
    hide Insert;
    if xs != [] {
      SortByKeeps(xs[1..], before);
      InsertKeeps(xs[0], SortBy(xs[1..], before), before);
      assert xs == [xs[0]] + xs[1..];
    }
    forall x ensures x in SortBy(xs, before) <==> x in xs {
      assert x in multiset(SortBy(xs, before)) <==> x in multiset(xs);
    }
  }

  lemma ComparableWithFirst<T(!new)>(xs: seq<T>, before: (T, T) -> bool, ys: seq<T>)
    requires xs != [] && Comparable(xs, before) && forall y :: y in ys <==> y in xs[1..]
    ensures Comparable(xs[1..], before)
    ensures forall i :: 0 <= i < |ys| ==> before(xs[0], ys[i]) || before(ys[i], xs[0])
  {
    forall i | 0 <= i < |ys| ensures before(xs[0], ys[i]) || before(ys[i], xs[0]) {
      assert ys[i] in xs[1..];
      var j :| 0 <= j < |xs| - 1 && xs[1..][j] == ys[i];
      assert xs[j + 1] == ys[i];
    }
  }

  /** Sorting permutes, and entries that can be compared come out in order. */
  lemma {:induction false} SortByIsSort<T(!new)>(xs: seq<T>, before: (T, T) -> bool)
    requires Transitive(before) && Comparable(xs, before)
    ensures Sorted(SortBy(xs, before), before) && multiset(SortBy(xs, before)) == multiset(xs)
    ensures forall x :: x in SortBy(xs, before) <==> x in xs
  {
    hide Insert, Transitive, Comparable;
    SortByKeeps(xs, before);
    if xs != [] {
      var rest := SortBy(xs[1..], before);
      SortByKeeps(xs[1..], before);
      ComparableWithFirst(xs, before, rest);
      SortByIsSort(xs[1..], before);
      hide Sorted;
      InsertSorted(xs[0], rest, before);
    }
  }
}
