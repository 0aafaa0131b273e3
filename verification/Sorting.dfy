/** ORDER BY and Array.sort: ascending where sort keys differ, in any order where they tie. */
module Sorting {
  import opened Sums

  ghost predicate Transitive<T(!new)>(before: (T, T) -> bool) {
    && (forall a, b, c :: before(a, b) && before(b, c) ==> before(a, c))
    && (forall a, b :: before(a, b) ==> !before(b, a))
  }

  /** Any two rows of the table are ordered one way or the other: no two share a sort key. */
  ghost predicate Comparable<T>(xs: seq<T>, before: (T, T) -> bool) {
    forall i, j :: 0 <= i < j < |xs| ==> before(xs[i], xs[j]) || before(xs[j], xs[i])
  }

  ghost predicate Ascending<T>(xs: seq<T>, before: (T, T) -> bool) {
    forall i, j :: 0 <= i < j < |xs| ==> before(xs[i], xs[j])
  }

  function Insert<T(!new)>(x: T, xs: seq<T>, before: (T, T) -> bool): (ys: seq<T>)
    ensures |ys| == |xs| + 1
    ensures forall y :: y in ys <==> y == x || y in xs
  {
    if xs == [] then [x]
    else if before(x, xs[0]) then [x] + xs
    else [xs[0]] + Insert(x, xs[1..], before)
  }

  function Sort<T(!new)>(xs: seq<T>, before: (T, T) -> bool): (ys: seq<T>)
    ensures |ys| == |xs|
    ensures forall y :: y in ys <==> y in xs
  {
    if xs == [] then [] else Insert(xs[0], Sort(xs[1..], before), before)
  }

  lemma {:induction false} InsertAscending<T(!new)>(x: T, xs: seq<T>, before: (T, T) -> bool)
    requires Transitive(before) && Ascending(xs, before)
    requires forall y <- xs :: before(x, y) || before(y, x)
    ensures Ascending(Insert(x, xs, before), before)
  {
    if xs == [] {
    } else if before(x, xs[0]) {
      assert forall j :: 0 < j < |xs| ==> before(xs[0], xs[j]);
    } else {
      var rest := Insert(x, xs[1..], before);
      InsertAscending(x, xs[1..], before);
      assert xs[0] in xs;
      forall y | y in rest ensures before(xs[0], y) {
        if y != x {
          var i :| 0 <= i < |xs[1..]| && xs[1..][i] == y;
          assert xs[i + 1] == y;
        }
      }
      assert forall i :: 0 <= i < |rest| ==> rest[i] in rest;
    }
  }

  lemma {:induction false} SortAscending<T(!new)>(xs: seq<T>, before: (T, T) -> bool)
    requires Transitive(before) && Comparable(xs, before)
    ensures Ascending(Sort(xs, before), before)
  {
    if xs != [] {
      SortAscending(xs[1..], before);
      forall y | y in Sort(xs[1..], before) ensures before(xs[0], y) || before(y, xs[0]) {
        var i :| 0 <= i < |xs[1..]| && xs[1..][i] == y;
        assert xs[i + 1] == y;
      }
      InsertAscending(xs[0], Sort(xs[1..], before), before);
    }
  }

  /** An order that may tie: "not before" is transitive. */
  ghost predicate WeakOrder<T(!new)>(before: (T, T) -> bool) {
    && (forall a, b :: before(a, b) ==> !before(b, a))
    && (forall a, b, c :: !before(b, a) && !before(c, b) ==> !before(c, a))
  }

  /** No row is before one that precedes it. */
  ghost predicate NoneAhead<T>(xs: seq<T>, before: (T, T) -> bool) {
    forall i, j :: 0 <= i < j < |xs| ==> !before(xs[j], xs[i])
  }

  lemma {:induction false} InsertNoneAhead<T(!new)>(x: T, xs: seq<T>, before: (T, T) -> bool)
    requires WeakOrder(before) && NoneAhead(xs, before)
    ensures NoneAhead(Insert(x, xs, before), before)
  {
    if xs != [] {
      if before(x, xs[0]) {
        assert forall j :: 0 < j < |xs| ==> !before(xs[j], xs[0]);
      } else {
        var rest := Insert(x, xs[1..], before);
        InsertNoneAhead(x, xs[1..], before);
        forall y | y in rest ensures !before(y, xs[0]) {
          if y != x {
            var i :| 0 <= i < |xs[1..]| && xs[1..][i] == y;
            assert xs[i + 1] == y;
          }
        }
        assert forall i :: 0 <= i < |rest| ==> rest[i] in rest;
      }
    }
  }

  /** Sorting leaves no row behind a later one, ties or not. */
  lemma {:induction false} SortNoneAhead<T(!new)>(xs: seq<T>, before: (T, T) -> bool)
    requires WeakOrder(before)
    ensures NoneAhead(Sort(xs, before), before)
  {
    if xs != [] {
      SortNoneAhead(xs[1..], before);
      InsertNoneAhead(xs[0], Sort(xs[1..], before), before);
    }
  }

  /** What ORDER BY may return: the same rows, none behind a later one; ties in any order. */
  ghost predicate IsOrderOf<T(!new)>(ordered: seq<T>, xs: seq<T>, before: (T, T) -> bool) {
    NoneAhead(ordered, before) && multiset(ordered) == multiset(xs)
  }

  lemma {:induction false} InsertAdds<T(!new)>(x: T, xs: seq<T>, before: (T, T) -> bool)
    ensures multiset(Insert(x, xs, before)) == multiset{x} + multiset(xs)
  {
    if xs != [] && !before(x, xs[0]) {
      InsertAdds(x, xs[1..], before);
      assert xs == [xs[0]] + xs[1..];
    }
  }

  lemma {:induction false} SortPermutes<T(!new)>(xs: seq<T>, before: (T, T) -> bool)
    ensures multiset(Sort(xs, before)) == multiset(xs)
  {
    if xs != [] {
      SortPermutes(xs[1..], before);
      InsertAdds(xs[0], Sort(xs[1..], before), before);
      assert xs == [xs[0]] + xs[1..];
    }
  }

  lemma SortIsAnOrder<T(!new)>(xs: seq<T>, before: (T, T) -> bool)
    requires WeakOrder(before)
    ensures IsOrderOf(Sort(xs, before), xs, before)
  {
    SortNoneAhead(xs, before);
    SortPermutes(xs, before);
  }

  /** Where a row belongs: behind everything that is not after it. */
  lemma {:induction false} PlaceFor<T(!new)>(x: T, ordered: seq<T>, before: (T, T) -> bool) returns (n: nat)
    requires WeakOrder(before) && NoneAhead(ordered, before)
    ensures n <= |ordered| && (forall i :: 0 <= i < n ==> !before(x, ordered[i]))
    ensures forall i :: n <= i < |ordered| ==> before(x, ordered[i])
    decreases |ordered|
  {
    if ordered == [] || before(x, ordered[0]) {
      n := 0;
    } else {
      n := PlaceFor(x, ordered[1..], before);
      n := n + 1;
      assert forall i :: 0 < i < |ordered| ==> ordered[i] == ordered[1..][i - 1];
    }
  }

  lemma AscendingIsDistinct<T(!new)>(xs: seq<T>, before: (T, T) -> bool)
    requires Transitive(before) && Ascending(xs, before)
    ensures Distinct(xs)
  {
    forall i, j | 0 <= i < j < |xs| ensures xs[i] != xs[j] {
      assert before(xs[i], xs[j]);
    }
  }

  lemma AscendingHead<T(!new)>(xs: seq<T>, ys: seq<T>, before: (T, T) -> bool)
    requires Transitive(before) && Ascending(xs, before) && Ascending(ys, before)
    requires xs != [] && ys != [] && forall x :: x in xs <==> x in ys
    ensures xs[0] == ys[0]
  {
    assert xs[0] in ys && ys[0] in xs;
    var i :| 0 <= i < |ys| && ys[i] == xs[0];
    var j :| 0 <= j < |xs| && xs[j] == ys[0];
    assert i > 0 ==> before(ys[0], ys[i]);
    assert j > 0 ==> before(xs[0], xs[j]);
  }

  lemma NoMembers<T(!new)>(xs: seq<T>)
    ensures (forall x :: x !in xs) ==> xs == []
  {
    if xs != [] { assert xs[0] in xs; }
  }

  /** An ascending list is determined by which rows it holds. */
  lemma {:induction false} AscendingIsUnique<T(!new)>(xs: seq<T>, ys: seq<T>, before: (T, T) -> bool)
    requires Transitive(before) && Ascending(xs, before) && Ascending(ys, before)
    requires forall x :: x in xs <==> x in ys
    ensures xs == ys
  {
    if xs == [] {
      NoMembers(ys);
    } else {
      assert xs[0] in ys;
      AscendingHead(xs, ys, before);
      AscendingIsDistinct(xs, before);
      AscendingIsDistinct(ys, before);
      assert forall x :: x in xs <==> x == xs[0] || x in xs[1..];
      assert forall x :: x in ys <==> x == ys[0] || x in ys[1..];
      assert xs[0] !in xs[1..] && ys[0] !in ys[1..];
      AscendingIsUnique(xs[1..], ys[1..], before);
      assert xs == [xs[0]] + xs[1..] && ys == [ys[0]] + ys[1..];
    }
  }
}
