/** GROUP BY with ORDER BY: the distinct keys of a table in ascending order. */
module Grouping {
  import opened Sums

  ghost predicate StrictOrder<K(!new)>(lt: (K, K) -> bool) {
    && (forall a :: !lt(a, a))
    && (forall a, b, c :: lt(a, b) && lt(b, c) ==> lt(a, c))
    && (forall a, b :: a == b || lt(a, b) || lt(b, a))
  }

  ghost predicate Ascending<K>(ks: seq<K>, lt: (K, K) -> bool) {
    forall i, j :: 0 <= i < j < |ks| ==> lt(ks[i], ks[j])
  }

  function InsertKey<K(==,!new)>(k: K, ks: seq<K>, lt: (K, K) -> bool): (out: seq<K>)
    ensures forall x :: x in out <==> x == k || x in ks
  {
    if ks == [] then [k]
    else if k == ks[0] then ks
    else if lt(k, ks[0]) then [k] + ks
    else [ks[0]] + InsertKey(k, ks[1..], lt)
  }

  function KeysOf<T, K(==,!new)>(xs: seq<T>, key: T -> K, lt: (K, K) -> bool): (ks: seq<K>) {
    if xs == [] then [] else InsertKey(key(xs[0]), KeysOf(xs[1..], key, lt), lt)
  }

  lemma {:induction false} InsertKeepsAscending<K(!new)>(k: K, ks: seq<K>, lt: (K, K) -> bool)
    requires StrictOrder(lt) && Ascending(ks, lt)
    ensures Ascending(InsertKey(k, ks, lt), lt)
  {
    if ks != [] && k != ks[0] && !lt(k, ks[0]) {
      var rest := InsertKey(k, ks[1..], lt);
      InsertKeepsAscending(k, ks[1..], lt);
      assert lt(ks[0], k);
      forall x | x in rest ensures lt(ks[0], x) {
        if x != k {
          var i :| 0 <= i < |ks[1..]| && ks[1..][i] == x;
          assert ks[i + 1] == x;
        }
      }
      assert forall i :: 0 <= i < |rest| ==> rest[i] in rest;
    }
  }

  /** The key list is ascending (so free of repetitions) and holds exactly the keys of the rows. */
  lemma {:induction false} KeysOfIsSortedKeySet<T, K(!new)>(xs: seq<T>, key: T -> K, lt: (K, K) -> bool)
    requires StrictOrder(lt)
    ensures Ascending(KeysOf(xs, key, lt), lt) && Distinct(KeysOf(xs, key, lt))
    ensures forall k :: k in KeysOf(xs, key, lt) <==> exists x <- xs :: key(x) == k
  {
    if xs != [] {
      KeysOfIsSortedKeySet(xs[1..], key, lt);
      InsertKeepsAscending(key(xs[0]), KeysOf(xs[1..], key, lt), lt);
    }
  }

  /** Grouped rows re-add to the whole: over its own key list, the group sums of a table make up its total. */
  lemma GroupSumsMakeTotal<T, K(!new)>(xs: seq<T>, key: T -> K, lt: (K, K) -> bool, f: T -> int)
    requires StrictOrder(lt)
    ensures SumOfGroups(KeysOf(xs, key, lt), xs, key, f) == Sum(xs, f)
  {
    KeysOfIsSortedKeySet(xs, key, lt);
    GroupsPartition(KeysOf(xs, key, lt), xs, key, f, f);
  }

  /** The fine group sums whose key coarsens to c. */
  function CoarseSum<T, K(==), C(==)>(ks: seq<K>, xs: seq<T>, key: T -> K, coarsen: K -> C, c: C, f: T -> int): int {
    if ks == [] then 0
    else (if coarsen(ks[0]) == c then GroupSum(xs, key, ks[0], f) else 0) + CoarseSum(ks[1..], xs, key, coarsen, c, f)
  }

  lemma {:induction false} CoarseSumOneRow<T, K, C>(ks: seq<K>, x: T, xs: seq<T>,
          key: T -> K, coarsen: K -> C, c: C, f: T -> int)
    requires Distinct(ks)
    ensures CoarseSum(ks, [x] + xs, key, coarsen, c, f)
         == CoarseSum(ks, xs, key, coarsen, c, f) + if key(x) in ks && coarsen(key(x)) == c then f(x) else 0
  {
    if ks != [] {
      assert ([x] + xs)[1..] == xs;
      CoarseSumOneRow(ks[1..], x, xs, key, coarsen, c, f);
      assert key(x) in ks <==> key(x) == ks[0] || key(x) in ks[1..];
    }
  }

  lemma {:induction false} CoarseSumNoRows<T, K, C>(ks: seq<K>, xs: seq<T>,
          key: T -> K, coarsen: K -> C, c: C, f: T -> int)
    requires xs == []
    ensures CoarseSum(ks, xs, key, coarsen, c, f) == 0
  {
    if ks != [] {
      CoarseSumNoRows(ks[1..], xs, key, coarsen, c, f);
    }
  }

  /** A finer grouping re-aggregates to a coarser one: the fine rows below a coarse key add up to the coarse row. */
  lemma {:induction false} FineGroupsReaggregate<T, K, C>(ks: seq<K>, xs: seq<T>,
          fine: T -> K, coarse: T -> C, coarsen: K -> C, c: C, f: T -> int)
    requires Distinct(ks) && forall x <- xs :: fine(x) in ks && coarsen(fine(x)) == coarse(x)
    ensures CoarseSum(ks, xs, fine, coarsen, c, f) == GroupSum(xs, coarse, c, f)
    decreases xs
  {
    if xs == [] {
      CoarseSumNoRows(ks, xs, fine, coarsen, c, f);
    } else {
      assert [xs[0]] + xs[1..] == xs;
      CoarseSumOneRow(ks, xs[0], xs[1..], fine, coarsen, c, f);
      FineGroupsReaggregate(ks, xs[1..], fine, coarse, coarsen, c, f);
    }
  }
}
