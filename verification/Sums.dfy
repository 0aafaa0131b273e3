/** Finite sums and filters over sequences: what SUM, WHERE and GROUP BY mean. */
module Sums {

  function Sum<T>(xs: seq<T>, f: T -> int): int {
    if xs == [] then 0 else f(xs[0]) + Sum(xs[1..], f)
  }

  function Filter<T>(xs: seq<T>, p: T -> bool): (ys: seq<T>)
    ensures |ys| <= |xs|
    ensures forall y <- ys :: y in xs && p(y)
    ensures forall x <- xs :: p(x) ==> x in ys
  {
    if xs == [] then []
    else if p(xs[0]) then [xs[0]] + Filter(xs[1..], p)
    else Filter(xs[1..], p)
  }

  ghost predicate Distinct<T>(xs: seq<T>) {
    forall i, j :: 0 <= i < j < |xs| ==> xs[i] != xs[j]
  }

  lemma SumSingle<T>(x: T, f: T -> int)
    ensures Sum([x], f) == f(x)
  {
    assert [x][1..] == [];
  }

  lemma {:induction false} SumConcat<T>(xs: seq<T>, ys: seq<T>, f: T -> int)
    ensures Sum(xs + ys, f) == Sum(xs, f) + Sum(ys, f)
  {
    if xs == [] {
      assert xs + ys == ys;
    } else {
      assert (xs + ys)[1..] == xs[1..] + ys;
      SumConcat(xs[1..], ys, f);
    }
  }

  lemma {:induction false} FilterConcat<T>(xs: seq<T>, ys: seq<T>, p: T -> bool)
    ensures Filter(xs + ys, p) == Filter(xs, p) + Filter(ys, p)
  {
    if xs == [] {
      assert xs + ys == ys;
    } else {
      assert (xs + ys)[1..] == xs[1..] + ys;
      FilterConcat(xs[1..], ys, p);
    }
  }

  lemma {:induction false} SumCong<T>(xs: seq<T>, f: T -> int, g: T -> int)
    requires forall x <- xs :: f(x) == g(x)
    ensures Sum(xs, f) == Sum(xs, g)
  {
    if xs != [] {
      SumCong(xs[1..], f, g);
    }
  }

  lemma {:induction false} FilterCong<T>(xs: seq<T>, p: T -> bool, q: T -> bool)
    requires forall x <- xs :: p(x) == q(x)
    ensures Filter(xs, p) == Filter(xs, q)
  {
    if xs != [] {
      FilterCong(xs[1..], p, q);
    }
  }

  lemma {:induction false} FilterAll<T>(xs: seq<T>, p: T -> bool)
    requires forall x <- xs :: p(x)
    ensures Filter(xs, p) == xs
  {
    if xs != [] { FilterAll(xs[1..], p); }
  }

  lemma {:induction false} FilterNone<T>(xs: seq<T>, p: T -> bool)
    requires forall x <- xs :: !p(x)
    ensures Filter(xs, p) == []
  {
    if xs != [] { FilterNone(xs[1..], p); }
  }

  /** Sums are linear: f == a * g + b * h on every element carries over to the sums. */
  lemma {:induction false} SumLinear<T>(xs: seq<T>, f: T -> int, g: T -> int, h: T -> int, a: int, b: int)
    requires forall x <- xs :: f(x) == a * g(x) + b * h(x)
    ensures Sum(xs, f) == a * Sum(xs, g) + b * Sum(xs, h)
  {
    if xs != [] {
      SumLinear(xs[1..], f, g, h, a, b);
      assert a * Sum(xs, g) == a * g(xs[0]) + a * Sum(xs[1..], g);
      assert b * Sum(xs, h) == b * h(xs[0]) + b * Sum(xs[1..], h);
    }
  }

  lemma {:induction false} SumZero<T>(xs: seq<T>, f: T -> int)
    requires forall x <- xs :: f(x) == 0
    ensures Sum(xs, f) == 0
  {
    if xs != [] {
      SumZero(xs[1..], f);
    }
  }

  /** Rows outside the filter count for nothing. */
  lemma {:induction false} SumFilter<T>(xs: seq<T>, p: T -> bool, f: T -> int, g: T -> int)
    requires forall x <- xs :: g(x) == if p(x) then f(x) else 0
    ensures Sum(Filter(xs, p), f) == Sum(xs, g)
  {
    if xs != [] {
      SumFilter(xs[1..], p, f, g);
      if p(xs[0]) {
        assert ([xs[0]] + Filter(xs[1..], p))[1..] == Filter(xs[1..], p);
      }
    }
  }

  lemma SumFilterTwice<T>(xs: seq<T>, p: T -> bool, q: T -> bool, f: T -> int, g: T -> int)
    requires forall x <- xs :: g(x) == if p(x) && q(x) then f(x) else 0
    ensures Sum(Filter(Filter(xs, p), q), f) == Sum(xs, g)
  {
    var h := x => if q(x) then f(x) else 0;
    SumFilter(Filter(xs, p), q, f, h);
    SumFilter(xs, p, h, g);
  }

  lemma SumAround<T>(xs: seq<T>, i: nat, f: T -> int)
    requires i < |xs|
    ensures Sum(xs, f) == Sum(xs[..i], f) + f(xs[i]) + Sum(xs[i + 1..], f)
  {
    SplitAround(xs, i);
    SumConcat(xs[..i], [xs[i]] + xs[i + 1..], f);
    SumConcat([xs[i]], xs[i + 1..], f);
    SumSingle(xs[i], f);
  }

  lemma SplitAround<T>(xs: seq<T>, i: nat)
    requires i < |xs|
    ensures xs == xs[..i] + ([xs[i]] + xs[i + 1..])
  {
  }

  function Without<T>(xs: seq<T>, i: nat): (rest: seq<T>)
    requires i < |xs|
    ensures |rest| == |xs| - 1
  {
    xs[..i] + xs[i + 1..]
  }

  lemma WithoutOne<T>(xs: seq<T>, i: nat)
    requires i < |xs|
    ensures multiset(xs) == multiset(Without(xs, i)) + multiset{xs[i]}
  {
    assert xs == xs[..i] + [xs[i]] + xs[i + 1..];
  }

  lemma SumWithout<T>(xs: seq<T>, i: nat, f: T -> int)
    requires i < |xs|
    ensures Sum(xs, f) == f(xs[i]) + Sum(Without(xs, i), f)
  {
    SumAround(xs, i, f);
    SumConcat(xs[..i], xs[i + 1..], f);
  }

  lemma SamePlace<T>(xs: seq<T>, ys: seq<T>) returns (i: nat)
    requires multiset(xs) == multiset(ys) && xs != []
    ensures i < |ys| && ys[i] == xs[0] && multiset(Without(xs, 0)) == multiset(Without(ys, i))
  {
    assert xs[0] in multiset(ys);
    i :| 0 <= i < |ys| && ys[i] == xs[0];
    WithoutOne(xs, 0);
    WithoutOne(ys, i);
    assert multiset(Without(xs, 0)) == multiset(xs) - multiset{xs[0]};
    assert multiset(Without(ys, i)) == multiset(ys) - multiset{ys[i]};
  }

  /** The order of the rows does not matter to a sum. */
  lemma {:induction false} SumPermuted<T>(xs: seq<T>, ys: seq<T>, f: T -> int)
    requires multiset(xs) == multiset(ys)
    ensures Sum(xs, f) == Sum(ys, f)
    decreases |xs|
  {
    if xs == [] {
      assert |multiset(ys)| == 0;
    } else {
      var i := SamePlace(xs, ys);
      SumWithout(xs, 0, f);
      SumWithout(ys, i, f);
      SumPermuted(Without(xs, 0), Without(ys, i), f);
    }
  }

  /** The sum of the group whose key is k. */
  function GroupSum<T, K(==)>(xs: seq<T>, key: T -> K, k: K, f: T -> int): int {
    if xs == [] then 0 else (if key(xs[0]) == k then f(xs[0]) else 0) + GroupSum(xs[1..], key, k, f)
  }

  lemma GroupSumSingle<T, K>(x: T, key: T -> K, k: K, f: T -> int)
    ensures GroupSum([x], key, k, f) == if key(x) == k then f(x) else 0
  {
    assert [x][1..] == [];
  }

  lemma {:induction false} GroupSumConcat<T, K>(xs: seq<T>, ys: seq<T>, key: T -> K, k: K, f: T -> int)
    ensures GroupSum(xs + ys, key, k, f) == GroupSum(xs, key, k, f) + GroupSum(ys, key, k, f)
  {
    if xs == [] {
      assert xs + ys == ys;
    } else {
      assert (xs + ys)[1..] == xs[1..] + ys;
      GroupSumConcat(xs[1..], ys, key, k, f);
    }
  }

  /** Sum over the keys of the group sums of those keys. */
  function SumOfGroups<T, K(==)>(ks: seq<K>, xs: seq<T>, key: T -> K, f: T -> int): int {
    if ks == [] then 0 else GroupSum(xs, key, ks[0], f) + SumOfGroups(ks[1..], xs, key, f)
  }

  lemma {:induction false} SumOfGroupsOneRow<T, K>(ks: seq<K>, x: T, xs: seq<T>, key: T -> K, f: T -> int)
    requires Distinct(ks)
    ensures SumOfGroups(ks, [x] + xs, key, f) == SumOfGroups(ks, xs, key, f) + if key(x) in ks then f(x) else 0
  {
    if ks != [] {
      assert ([x] + xs)[1..] == xs;
      SumOfGroupsOneRow(ks[1..], x, xs, key, f);
      assert key(x) in ks <==> key(x) == ks[0] || key(x) in ks[1..];
    }
  }

  /** GROUP BY partitions its rows: the groups' sums add up to the sum of the rows whose key is listed. */
  lemma {:induction false} GroupsPartition<T, K>(ks: seq<K>, xs: seq<T>, key: T -> K, f: T -> int, g: T -> int)
    requires Distinct(ks)
    requires forall x <- xs :: g(x) == if key(x) in ks then f(x) else 0
    ensures SumOfGroups(ks, xs, key, f) == Sum(xs, g)
    decreases xs
  {
    if xs == [] {
      NoRowsNoGroups(ks, xs, key, f);
    } else {
      assert [xs[0]] + xs[1..] == xs;
      SumOfGroupsOneRow(ks, xs[0], xs[1..], key, f);
      GroupsPartition(ks, xs[1..], key, f, g);
    }
  }

  lemma {:induction false} NoRowsNoGroups<T, K>(ks: seq<K>, xs: seq<T>, key: T -> K, f: T -> int)
    requires xs == []
    ensures SumOfGroups(ks, xs, key, f) == 0
  {
    if ks != [] {
      NoRowsNoGroups(ks[1..], xs, key, f);
    }
  }
}
