/** Python Counters and their totals. */
module Counters {
  function Get<K>(m: map<K, int>, k: K): int { if k in m then m[k] else 0 }

  function Bump<K>(m: map<K, int>, k: K, n: int): map<K, int> { m[k := Get(m, k) + n] }

  ghost function Sum<K>(m: map<K, int>): int
    decreases |m|
  {
    if m == map[] then 0
    else
      var k :| k in m;
      m[k] + Sum(m - {k})
  }

  /** The pick inside `Sum` does not matter. */
  lemma {:induction false} SumPick<K>(m: map<K, int>, k: K)
    requires k in m
    ensures Sum(m) == m[k] + Sum(m - {k})
    decreases |m|
  {
    var j :| j in m && Sum(m) == m[j] + Sum(m - {j});
    if j != k {
      SumPick(m - {j}, k);
      SumPick(m - {k}, j);
      assert m - {j} - {k} == m - {k} - {j};
    }
  }

  lemma SumBump<K>(m: map<K, int>, k: K, n: int)
    ensures Sum(Bump(m, k, n)) == Sum(m) + n
  {
    var b := Bump(m, k, n);
    SumPick(b, k);
    if k in m {
      SumPick(m, k);
      assert b - {k} == m - {k};
    } else {
      assert b - {k} == m;
    }
  }

  // ------------------------------------------------------------------
  // Parts and pointwise sums
  // ------------------------------------------------------------------

  /** The entries whose key is in `keys`. */
  function Restrict<K>(m: map<K, int>, keys: set<K>): map<K, int> { map k | k in m && k in keys :: m[k] }

  /** The other entries. */
  function Except<K>(m: map<K, int>, keys: set<K>): map<K, int> { map k | k in m && k !in keys :: m[k] }

  /** Counter.update with another Counter. */
  function Merge<K>(m: map<K, int>, n: map<K, int>): map<K, int> {
    map k | k in m.Keys + n.Keys :: Get(m, k) + Get(n, k)
  }

  lemma MergeBump<K>(m: map<K, int>, n: map<K, int>, k: K, x: int)
    ensures Merge(m, Bump(n, k, x)) == Bump(Merge(m, n), k, x)
  { }

  lemma PartsDrop<K>(m: map<K, int>, keys: set<K>, k: K)
    ensures Restrict(m, keys) - {k} == Restrict(m - {k}, keys) && Except(m, keys) - {k} == Except(m - {k}, keys)
  { }

  lemma {:induction false} SumSplits<K>(m: map<K, int>, keys: set<K>)
    ensures Sum(m) == Sum(Restrict(m, keys)) + Sum(Except(m, keys))
    decreases |m|
  {
    var a, b := Restrict(m, keys), Except(m, keys);
    if m == map[] {
      assert a == map[] && b == map[];
    } else {
      var k :| k in m;
      SumPick(m, k);
      SumSplits(m - {k}, keys);
      PartsDrop(m, keys, k);
      if k in keys {
        SumPick(a, k);
        assert b - {k} == b;
      } else {
        SumPick(b, k);
        assert a - {k} == a;
      }
    }
  }

  /** Fewer keys and smaller non-negative values, a smaller sum. */
  lemma {:induction false} SumMonotone<K>(m: map<K, int>, n: map<K, int>)
    requires m.Keys <= n.Keys && (forall k :: k in n ==> n[k] >= 0) && (forall k :: k in m ==> m[k] <= n[k])
    ensures Sum(m) <= Sum(n)
    decreases |n|
  {
    if n != map[] {
      var k :| k in n;
      SumPick(n, k);
      if k in m { SumPick(m, k); } else { assert m - {k} == m; }
      SumMonotone(m - {k}, n - {k});
    }
  }
}
