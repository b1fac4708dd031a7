/** Sums over the values of a finite map, with the few laws the accounting invariants need. */
module Totals {

  ghost function Total<K>(m: map<K, int>): int
    decreases |m|
  {
    if m.Keys == {} then 0
    else
      var k :| k in m.Keys;
      m[k] + Total(m - {k})
  }

  /** The sum does not depend on the order in which entries are taken out. */
  lemma {:induction false} TotalRemove<K>(m: map<K, int>, k: K)
    requires k in m
    ensures Total(m) == m[k] + Total(m - {k})
    decreases |m|
  {
    var j :| j in m && Total(m) == m[j] + Total(m - {j});
    if j != k {
      TotalRemove(m - {j}, k);
      TotalRemove(m - {k}, j);
      assert m - {j} - {k} == m - {k} - {j};
    }
  }

  lemma TotalSet<K>(m: map<K, int>, k: K, v: int)
    ensures Total(m[k := v]) == Total(m) - (if k in m then m[k] else 0) + v
  {
    TotalRemove(m[k := v], k);
    if k in m {
      TotalRemove(m, k);
      assert m[k := v] - {k} == m - {k};
    } else {
      assert m[k := v] - {k} == m;
    }
  }

  lemma {:induction false} TotalBound<K>(m: map<K, int>, n: map<K, int>)
    requires m.Keys == n.Keys
    requires forall k :: k in m ==> m[k] <= n[k]
    ensures Total(m) <= Total(n)
    decreases |m|
  {
    if m.Keys == {} {
      assert n.Keys == {};
    } else {
      var k :| k in m.Keys;
      TotalRemove(m, k);
      TotalRemove(n, k);
      TotalBound(m - {k}, n - {k});
    }
  }

  lemma {:induction false} TotalAtLeast<K>(m: map<K, int>, k: K)
    requires forall j :: j in m ==> 0 <= m[j]
    requires k in m
    ensures 0 <= m[k] <= Total(m)
  {
    TotalRemove(m, k);
    TotalNonNegative(m - {k});
  }

  lemma {:induction false} TotalNonNegative<K>(m: map<K, int>)
    requires forall j :: j in m ==> 0 <= m[j]
    ensures 0 <= Total(m)
    decreases |m|
  {
    if m.Keys != {} {
      var k :| k in m.Keys;
      TotalRemove(m, k);
      TotalNonNegative(m - {k});
    }
  }

  ghost function CountMap<K>(q: multiset<K>, keys: set<K>): map<K, int> {
    map k | k in keys :: q[k]
  }

  /** The size of a multiset is the sum of its multiplicities over any set that covers it. */
  lemma {:induction false} TotalOfMultiset<K>(q: multiset<K>, keys: set<K>)
    requires forall k :: k in q ==> k in keys
    ensures |q| == Total(CountMap(q, keys))
    decreases keys
  {
    var m := CountMap(q, keys);
    if keys == {} {
      assert q == multiset{};
      assert m.Keys == {};
    } else {
      var k :| k in keys;
      var r := q[k := 0];
      TotalOfMultiset(r, keys - {k});
      TotalRemove(m, k);
      assert m - {k} == CountMap(r, keys - {k});
    }
  }
}
