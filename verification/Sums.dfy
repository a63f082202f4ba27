// The sum of a map's values, independent of the order they are taken in.

module Sums {

  ghost function MapSum<K(!new)>(m: map<K, int>): int
    decreases |m|
  {
    if m == map[] then 0
    else
      var k :| k in m;
      m[k] + MapSum(m - {k})
  }

  lemma {:induction false} MapSumRemove<K(!new)>(m: map<K, int>, k: K)
    requires k in m
    ensures MapSum(m) == m[k] + MapSum(m - {k})
    decreases |m|
  {
    var j :| j in m && MapSum(m) == m[j] + MapSum(m - {j});
    if j != k {
      MapSumRemove(m - {j}, k);
      MapSumRemove(m - {k}, j);
      assert m - {j} - {k} == m - {k} - {j};
    }
  }

  lemma MapSumUpdate<K(!new)>(m: map<K, int>, k: K, v: int)
    ensures MapSum(m[k := v]) == MapSum(m) - (if k in m then m[k] else 0) + v
  {
    MapSumRemove(m[k := v], k);
    assert m[k := v] - {k} == m - {k};
    if k in m {
      MapSumRemove(m, k);
    } else {
      assert m - {k} == m;
    }
  }
}
