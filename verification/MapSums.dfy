/** Sums over the values of a finite map. */
module MapSums {
  ghost function Sum<K>(m: map<K, int>): int
    decreases |m|
  {
    if m == map[] then 0
    else
      var k :| k in m;
      m[k] + Sum(m - {k})
  }

  lemma {:induction false} SumRemove<K>(m: map<K, int>, k: K)
    requires k in m
    ensures Sum(m) == m[k] + Sum(m - {k})
    decreases |m|
  {
    var j :| j in m && Sum(m) == m[j] + Sum(m - {j});
    if j != k {
      SumRemove(m - {j}, k);
      SumRemove(m - {k}, j);
      assert m - {j} - {k} == m - {k} - {j};
    }
  }

  lemma SumAdd<K>(m: map<K, int>, k: K, x: int)
    requires k !in m
    ensures Sum(m[k := x]) == Sum(m) + x
  {
    SumRemove(m[k := x], k);
    assert m[k := x] - {k} == m;
  }

  /** A sum splits over a set of keys and the rest. */
  lemma {:induction false} SumSplit<K>(m: map<K, int>, s: set<K>)
    ensures Sum(m) == Sum(m - s) + Sum(map k | k in m && k in s :: m[k])
    decreases |m|
  {
    var part := map k | k in m && k in s :: m[k];
    if m.Keys * s == {} {
      assert forall k :: k in m && k in s ==> k in m.Keys * s;
      assert m - s == m;
      assert part == map[];
    } else {
      var k :| k in m.Keys * s;
      SumSplit(m - {k}, s);
      SumRemove(m, k);
      SumRemove(part, k);
      assert (m - {k}) - s == m - s;
      assert part - {k} == map j | j in m - {k} && j in s :: (m - {k})[j];
    }
  }
}
