// Totals over the values of a map.
module Sums {

  ghost function Sum<K>(m: map<K, nat>): nat
    decreases |m|
  {
    if m == map[] then 0
    else
      var k :| k in m;
      m[k] + Sum(m - {k})
  }

  // The total does not depend on the order the keys are visited in.
  lemma {:induction false} SumSplit<K>(m: map<K, nat>, k: K)
    requires k in m
    ensures Sum(m) == m[k] + Sum(m - {k})
    decreases |m|
  {
    var j :| j in m && Sum(m) == m[j] + Sum(m - {j});
    if j != k {
      SumSplit(m - {j}, k);
      SumSplit(m - {k}, j);
      assert m - {j} - {k} == m - {k} - {j};
    }
  }

  lemma SumInsert<K>(m: map<K, nat>, k: K, v: nat)
    requires k !in m
    ensures Sum(m[k := v]) == Sum(m) + v
  {
    SumSplit(m[k := v], k);
    assert m[k := v] - {k} == m;
  }

  lemma SumOneMore<K>(m: map<K, nat>, seen: set<K>, k: K)
    requires k in m && k !in seen
    ensures Sum(m - seen) == m[k] + Sum(m - (seen + {k}))
  {
    SumSplit(m - seen, k);
    assert m - seen - {k} == m - (seen + {k});
  }

  lemma SumReplace<K>(m: map<K, nat>, k: K, v: nat)
    requires k in m
    ensures Sum(m[k := v]) == Sum(m) - m[k] + v
  {
    SumSplit(m, k);
    SumSplit(m[k := v], k);
    assert m[k := v] - {k} == m - {k};
  }

  lemma {:induction false} SumBound<K>(m: map<K, nat>, k: K)
    requires k in m
    ensures m[k] <= Sum(m)
  {
    SumSplit(m, k);
  }
}
