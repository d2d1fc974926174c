/** A labelled counter family, as the metrics library keeps one: a map from label
    values to counts, where a child counter that was never touched reads as zero. */
module CounterMaps {

  /** The current value of the child counter for label `k`. */
  function Get<K>(m: map<K, nat>, k: K): nat
  {
    if k in m then m[k] else 0
  }

  /** `WithLabelValues(k).Inc()`: the child for `k` is created at zero if it is
      missing and then goes up by one; every other child keeps its value. */
  function Inc<K(!new)>(m: map<K, nat>, k: K): (r: map<K, nat>)
    ensures r.Keys == m.Keys + {k}
    ensures Get(r, k) == Get(m, k) + 1
    ensures forall j :: j != k ==> Get(r, j) == Get(m, j)
  {
    m[k := Get(m, k) + 1]
  }

  /** No child of `after` is below its value in `before`. */
  ghost predicate AtLeast<K(!new)>(after: map<K, nat>, before: map<K, nat>)
  {
    && before.Keys <= after.Keys
    && forall k :: Get(before, k) <= Get(after, k)
  }

  /** The total over all children of a family. */
  ghost function Sum<K>(m: map<K, nat>): nat
    decreases |m|
  {
    if m == map[] then 0
    else
      var k :| k in m;
      m[k] + Sum(m - {k})
  }

  /** Any child can be taken out of the total first. */
  lemma {:induction false} SumRemove<K>(m: map<K, nat>, k: K)
    requires k in m
    ensures Sum(m) == m[k] + Sum(m - {k})
    decreases |m|
  {
    var j :| j in m && Sum(m) == m[j] + Sum(m - {j});
    if j != k {
      SumRemove(m - {j}, k);
      SumRemove(m - {k}, j);
      assert m - {j} - {k} == m - {k} - {j};
    }
  }

  /** One increment raises the total of the family by exactly one. */
  lemma SumInc<K(!new)>(m: map<K, nat>, k: K)
    ensures Sum(Inc(m, k)) == Sum(m) + 1
  {
    var r := Inc(m, k);
    SumRemove(r, k);
    if k in m {
      SumRemove(m, k);
      assert r - {k} == m - {k};
    } else {
      assert r - {k} == m;
    }
  }
}
