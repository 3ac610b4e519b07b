/** Sums of a weight over the records of a table, used to state conservation. */
module Sums {

  /** The sum of `w` over every record stored in `m`. */
  ghost function Total<K, V>(m: map<K, V>, w: V -> int): int
    decreases |m|
  {
    if m == map[] then 0
    else
      assert exists k :: k in m by {
        var k :| k in m.Keys;
      }
      var k :| k in m;
      w(m[k]) + Total(m - {k}, w)
  }

  /** The sum can be split at any stored key, not only at the one it picks. */
  lemma TotalRemove<K, V>(m: map<K, V>, w: V -> int, k: K)
    requires k in m
    ensures Total(m, w) == w(m[k]) + Total(m - {k}, w)
    decreases |m|
  {
    var j :| j in m && Total(m, w) == w(m[j]) + Total(m - {j}, w);
    if j != k {
      assert |m - {j}| == |m| - 1;
      TotalRemove(m - {j}, w, k);
      assert |m - {k}| == |m| - 1;
      TotalRemove(m - {k}, w, j);
      assert m - {j} - {k} == m - {k} - {j};
    }
  }

  /** Storing `v` at `k` moves the sum by the weight of `v` minus the weight it replaces. */
  lemma TotalUpdate<K, V>(m: map<K, V>, w: V -> int, k: K, v: V)
    ensures Total(m[k := v], w) == Total(m, w) - (if k in m then w(m[k]) else 0) + w(v)
  {
    TotalRemove(m[k := v], w, k);
    assert m[k := v] - {k} == m - {k};
    if k in m {
      TotalRemove(m, w, k);
    } else {
      assert m - {k} == m;
    }
  }

  /** A table whose every record weighs nothing sums to zero. */
  lemma TotalZero<K, V>(m: map<K, V>, w: V -> int)
    requires forall k :: k in m ==> w(m[k]) == 0
    ensures Total(m, w) == 0
    decreases |m|
  {
    if m != map[] {
      var k :| k in m;
      TotalRemove(m, w, k);
      assert |m - {k}| == |m| - 1;
      TotalZero(m - {k}, w);
    }
  }
}
