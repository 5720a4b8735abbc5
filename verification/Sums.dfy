/** Sums over the values of a finite map, used wherever a total is conserved or bounded. */
module Sums {

  /** The sum of all values of `m`; the order of summation does not matter (SumAt). */
  ghost function Sum<K(!new)>(m: map<K, nat>): nat {
    if m == map[] then 0
    else
      var k :| k in m;
      m[k] + Sum(m - {k})
  }

  /** Any key can be summed first. */
  lemma {:induction false} SumAt<K(!new)>(m: map<K, nat>, k: K)
    requires k in m
    ensures Sum(m) == m[k] + Sum(m - {k})
    decreases |m|
  {
    var first :| first in m && Sum(m) == m[first] + Sum(m - {first});
    if first != k {
      SumAt(m - {first}, k);
      SumAt(m - {k}, first);
      assert m - {first} - {k} == m - {k} - {first};
    }
  }

  /** Writing one key replaces that key's old contribution by the new value. */
  lemma {:induction false} SumPut<K(!new)>(m: map<K, nat>, k: K, v: nat)
    ensures Sum(m[k := v]) == Sum(m - {k}) + v
    ensures Sum(m[k := v]) == Sum(m) - (if k in m then m[k] else 0) + v
  {
    SumAt(m[k := v], k);
    assert m[k := v] - {k} == m - {k};
    if k in m {
      SumAt(m, k);
    } else {
      assert m - {k} == m;
    }
  }
}
