/** Sums of integer-valued finite maps. */
module Sums {
  import opened Prelude

  ghost function Pick<K>(m: map<K, int>): (k: K)
    requires m != map[]
    ensures k in m
  {
    var k :| k in m; k
  }

  ghost function SumOf<K>(m: map<K, int>): int {
    if m == map[] then 0
    else
      var k := Pick(m);
      m[k] + SumOf(m - {k})
  }

  /** The sum does not depend on the order in which keys are taken out. */
  lemma {:induction false} SumSplit<K>(m: map<K, int>, k: K)
    requires k in m
    ensures SumOf(m) == m[k] + SumOf(m - {k})
    decreases |m|
  {
    var j := Pick(m);
    if j != k {
      SumSplit(m - {j}, k);
      SumSplit(m - {k}, j);
      assert m - {j} - {k} == m - {k} - {j};
    }
  }

  lemma SumUpdate<K>(m: map<K, int>, k: K, v: int)
    ensures SumOf(m[k := v]) == SumOf(m) + v - Lookup(m, k).GetOr(0)
  {
    SumSplit(m[k := v], k);
    assert m[k := v] - {k} == m - {k};
    if k in m {
      SumSplit(m, k);
    } else {
      assert m - {k} == m;
    }
  }

  /** A non-negative entry is at most the sum of the non-negative map it sits in. */
  lemma {:induction false} SumDominates<K>(m: map<K, int>, k: K)
    requires k in m && forall j <- m :: m[j] >= 0
    ensures 0 <= m[k] <= SumOf(m)
    decreases |m|
  {
    SumSplit(m, k);
    if m - {k} != map[] {
      SumDominates(m - {k}, Pick(m - {k}));
    }
  }
}
