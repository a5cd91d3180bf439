/** Sums over the rows of a table. */
module Sums {

  ghost function Sum<K>(m: map<K, int>): int {
    if m == map[] then 0
    else
      var k :| k in m;
      m[k] + Sum(m - {k})
  }

  lemma {:induction false} SumPick<K>(m: map<K, int>, k: K)
    requires k in m
    ensures Sum(m) == m[k] + Sum(m - {k})
    decreases |m|
  {
    var j :| j in m && Sum(m) == m[j] + Sum(m - {j});
    if j != k {
      SumPick(m - {j}, k);
      SumPick(m - {k}, j);
      assert m - {j} - {k} == m - {k} - {j};
    }
  }

  lemma SumInsert<K>(m: map<K, int>, k: K, v: int)
    requires k !in m
    ensures Sum(m[k := v]) == Sum(m) + v
  {
    SumPick(m[k := v], k);
    assert m[k := v] - {k} == m;
  }

  /** A column that is the sum of two columns sums to the sum of their sums. */
  lemma {:induction false} SumAdd<K>(m: map<K, int>, m1: map<K, int>, m2: map<K, int>)
    requires m.Keys == m1.Keys == m2.Keys
    requires forall k :: k in m ==> m[k] == m1[k] + m2[k]
    ensures Sum(m) == Sum(m1) + Sum(m2)
    decreases |m|
  {
    if m == map[] {
      assert m1 == map[] && m2 == map[];
    } else {
      var k :| k in m;
      SumPick(m, k);
      SumPick(m1, k);
      SumPick(m2, k);
      SumAdd(m - {k}, m1 - {k}, m2 - {k});
    }
  }

  lemma {:induction false} SumAdd4<K>(m: map<K, int>, m1: map<K, int>, m2: map<K, int>, m3: map<K, int>,
                                      m4: map<K, int>)
    requires m.Keys == m1.Keys && m.Keys == m2.Keys && m.Keys == m3.Keys && m.Keys == m4.Keys
    requires forall k :: k in m ==> m[k] == m1[k] + m2[k] + m3[k] + m4[k]
    ensures Sum(m) == Sum(m1) + Sum(m2) + Sum(m3) + Sum(m4)
    decreases |m|
  {
    if m == map[] {
      assert m1 == map[] && m2 == map[] && m3 == map[] && m4 == map[];
    } else {
      var k :| k in m;
      SumPick(m, k);
      SumPick(m1, k);
      SumPick(m2, k);
      SumPick(m3, k);
      SumPick(m4, k);
      SumAdd4(m - {k}, m1 - {k}, m2 - {k}, m3 - {k}, m4 - {k});
    }
  }

  /** Rows outside the filter count as zero. */
  lemma {:induction false} SumFilter<K>(all: map<K, int>, some: map<K, int>)
    requires some.Keys <= all.Keys
    requires forall k :: k in all ==> all[k] == if k in some then some[k] else 0
    ensures Sum(all) == Sum(some)
    decreases |all|
  {
    if all == map[] {
      assert some == map[];
    } else {
      var k :| k in all;
      SumPick(all, k);
      if k in some {
        SumPick(some, k);
        SumFilter(all - {k}, some - {k});
      } else {
        SumFilter(all - {k}, some);
      }
    }
  }
}
