/** Sums over the rows of a table, used by the conservation proofs. */
module Sums {
  /** `MAX(0, x)` */
  function Positive(x: int): int { if x < 0 then 0 else x }

  ghost function Total<K, V>(m: map<K, V>, f: (K, V) -> int): int
    decreases m.Keys
  {
    if m.Keys == {} then 0
    else
      var k :| k in m.Keys;
      f(k, m[k]) + Total(m - {k}, f)
  }

  /** Any row can be taken out first. */
  lemma {:induction false} TotalWithout<K, V>(m: map<K, V>, f: (K, V) -> int, k: K)
    requires k in m
    ensures Total(m, f) == f(k, m[k]) + Total(m - {k}, f)
    decreases m.Keys
  {
    var j :| j in m.Keys && Total(m, f) == f(j, m[j]) + Total(m - {j}, f);
    if j != k {
      TotalWithout(m - {j}, f, k);
      TotalWithout(m - {k}, f, j);
      assert m - {j} - {k} == m - {k} - {j};
    }
  }

  function Share<K, V>(m: map<K, V>, f: (K, V) -> int, k: K): int {
    if k in m then f(k, m[k]) else 0
  }

  /** Writing one row moves the sum by the difference of its shares. */
  lemma TotalAfterPut<K, V>(m: map<K, V>, f: (K, V) -> int, k: K, v: V)
    ensures Total(m[k := v], f) == Total(m, f) - Share(m, f, k) + f(k, v)
  {
    TotalWithout(m[k := v], f, k);
    assert m[k := v] - {k} == m - {k};
    if k in m { TotalWithout(m, f, k); } else { assert m - {k} == m; }
  }

  lemma TotalAfterRemove<K, V>(m: map<K, V>, f: (K, V) -> int, k: K)
    ensures Total(m - {k}, f) == Total(m, f) - Share(m, f, k)
  {
    if k in m { TotalWithout(m, f, k); } else { assert m - {k} == m; }
  }

  lemma {:induction false} TotalNonNegative<K, V>(m: map<K, V>, f: (K, V) -> int)
    requires forall k :: k in m ==> f(k, m[k]) >= 0
    ensures Total(m, f) >= 0
    decreases m.Keys
  {
    if m.Keys != {} {
      var k :| k in m.Keys;
      TotalWithout(m, f, k);
      TotalNonNegative(m - {k}, f);
    }
  }

  lemma {:induction false} TotalOfZero<K, V>(m: map<K, V>, f: (K, V) -> int)
    requires forall k :: k in m ==> f(k, m[k]) == 0
    ensures Total(m, f) == 0
    decreases m.Keys
  {
    if m.Keys != {} {
      var k :| k in m.Keys;
      TotalWithout(m, f, k);
      TotalOfZero(m - {k}, f);
    }
  }

  /** A row's share is at most the sum, when no share is negative. */
  lemma ShareWithinTotal<K, V>(m: map<K, V>, f: (K, V) -> int, k: K)
    requires k in m && forall j :: j in m ==> f(j, m[j]) >= 0
    ensures f(k, m[k]) <= Total(m, f)
  {
    TotalWithout(m, f, k);
    TotalNonNegative(m - {k}, f);
  }

  /** Readers that agree on every row give the same sum. */
  lemma {:induction false} TotalCongruent<K, V>(m: map<K, V>, f: (K, V) -> int, g: (K, V) -> int)
    requires forall k :: k in m ==> f(k, m[k]) == g(k, m[k])
    ensures Total(m, f) == Total(m, g)
    decreases m.Keys
  {
    if m.Keys != {} {
      var k :| k in m.Keys;
      TotalWithout(m, f, k);
      TotalWithout(m, g, k);
      TotalCongruent(m - {k}, f, g);
    }
  }

  /** Readers that agree on every row but one give sums that differ by that row's shares. */
  lemma TotalDiffersAt<K, V>(m: map<K, V>, f: (K, V) -> int, g: (K, V) -> int, k: K)
    requires forall j :: j in m && j != k ==> f(j, m[j]) == g(j, m[j])
    ensures Total(m, g) == Total(m, f) - Share(m, f, k) + Share(m, g, k)
  {
    TotalCongruent(m - {k}, f, g);
    if k in m {
      TotalWithout(m, f, k);
      TotalWithout(m, g, k);
    } else {
      assert m - {k} == m;
    }
  }

  /** Tables with the same keys whose rows count the same have the same sum. */
  lemma {:induction false} TotalSameRows<K, V>(m: map<K, V>, n: map<K, V>, f: (K, V) -> int, g: (K, V) -> int)
    requires m.Keys == n.Keys && forall k :: k in m ==> f(k, m[k]) == g(k, n[k])
    ensures Total(m, f) == Total(n, g)
    decreases m.Keys
  {
    if m.Keys != {} {
      var k :| k in m.Keys;
      TotalWithout(m, f, k);
      TotalWithout(n, g, k);
      TotalSameRows(m - {k}, n - {k}, f, g);
    }
  }
}
