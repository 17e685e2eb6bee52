/** Sums over the rows of a table: SQL's `sum` and `count` over a finite map. */
module MapSums {

  ghost function Sum<V>(m: map<int, V>, f: V -> int): int
    decreases |m|
  {
    if !exists k :: k in m then 0
    else
      var k :| k in m;
      f(m[k]) + Sum(m - {k}, f)
  }

  /** The row taken out first does not matter. */
  lemma {:induction false} SumSplit<V>(m: map<int, V>, f: V -> int, k: int)
    requires k in m
    ensures Sum(m, f) == f(m[k]) + Sum(m - {k}, f)
    decreases |m|
  {
    var j :| j in m && Sum(m, f) == f(m[j]) + Sum(m - {j}, f);
    if j != k {
      SumSplit(m - {j}, f, k);
      SumSplit(m - {k}, f, j);
      assert m - {j} - {k} == m - {k} - {j};
    }
  }

  /** Effect of one INSERT or UPDATE on a sum. */
  lemma {:induction false} SumPut<V>(m: map<int, V>, f: V -> int, k: int, v: V)
    ensures Sum(m[k := v], f) == Sum(m, f) - (if k in m then f(m[k]) else 0) + f(v)
  {
    var n := m[k := v];
    SumSplit(n, f, k);
    if k in m {
      SumSplit(m, f, k);
      assert n - {k} == m - {k};
    } else {
      assert n - {k} == m;
    }
  }

  /** Two tables with the same summand on every row have the same sum. */
  lemma {:induction false} SumSame<V, W>(m: map<int, V>, f: V -> int, n: map<int, W>, g: W -> int)
    requires m.Keys == n.Keys
    requires forall k :: k in m ==> f(m[k]) == g(n[k])
    ensures Sum(m, f) == Sum(n, g)
    decreases |m|
  {
    if k :| k in m {
      SumSplit(m, f, k);
      SumSplit(n, g, k);
      SumSame(m - {k}, f, n - {k}, g);
    }
  }

  lemma {:induction false} SumZero<V>(m: map<int, V>, f: V -> int)
    requires forall k :: k in m ==> f(m[k]) == 0
    ensures Sum(m, f) == 0
    decreases |m|
  {
    if k :| k in m {
      SumSplit(m, f, k);
      SumZero(m - {k}, f);
    }
  }

  lemma {:induction false} SumNonNegative<V>(m: map<int, V>, f: V -> int)
    requires forall k :: k in m ==> f(m[k]) >= 0
    ensures Sum(m, f) >= 0
    decreases |m|
  {
    if k :| k in m {
      SumSplit(m, f, k);
      SumNonNegative(m - {k}, f);
    }
  }

  lemma {:induction false} SumAdd<V>(m: map<int, V>, f: V -> int, g: V -> int, h: V -> int)
    requires forall k :: k in m ==> h(m[k]) == f(m[k]) + g(m[k])
    ensures Sum(m, h) == Sum(m, f) + Sum(m, g)
    decreases |m|
  {
    if k :| k in m {
      SumSplit(m, f, k);
      SumSplit(m, g, k);
      SumSplit(m, h, k);
      SumAdd(m - {k}, f, g, h);
    }
  }
}
