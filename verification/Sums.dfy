/** Sums of a natural-valued measure over a finite map: the "sum over all calls" of the
    credit accounting and the "sum over all slots" of the server's counters. */
module Sums {
  ghost function Pick<K, V>(m: map<K, V>): (k: K)
    requires m != map[]
    ensures k in m
  {
    var k :| k in m;
    k
  }

  ghost function Sum<K, V>(m: map<K, V>, f: (K, V) -> nat): nat
    decreases |m|
  {
    if m == map[] then 0
    else var k := Pick(m); f(k, m[k]) + Sum(m - {k}, f)
  }

  /** Any key may be taken out first. */
  lemma {:induction false} SumSplit<K, V>(m: map<K, V>, k: K, f: (K, V) -> nat)
    requires k in m
    ensures Sum(m, f) == f(k, m[k]) + Sum(m - {k}, f)
    decreases |m|
  {
    var p := Pick(m);
    if p != k {
      var rest := m - {p};
      SumSplit(rest, k, f);
      SumSplit(m - {k}, p, f);
      assert rest - {k} == (m - {k}) - {p};
    }
  }

  /** Replacing (or adding) one entry changes the sum by that entry alone. */
  lemma SumUpdate<K, V>(m: map<K, V>, k: K, v: V, f: (K, V) -> nat)
    ensures k in m ==> Sum(m[k := v], f) + f(k, m[k]) == Sum(m, f) + f(k, v)
    ensures k !in m ==> Sum(m[k := v], f) == Sum(m, f) + f(k, v)
  {
    var m' := m[k := v];
    SumSplit(m', k, f);
    if k in m {
      SumSplit(m, k, f);
      assert m' - {k} == m - {k};
    } else {
      assert m' - {k} == m;
    }
  }

  /** One entry is never more than the whole. */
  lemma SumAtLeast<K, V>(m: map<K, V>, k: K, f: (K, V) -> nat)
    requires k in m
    ensures f(k, m[k]) <= Sum(m, f)
  {
    SumSplit(m, k, f);
  }

  /** Measures that agree entry by entry have equal sums. */
  lemma {:induction false} SumAgree<K, V, W>(m: map<K, V>, n: map<K, W>, f: (K, V) -> nat, g: (K, W) -> nat)
    requires m.Keys == n.Keys
    requires forall k :: k in m ==> f(k, m[k]) == g(k, n[k])
    ensures Sum(m, f) == Sum(n, g)
    decreases |m|
  {
    if m == map[] {
      assert n == map[];
    } else {
      var k := Pick(m);
      assert (m - {k}).Keys == (n - {k}).Keys;
      SumAgree(m - {k}, n - {k}, f, g);
      SumSplit(n, k, g);
    }
  }

  /** A sum is zero exactly when every entry is. */
  lemma {:induction false} SumZero<K, V>(m: map<K, V>, f: (K, V) -> nat)
    ensures Sum(m, f) == 0 <==> forall k :: k in m ==> f(k, m[k]) == 0
    decreases |m|
  {
    if m != map[] {
      var k := Pick(m);
      SumZero(m - {k}, f);
      assert forall j :: j in m ==> j == k || (j in (m - {k}) && (m - {k})[j] == m[j]);
    }
  }

  /** A subset is no larger. */
  lemma {:induction false} Fewer<T>(a: set<T>, b: set<T>)
    requires a <= b
    ensures |a| <= |b|
    decreases |a|
  {
    if a != {} {
      var x :| x in a;
      Fewer(a - {x}, b - {x});
    }
  }
}
