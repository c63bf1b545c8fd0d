/** Sums of weights over the processes of a system, whatever their number. */
module Tally {

  ghost function Pick<K, V>(m: map<K, V>): (k: K)
    requires m != map[]
    ensures k in m
  {
    var k :| k in m; k
  }

  /** The sum of `w` over all values of `m`. */
  ghost function Total<K, V>(m: map<K, V>, w: V -> nat): nat
    decreases |m|
  {
    if m == map[] then 0
    else var k := Pick(m); w(m[k]) + Total(m - {k}, w)
  }

  /** Any key may be taken out first. */
  lemma {:induction false} TotalRemove<K, V>(m: map<K, V>, w: V -> nat, k: K)
    requires k in m
    ensures Total(m, w) == w(m[k]) + Total(m - {k}, w)
    decreases |m|
  {
    var c := Pick(m);
    if c != k {
      TotalRemove(m - {c}, w, k);
      TotalRemove(m - {k}, w, c);
      assert m - {c} - {k} == m - {k} - {c};
    }
  }

  lemma {:induction false} TotalZero<K, V>(m: map<K, V>, w: V -> nat)
    requires forall j :: j in m ==> w(m[j]) == 0
    ensures Total(m, w) == 0
    decreases |m|
  {
    if m == map[] {
    } else {
      TotalZero(m - {Pick(m)}, w);
    }
  }

  /** A sum of nothing but zeros. */
  lemma {:induction false} ZeroTotal<K, V>(m: map<K, V>, w: V -> nat)
    requires Total(m, w) == 0
    ensures forall j :: j in m ==> w(m[j]) == 0
  {
    forall j | j in m ensures w(m[j]) == 0 {
      TotalRemove(m, w, j);
    }
  }

  /** A sum is not zero exactly when some process weighs something. */
  lemma SomeoneWeighs<K, V>(m: map<K, V>, w: V -> nat)
    ensures Total(m, w) > 0 <==> exists j :: j in m && w(m[j]) > 0
  {
    if forall j :: j in m ==> w(m[j]) == 0 {
      TotalZero(m, w);
    } else {
      if Total(m, w) == 0 { ZeroTotal(m, w); }
    }
  }

  /** Weights that agree on the processes at hand have the same sum. */
  lemma {:induction false} TotalSame<K, V>(m: map<K, V>, w: V -> nat, u: V -> nat)
    requires forall j :: j in m ==> w(m[j]) == u(m[j])
    ensures Total(m, w) == Total(m, u)
    decreases |m|
  {
    if m == map[] {
    } else {
      TotalSame(m - {Pick(m)}, w, u);
    }
  }

  /** Changing one process changes the sum by the difference of its weights. */
  lemma TotalUpdate<K, V>(m: map<K, V>, w: V -> nat, k: K, v: V)
    requires k in m
    ensures Total(m[k := v], w) + w(m[k]) == Total(m, w) + w(v)
  {
    TotalRemove(m, w, k);
    TotalRemove(m[k := v], w, k);
    assert m[k := v] - {k} == m - {k};
  }

  lemma {:induction false} TotalMonotone<K, V>(m: map<K, V>, w: V -> nat, u: V -> nat)
    requires forall j :: j in m ==> w(m[j]) <= u(m[j])
    ensures Total(m, w) <= Total(m, u)
    decreases |m|
  {
    if m == map[] {
    } else {
      TotalMonotone(m - {Pick(m)}, w, u);
    }
  }
}
