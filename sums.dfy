/** Small shared vocabulary: an optional value and the sum of a measure over
    the values of a finite map (the `sum(...)` and `Sum(...)` aggregates of the
    point-of-sale views, taken over dictionaries and database tables). */
module Sums {

  datatype Option<T> = None | Some(value: T)

  /** Sum of `f` over the values of `m`; the order in which keys are visited
      does not matter (see SumOverRemove). */
  ghost function SumOver<K, V>(m: map<K, V>, f: V -> int): int
    decreases |m|
  {
    if m == map[] then 0
    else
      var k := Pick(m);
      f(m[k]) + SumOver(m - {k}, f)
  }

  /** Some key of a non-empty map. */
  ghost function Pick<K, V>(m: map<K, V>): (k: K)
    requires m != map[]
    ensures k in m
  {
    assert m.Keys != {};
    var k :| k in m; k
  }

  /** Any key may be taken out first: the sum does not depend on the visiting order. */
  lemma {:induction false} SumOverRemove<K, V>(m: map<K, V>, k: K, f: V -> int)
    requires k in m
    ensures SumOver(m, f) == f(m[k]) + SumOver(m - {k}, f)
    decreases |m|
  {
    assert m.Keys != {};
    var j := Pick(m);
    if j != k {
      var mj, mk := m - {j}, m - {k};
      assert mj.Keys == m.Keys - {j} && mk.Keys == m.Keys - {k};
      assert |mj| == |m| - 1 && |mk| == |m| - 1;
      SumOverRemove(mj, k, f);
      SumOverRemove(mk, j, f);
      assert mj - {k} == mk - {j};
    }
  }

  /** Adding a fresh key adds its measure. */
  lemma SumOverAdd<K, V>(m: map<K, V>, k: K, v: V, f: V -> int)
    requires k !in m
    ensures SumOver(m[k := v], f) == SumOver(m, f) + f(v)
  {
    SumOverRemove(m[k := v], k, f);
    assert m[k := v] - {k} == m;
  }

  /** Replacing the value at a present key swaps its measure. */
  lemma SumOverUpdate<K, V>(m: map<K, V>, k: K, v: V, f: V -> int)
    requires k in m
    ensures SumOver(m[k := v], f) == SumOver(m, f) - f(m[k]) + f(v)
  {
    SumOverRemove(m[k := v], k, f);
    SumOverRemove(m, k, f);
    assert m[k := v] - {k} == m - {k};
  }

  /** A map whose values all measure zero sums to zero. */
  lemma {:induction false} SumOverZero<K, V>(m: map<K, V>, f: V -> int)
    requires forall k :: k in m ==> f(m[k]) == 0
    ensures SumOver(m, f) == 0
    decreases |m|
  {
    if |m| != 0 {
      var k :| k in m;
      SumOverRemove(m, k, f);
      assert |m - {k}| == |m| - 1;
      SumOverZero(m - {k}, f);
    }
  }

  /** Two measures that agree on every value of `m` have the same sum over it. */
  lemma {:induction false} SumOverCongruent<K, V>(m: map<K, V>, f: V -> int, g: V -> int)
    requires forall k :: k in m ==> f(m[k]) == g(m[k])
    ensures SumOver(m, f) == SumOver(m, g)
    decreases |m|
  {
    if |m| != 0 {
      var k := Pick(m);
      assert |m - {k}| == |m| - 1;
      SumOverCongruent(m - {k}, f, g);
    }
  }
}
