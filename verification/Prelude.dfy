/** Small value types and sums shared by the components. */
module Prelude {

  datatype Option<+T> = None | Some(value: T)

  /** An `f64` as far as this model looks at it: a finite number, or NaN or an infinity. */
  datatype Float = Finite(value: real) | NotFinite

  // ----- sums over the values of a finite map -----

  /** Some key of a non-empty map; which one does not matter to `Sum`. */
  ghost function Pick<K>(m: map<K, nat>): (k: K)
    requires m != map[]
    ensures k in m
  {
    var k :| k in m; k
  }

  /** The sum of all values of `m`. */
  ghost function Sum<K>(m: map<K, nat>): nat
    decreases |m|
  {
    if m == map[] then 0 else
      var k := Pick(m);
      m[k] + Sum(m - {k})
  }

  /** Any key may be taken out first. */
  lemma {:induction false} SumRemove<K>(m: map<K, nat>, k: K)
    requires k in m
    ensures Sum(m) == m[k] + Sum(m - {k})
    decreases |m|
  {
    var p := Pick(m);
    if p != k {
      SumRemove(m - {p}, k);
      SumRemove(m - {k}, p);
      assert m - {p} - {k} == m - {k} - {p};
    }
  }

  /** The value at `k`, zero when the key is absent. */
  function At<K(==)>(m: map<K, nat>, k: K): nat {
    if k in m then m[k] else 0
  }

  /** Overwriting one key moves the sum by the change at that key. */
  lemma SumUpdate<K>(m: map<K, nat>, k: K, v: nat)
    ensures Sum(m[k := v]) == Sum(m) - At(m, k) + v
  {
    SumRemove(m[k := v], k);
    assert m[k := v] - {k} == m - {k};
    if k in m {
      SumRemove(m, k);
    } else {
      assert m - {k} == m;
    }
  }

  /** No single value exceeds the sum. */
  lemma SumAtLeast<K>(m: map<K, nat>, k: K)
    ensures At(m, k) <= Sum(m)
  {
    if k in m {
      SumRemove(m, k);
    }
  }

  // ----- the same for times -----

  ghost function PickReal<K>(m: map<K, real>): (k: K)
    requires m != map[]
    ensures k in m
  {
    var k :| k in m; k
  }

  ghost function RealSum<K>(m: map<K, real>): real
    decreases |m|
  {
    if m == map[] then 0.0 else
      var k := PickReal(m);
      m[k] + RealSum(m - {k})
  }

  lemma {:induction false} RealSumRemove<K>(m: map<K, real>, k: K)
    requires k in m
    ensures RealSum(m) == m[k] + RealSum(m - {k})
    decreases |m|
  {
    var p := PickReal(m);
    if p != k {
      RealSumRemove(m - {p}, k);
      RealSumRemove(m - {k}, p);
      assert m - {p} - {k} == m - {k} - {p};
    }
  }
}
