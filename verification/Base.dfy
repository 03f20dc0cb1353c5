/** Option and Result as the contracts use them, and sums over finite maps. */
module Base {

  datatype Option<+T> = None | Some(value: T)

  /** A handler's outcome; `:-` propagates the error like Rust's `?`. */
  datatype Result<+T, +E> = Ok(value: T) | Err(error: E) {
    predicate IsFailure() { Err? }

    function PropagateFailure<U>(): Result<U, E>
      requires Err?
    {
      Err(error)
    }

    function Extract(): T
      requires Ok?
    {
      value
    }
  }

  /** The `ensure`-style early return: `:- Need(condition, error);` */
  function Need<E>(condition: bool, error: E): Result<(), E> {
    if condition then Ok(()) else Err(error)
  }

  function Lookup<K, V>(m: map<K, V>, k: K): Option<V> {
    if k in m then Some(m[k]) else None
  }

  function LookupOr<K, V>(m: map<K, V>, k: K, default: V): V {
    if k in m then m[k] else default
  }

  function Or<T>(a: Option<T>, b: T): T {
    if a.Some? then a.value else b
  }

  /** The sum of all values of a map. */
  ghost function MapSum<K(!new)>(m: map<K, nat>): nat
    decreases |m|
  {
    if m == map[] then 0
    else
      var k :| k in m;
      assert |m - {k}| < |m| by { CardinalityLess(m, k); }
      m[k] + MapSum(m - {k})
  }

  lemma {:induction false} CardinalityLess<K, V>(m: map<K, V>, k: K)
    requires k in m
    ensures |m - {k}| == |m| - 1
  {
    assert m == (m - {k})[k := m[k]];
  }

  /** Any key may be summed first. */
  lemma {:induction false} MapSumTake<K(!new)>(m: map<K, nat>, k: K)
    requires k in m
    ensures MapSum(m) == m[k] + MapSum(m - {k})
    decreases |m|
  {
    var j :| j in m && MapSum(m) == m[j] + MapSum(m - {j});
    if j != k {
      CardinalityLess(m, j);
      CardinalityLess(m, k);
      MapSumTake(m - {j}, k);
      MapSumTake(m - {k}, j);
      assert m - {j} - {k} == m - {k} - {j};
    }
  }

  /** Writing one key moves the sum by the difference of old and new value. */
  lemma {:induction false} MapSumUpdate<K(!new)>(m: map<K, nat>, k: K, v: nat)
    ensures MapSum(m[k := v]) + LookupOr(m, k, 0) == MapSum(m) + v
  {
    MapSumTake(m[k := v], k);
    assert m[k := v] - {k} == m - {k};
    if k in m {
      MapSumTake(m, k);
    } else {
      assert m - {k} == m;
    }
  }

  /** A sum is zero exactly when every value is. */
  lemma {:induction false} MapSumZero<K(!new)>(m: map<K, nat>)
    ensures MapSum(m) == 0 <==> forall k :: k in m ==> m[k] == 0
    decreases |m|
  {
    if m != map[] {
      var k :| k in m;
      MapSumTake(m, k);
      CardinalityLess(m, k);
      MapSumZero(m - {k});
      assert forall j :: j in m ==> j == k || j in m - {k};
    }
  }

  lemma {:induction false} MapSumBounds<K(!new)>(m: map<K, nat>, k: K)
    requires k in m
    ensures m[k] <= MapSum(m)
  {
    MapSumTake(m, k);
  }

  // ----- Products and quotients

  lemma {:induction false} MulMonotone(x: nat, y: nat, d: nat)
    requires x <= y
    ensures x * d <= y * d && d * x <= d * y
  {
  }

  lemma {:induction false} MulAdds(x: nat, y: nat, d: nat)
    ensures x * d + y * d == (x + y) * d && d * x + d * y == d * (x + y)
  {
  }

  lemma {:induction false} DivBounds(x: nat, d: nat)
    requires d > 0
    ensures (x / d) * d <= x < (x / d) * d + d
  {
  }

  lemma {:induction false} QuotientAtMost(x: nat, d: nat, a: nat)
    requires d > 0 && x <= a * d
    ensures x / d <= a
  {
    DivBounds(x, d);
    if a < x / d {
      MulMonotone(a + 1, x / d, d);
    }
  }

  lemma {:induction false} DivModIs(x: nat, d: nat, q: nat, r: nat)
    requires d > 0 && x == q * d + r && r < d
    ensures x / d == q && x % d == r
  {
    DivBounds(x, d);
    if x / d < q {
      MulMonotone(x / d + 1, q, d);
    } else if x / d > q {
      MulMonotone(q + 1, x / d, d);
    }
    assert x == (x / d) * d + x % d;
  }
}
