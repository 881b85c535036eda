/** Totals of counters, and when a total is the size of the set that was counted. */
module Sums {

  function Get<K(==)>(m: map<K, nat>, k: K): nat {
    if k in m then m[k] else 0
  }

  /** The sum of the counters of `keys`; a missing counter is zero. */
  ghost function Total<K>(m: map<K, nat>, keys: set<K>): nat {
    if keys == {} then 0 else
      var k :| k in keys;
      Get(m, k) + Total(m, keys - {k})
  }

  lemma {:induction false} TotalPick<K>(m: map<K, nat>, keys: set<K>, k: K)
    requires k in keys
    ensures Total(m, keys) == Get(m, k) + Total(m, keys - {k})
  {
    var x :| x in keys && Total(m, keys) == Get(m, x) + Total(m, keys - {x});
    if x != k {
      TotalPick(m, keys - {x}, k);
      TotalPick(m, keys - {k}, x);
      assert keys - {x} - {k} == keys - {k} - {x};
    }
  }

  /** Everything placed at `k`. */
  function Class<X, K(==)>(place: map<X, K>, k: K): set<X> {
    set x | x in place && place[x] == k
  }

  /** Everything placed at one of `keys`. */
  function Placed<X, K(==)>(place: map<X, K>, keys: set<K>): set<X> {
    set x | x in place && place[x] in keys
  }

  /** Conservation: if each counter has the size of its class, the counters add up to everything placed. */
  lemma {:induction false} TotalIsPlaced<X, K>(m: map<K, nat>, place: map<X, K>, keys: set<K>)
    requires forall k :: k in keys ==> Get(m, k) == |Class(place, k)|
    ensures Total(m, keys) == |Placed(place, keys)|
  {
    if keys == {} {
      assert Placed(place, keys) == {};
    } else {
      var k :| k in keys;
      TotalPick(m, keys, k);
      TotalIsPlaced(m, place, keys - {k});
      assert Placed(place, keys) == Class(place, k) + Placed(place, keys - {k});
      assert Class(place, k) !! Placed(place, keys - {k});
    }
  }

  // ---- Real-valued loads ----

  function At<K(==)>(m: map<K, real>, k: K): real {
    if k in m then m[k] else 0.0
  }

  /** The sum of the loads of `keys`; a missing load is zero. */
  ghost function Sum<K>(m: map<K, real>, keys: set<K>): real {
    if keys == {} then 0.0 else
      var k :| k in keys;
      At(m, k) + Sum(m, keys - {k})
  }

  lemma {:induction false} SumPick<K>(m: map<K, real>, keys: set<K>, k: K)
    requires k in keys
    ensures Sum(m, keys) == At(m, k) + Sum(m, keys - {k})
  {
    var x :| x in keys && Sum(m, keys) == At(m, x) + Sum(m, keys - {x});
    if x != k {
      SumPick(m, keys - {x}, k);
      SumPick(m, keys - {k}, x);
      assert keys - {x} - {k} == keys - {k} - {x};
    }
  }

  lemma {:induction false} SumDisjoint<K>(m: map<K, real>, s: set<K>, r: set<K>)
    requires s !! r
    ensures Sum(m, s + r) == Sum(m, s) + Sum(m, r)
  {
    if s == {} {
      assert s + r == r;
    } else {
      var k :| k in s;
      SumPick(m, s, k);
      SumPick(m, s + r, k);
      SumDisjoint(m, s - {k}, r);
      assert s + r - {k} == s - {k} + r;
    }
  }

  /** Conservation: summing by class and then over classes is summing over everything placed. */
  lemma {:induction false} SumByClass<X, K>(load: map<X, real>, place: map<X, K>, got: map<K, real>, keys: set<K>)
    requires forall k :: k in keys ==> At(got, k) == Sum(load, Class(place, k))
    ensures Sum(got, keys) == Sum(load, Placed(place, keys))
  {
    if keys == {} {
      assert Placed(place, keys) == {};
    } else {
      var k :| k in keys;
      SumPick(got, keys, k);
      SumByClass(load, place, got, keys - {k});
      assert Placed(place, keys) == Class(place, k) + Placed(place, keys - {k});
      SumDisjoint(load, Class(place, k), Placed(place, keys - {k}));
    }
  }

  lemma {:induction false} SumNonNegative<K>(m: map<K, real>, keys: set<K>)
    requires forall k :: k in m ==> m[k] >= 0.0
    ensures Sum(m, keys) >= 0.0
  {
    if keys != {} {
      var k :| k in keys;
      SumPick(m, keys, k);
      SumNonNegative(m, keys - {k});
    }
  }
}
