/** Result types shared by the whole project. */
module Results {

  datatype Option<+T> = None | Some(value: T)

  datatype Result<+T, +E> = Ok(value: T) | Err(error: E)
}

/** Go's 64-bit integers: wrap-around and truncating division, written out. */
module GoInt {

  const MIN_INT64: int := -0x8000_0000_0000_0000
  const MAX_INT64: int := 0x7FFF_FFFF_FFFF_FFFF
  const TWO_64: int := 0x1_0000_0000_0000_0000

  predicate InInt64(x: int) {
    MIN_INT64 <= x <= MAX_INT64
  }

  type int64 = x: int | MIN_INT64 <= x <= MAX_INT64

  /** The value a Go int64 operation yields when the exact result is `x`. */
  function Wrap64(x: int): (r: int64)
    ensures InInt64(x) ==> r == x
    ensures (r - x) % TWO_64 == 0
  {
    (x - MIN_INT64) % TWO_64 + MIN_INT64
  }

  /** Go's `/`: the quotient is rounded toward zero. */
  function Quo(x: int, y: int): (q: int)
    requires y > 0
    ensures x >= 0 ==> 0 <= x - q * y < y
    ensures x <= 0 ==> -y < x - q * y <= 0
  {
    if x >= 0 then x / y else -((-x) / y)
  }
}

/** Sums over the values of a finite map, and what one update does to them. */
module Sums {

  ghost function SumMap(m: map<nat, int>): int {
    if m == map[] then 0 else
      var k :| k in m;
      m[k] + SumMap(m - {k})
  }

  lemma {:induction false} SumRemove(m: map<nat, int>, k: nat)
    requires k in m
    ensures SumMap(m) == m[k] + SumMap(m - {k})
    decreases |m|
  {
    var c :| c in m && SumMap(m) == m[c] + SumMap(m - {c});
    if c != k {
      SumRemove(m - {c}, k);
      SumRemove(m - {k}, c);
      assert (m - {c}) - {k} == (m - {k}) - {c};
    }
  }

  /** Setting one key moves the sum by the difference of the old and the new value. */
  lemma SumUpdate(m: map<nat, int>, k: nat, v: int)
    ensures SumMap(m[k := v]) == SumMap(m) - (if k in m then m[k] else 0) + v
  {
    SumRemove(m[k := v], k);
    if k in m {
      SumRemove(m, k);
      assert m[k := v] - {k} == m - {k};
    } else {
      assert m[k := v] - {k} == m;
    }
  }
}

/** Finite sets: how many elements, and a least one. */
module FiniteSets {

  lemma {:induction false} LeastExists<T>(ids: set<T>, key: map<T, int>) returns (m: T)
    requires ids != {} && ids <= key.Keys
    ensures m in ids && forall x :: x in ids ==> key[m] <= key[x]
    decreases |ids|
  {
    m :| m in ids;
    var rest := ids - {m};
    assert forall x :: x in ids ==> x == m || x in rest;
    if rest != {} {
      var r := LeastExists(rest, key);
      if key[r] < key[m] {
        m := r;
      }
    }
  }

  lemma Smaller<T>(a: set<T>, b: set<T>)
    requires a <= b
    ensures |a| <= |b| && |b - a| == |b| - |a|
  {
    assert b == a + (b - a) && a !! (b - a);
  }
}
