/** Sums over finite maps, the common measure of every conservation result here. */
module Sums {

  ghost function Sum<K>(m: map<K, nat>): nat {
    if m == map[] then 0
    else
      var k :| k in m;
      m[k] + Sum(m - {k})
  }

  function Get<K(==)>(m: map<K, nat>, k: K): nat {
    if k in m then m[k] else 0
  }

  /** The choice made by `Sum` does not matter: any key can be taken out first. */
  lemma {:induction false} SumRemove<K>(m: map<K, nat>, k: K)
    ensures Sum(m - {k}) + Get(m, k) == Sum(m)
    decreases |m|
  {
    if k !in m {
      assert m - {k} == m;
    } else {
      var c :| c in m && Sum(m) == m[c] + Sum(m - {c});
      if c != k {
        var rest := m - {c};
        SumRemove(rest, k);
        SumRemove(m - {k}, c);
        assert (m - {k}) - {c} == rest - {k};
      }
    }
  }

  lemma {:induction false} SumUpdate<K>(m: map<K, nat>, k: K, v: nat)
    ensures Sum(m[k := v]) + Get(m, k) == Sum(m) + v
  {
    SumRemove(m, k);
    SumRemove(m[k := v], k);
    assert m[k := v] - {k} == m - {k};
  }

  /** Every single entry is bounded by the sum. */
  lemma {:induction false} SumAtLeast<K>(m: map<K, nat>, k: K)
    ensures Get(m, k) <= Sum(m)
  {
    SumRemove(m, k);
  }

  lemma {:induction false} SumMono<K>(a: map<K, nat>, b: map<K, nat>)
    requires forall k | k in a :: k in b && a[k] <= b[k]
    ensures Sum(a) <= Sum(b)
    decreases |a|
  {
    if a != map[] {
      var k :| k in a;
      SumRemove(a, k);
      SumRemove(b, k);
      SumMono(a - {k}, b - {k});
    }
  }

  /** A map split pointwise into two is split in its sum. */
  lemma {:induction false} SumPlus<K>(m: map<K, nat>, a: map<K, nat>, b: map<K, nat>)
    requires m.Keys == a.Keys == b.Keys
    requires forall k | k in m :: m[k] == a[k] + b[k]
    ensures Sum(m) == Sum(a) + Sum(b)
    decreases |m|
  {
    if m == map[] {
      assert a == map[] && b == map[];
    } else {
      var k :| k in m;
      SumRemove(m, k);
      SumRemove(a, k);
      SumRemove(b, k);
      SumPlus(m - {k}, a - {k}, b - {k});
    }
  }

  function Times(a: nat, factor: nat): nat {
    a * factor
  }

  lemma TimesDistributes(a: nat, b: nat, factor: nat)
    ensures Times(a, factor) + Times(b, factor) == Times(a + b, factor)
    ensures Times(0, factor) == 0
  {
  }

  lemma SumOfNone<K>()
    ensures Sum<K>(map[]) == 0
  {
  }

  /** A constant factor may be taken out, entry by entry or once. */
  lemma {:induction false} SumScale<K>(m: map<K, nat>, scaled: map<K, nat>, factor: nat)
    requires m.Keys == scaled.Keys
    requires forall k | k in m :: scaled[k] == Times(m[k], factor)
    ensures Sum(scaled) == Times(Sum(m), factor)
    decreases |m|
  {
    hide Times, Sum;
    SumOfNone<K>();
    if m == map[] {
      assert scaled == map[];
      TimesDistributes(0, 0, factor);
    } else {
      var k :| k in m;
      SumRemove(m, k);
      SumRemove(scaled, k);
      SumScale(m - {k}, scaled - {k}, factor);
      TimesDistributes(Sum(m - {k}), m[k], factor);
    }
  }
}
