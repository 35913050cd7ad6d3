/** The fixed-point rule that turns a percentage into a number of votes
    (`votes_needed` in packages/cw3/src/proposal.rs). A `Decimal` is an integer number of
    10^-18 parts; percentages that passed `Threshold::validate` are at most one. */
module Cw3Rounding {
  import opened Prelude

  const PRECISION_FACTOR: int := 1_000_000_000
  const ONE: int := 1_000_000_000_000_000_000

  type Percentage = p: int | 0 <= p <= ONE

  /** `Uint128::mul_floor` with a fraction of at most one, which never overflows. */
  function MulFloor(x: Uint128, p: Percentage): Uint128 {
    FractionFits(x, p);
    x * p / ONE
  }

  lemma FractionFits(x: nat, p: Percentage)
    ensures x * p / ONE <= x
  {
    ProductMono(x, x, p, ONE);
    QuotientMono(x * p, x * ONE);
  }

  lemma QuotientMono(a: nat, b: nat)
    requires a <= b
    ensures a / ONE <= b / ONE
  {
  }

  /** Rounds down at nine digits, then up to whole votes. That the types hold every step says
      that nothing overflows 128 bits and that the final cast to 64 bits never truncates. */
  function VotesNeeded(weight: Uint64, p: Percentage): (votes: Uint64)
    ensures votes <= weight
  {
    var applied: Uint128 := MulFloor(PRECISION_FACTOR * weight, p);
    NeededOfProduct(weight, p);
    NeededBound(weight * p, weight);
    FractionFits(PRECISION_FACTOR * weight, p);
    var raised: Uint128 := applied + PRECISION_FACTOR - 1;
    raised / PRECISION_FACTOR
  }

  /** The same number from the exact product, with constant divisors only. */
  function NeededOf(product: nat): nat {
    (product / PRECISION_FACTOR + PRECISION_FACTOR - 1) / PRECISION_FACTOR
  }

  /** The true requirement: the product, rounded up once. */
  function Ceiling(weight: nat, p: nat): nat {
    (weight * p + ONE - 1) / ONE
  }

  lemma NeededOfProduct(weight: Uint64, p: Percentage)
    ensures MulFloor(PRECISION_FACTOR * weight, p) == weight * p / PRECISION_FACTOR
    ensures weight * p <= weight * ONE
  {
    var k := weight * p;
    assert PRECISION_FACTOR * weight * p == PRECISION_FACTOR * k;
    assert PRECISION_FACTOR * k / ONE == k / PRECISION_FACTOR;
    ProductMono(weight, weight, p, ONE);
  }

  lemma NeededBound(product: nat, weight: nat)
    requires product <= weight * ONE
    ensures NeededOf(product) <= weight
  {
  }

  lemma ProductMono(v: nat, w: nat, p: nat, q: nat)
    requires v <= w && p <= q
    ensures v * p <= w * q
  {
    assert v * p <= v * q by {
      assert v * q - v * p == v * (q - p);
    }
    assert v * q <= w * q by {
      assert w * q - v * q == (w - v) * q;
    }
  }

  lemma VotesNeededIs(weight: Uint64, p: Percentage)
    ensures VotesNeeded(weight, p) == NeededOf(weight * p)
  {
    NeededOfProduct(weight, p);
  }

  /** More weight or a higher percentage never needs fewer votes. */
  lemma NeededMonotone(v: Uint64, w: Uint64, p: Percentage, q: Percentage)
    requires v <= w && p <= q
    ensures VotesNeeded(v, p) <= VotesNeeded(w, q)
  {
    VotesNeededIs(v, p);
    VotesNeededIs(w, q);
    ProductMono(v, w, p, q);
  }

  /** One more unit of weight needs at most one more vote. */
  lemma NeededGrowsSlowly(v: Uint64, w: Uint64, p: Percentage)
    requires v <= w
    ensures VotesNeeded(w, p) <= VotesNeeded(v, p) + (w - v)
  {
    VotesNeededIs(v, p);
    VotesNeededIs(w, p);
    var d := w - v;
    assert w * p == v * p + d * p;
    ProductMono(d, d, p, ONE);
    var k := v * p;
    assert NeededOf(k + d * ONE) == NeededOf(k) + d by {
      assert (k + d * ONE) / PRECISION_FACTOR == k / PRECISION_FACTOR + d * PRECISION_FACTOR;
    }
    assert NeededOf(w * p) <= NeededOf(k + d * ONE);
  }

  /** The two roundings together are the true ceiling, or one less; they fall short exactly
      when the fraction lost is positive but below the ninth digit. */
  lemma NeededIsCeilingOrOneLess(weight: Uint64, p: Percentage)
    ensures VotesNeeded(weight, p) == Ceiling(weight, p) || VotesNeeded(weight, p) + 1 == Ceiling(weight, p)
    ensures VotesNeeded(weight, p) + 1 == Ceiling(weight, p) <==> 0 < weight * p % ONE < PRECISION_FACTOR
  {
    VotesNeededIs(weight, p);
    NeededOfVersusCeiling(weight * p);
  }

  lemma NeededOfVersusCeiling(k: nat)
    ensures NeededOf(k) == (k + ONE - 1) / ONE - (if 0 < k % ONE < PRECISION_FACTOR then 1 else 0)
  {
    var q, r := k / ONE, k % ONE;
    assert k / PRECISION_FACTOR == q * PRECISION_FACTOR + r / PRECISION_FACTOR;
    assert (k + ONE - 1) / ONE == q + (r + ONE - 1) / ONE;
  }

  /** It does fall short: half of two votes, and a part in 10^18 more, needs two votes and
      is taken for one. */
  lemma OneVoteShort()
    ensures VotesNeeded(2, ONE / 2 + 1) == 1 && Ceiling(2, ONE / 2 + 1) == 2
  {
  }

  lemma NoFractionBelowNineDigits(n: nat)
    ensures !(0 < n * PRECISION_FACTOR % ONE < PRECISION_FACTOR)
  {
    assert n * PRECISION_FACTOR % ONE == n % PRECISION_FACTOR * PRECISION_FACTOR;
  }

  /** With at most nine decimals nothing is lost. */
  lemma NeededExactForNineDecimals(weight: Uint64, p: Percentage)
    requires p % PRECISION_FACTOR == 0
    ensures VotesNeeded(weight, p) == Ceiling(weight, p)
  {
    NeededIsCeilingOrOneLess(weight, p);
    var d := p / PRECISION_FACTOR;
    assert weight * p == (weight * d) * PRECISION_FACTOR;
    NoFractionBelowNineDigits(weight * d);
  }

  /** The votes needed for a side and for its complement cover the weight, by at most one
      vote too many. */
  lemma NeededComplement(weight: Uint64, p: Percentage)
    ensures weight <= VotesNeeded(weight, p) + VotesNeeded(weight, ONE - p) <= weight + 1
  {
    VotesNeededIs(weight, p);
    VotesNeededIs(weight, ONE - p);
    assert weight * (ONE - p) == weight * ONE - weight * p;
    ComplementOfProducts(weight * p, weight * (ONE - p), weight);
  }

  lemma ComplementOfProducts(j: nat, k: nat, weight: nat)
    requires j + k == weight * ONE
    ensures weight <= NeededOf(j) + NeededOf(k) <= weight + 1
  {
    var a, b := j / PRECISION_FACTOR, k / PRECISION_FACTOR;
    assert weight * PRECISION_FACTOR - 1 <= a + b <= weight * PRECISION_FACTOR;
  }
}
