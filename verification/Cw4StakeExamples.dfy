/** A run of the staking contract that locks a stake in: an unbonding traps on a total that
    it would lower. */
module Cw4StakeExamples {
  import opened Prelude
  import opened Sums
  import opened Cw4Stake
  import opened Cw4StakeTheorems

  function Start(): World {
    World(UNSET.(config := Config(NativeDenom("u"), 1, 1, Height(1))), Block(0, 0), map[], map[], map[])
  }

  const A_BONDS: Event := Call("a", Bond(Native([Coin("u", U64_MAX)])))

  /** With as many tokens bonded as the total can count, one token cannot be taken back,
      though the weight, and with it the total, would only fall. */
  lemma UnbondingLocked(api: string -> bool)
    ensures var w := Run(Start(), api, [A_BONDS]);
            && Genesis(Start(), api) && StakeOf(w.contract, "a") == U64_MAX
            && Handle(w.contract, api, w.now, "a", Unbond(1)) == Err(Panic)
  {
    assert [A_BONDS][1..] == [];
    var w := Apply(Start(), api, A_BONDS);
    assert Run(Start(), api, [A_BONDS]) == w;
    assert w.contract.total == U64_MAX && w.contract.members == map["a" := U64_MAX];
  }
}
