/** A run of the fixed multisig that stops every proposal: the voting period has no bound. */
module Cw3FixedExamples {
  import opened Prelude
  import opened Cw3Proposal
  import opened Cw3Board
  import opened Cw3Fixed
  import opened Cw3FixedTheorems

  const ONE_VOTER: seq<Voter> := [Voter("a", 1)]

  function Start(): World {
    World(State(Config(AbsoluteCount(1), 1, Height(U64_MAX)), map["a" := 1], EMPTY_BOARD), Block(0, 0), [])
  }

  lemma StartIsGenesis(api: string -> bool)
    requires api("a")
    ensures Genesis(Start(), api, _ => true, ONE_VOTER, AbsoluteCount(1), Height(U64_MAX))
  {
    assert ONE_VOTER[..0] == [];
    assert TotalOf(ONE_VOTER) == TotalOf(ONE_VOTER[..0]) + 1;
    assert VotersOf(ONE_VOTER) == VotersOf(ONE_VOTER[..0])["a" := 1];
  }

  /** One block after the start nothing can be proposed any more, not even with a deadline
      that is one block away. */
  lemma NoProposalAfterOneBlock(api: string -> bool)
    requires api("a")
    ensures var w := Run(Start(), [Tick(Block(1, 0))]);
            && Genesis(Start(), api, _ => true, ONE_VOTER, AbsoluteCount(1), Height(U64_MAX))
            && Handle(w.contract, w.now, "a", Propose([], Some(AtHeight(2)))) == Err(Panic)
  {
    StartIsGenesis(api);
    var events := [Tick(Block(1, 0))];
    assert events[1..] == [];
    assert Run(Start(), events) == Start().(now := Block(1, 0));
  }
}
