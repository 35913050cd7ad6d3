/** Runs of the flex multisig with a group of two: two in which it loses its heavier member
    just before a proposal of the same block, and one that loses a deposit. */
module Cw3FlexExamples {
  import opened Prelude
  import opened Sums
  import opened Cw3Rounding
  import opened Cw3Proposal
  import opened Cw3Board
  import opened Cw3Flex
  import opened Cw3FlexTheorems
  import opened Cw3FlexTraps
  import Cw4Group

  const BOTH: Members := map["a" := 1, "b" := 5]
  const ONLY_A: Members := map["a" := 1]

  function Start(t: Threshold): World {
    World(FlexState(FlexConfig("group", t, Height(10), None, None), EMPTY_BOARD),
          Cw4Group.State(Some("adm"), BOTH, 6), [BOTH], Block(0, 0), [])
  }

  lemma StartIsGenesis(t: Threshold)
    requires ValidThreshold(t, 6)
    ensures Genesis(Start(t))
  {
    var w := Start(t);
    assert InstantiateFlex(View(w), _ => true, w.contract.config) == Ok(w.contract);
    TotalOfBoth();
  }

  lemma TotalOfBoth()
    ensures Sum(Cw4Group.Weights(BOTH)) == 6 && Sum(Cw4Group.Weights(ONLY_A)) == 1
  {
    assert Cw4Group.Weights(ONLY_A) == map[]["a" := 1];
    SumUpdate<Addr>(map[], "a", 1);
    assert Cw4Group.Weights(BOTH) == Cw4Group.Weights(ONLY_A)["b" := 5];
    SumUpdate(Cw4Group.Weights(ONLY_A), "b", 5);
  }

  const REMOVE_B: Event := UpdateGroup("adm", [], ["b"])
  const A_PROPOSES: Event := Call("a", [], Propose([], None))
  const B_VOTES_NO: Event := Call("b", [], CastBallot(1, No))

  function WithoutB(t: Threshold): World {
    Start(t).(group := Cw4Group.State(Some("adm"), ONLY_A, 1))
  }

  lemma Removed(t: Threshold, api: string -> bool)
    requires api("b")
    ensures Apply(Start(t), api, REMOVE_B) == WithoutB(t)
  {
    assert BOTH - {"b"} == ONLY_A;
    assert ["b"][1..] == [];
    var p := Cw4Group.Progress(BOTH, 6, []);
    var q := Cw4Group.RemoveOne(api, p, "b").value;
    assert Cw4Group.RemoveAll(api, q, []) == Ok(q);
    assert Cw4Group.RemoveAll(api, p, ["b"]) == Ok(q);
  }

  /** The proposal as it is stored: passed at once, by the whole recorded total of 1. */
  function Stored(votes: Votes): Proposal {
    Proposal(0, AtHeight(10), [], Passed, AbsolutePercentage(ONE), 1, votes, "a", None)
  }

  function Proposed(): World {
    WithoutB(AbsolutePercentage(ONE)).(contract :=
      Start(AbsolutePercentage(ONE)).contract.(board :=
        Board(1, map[1 := Stored(Votes(1, 0, 0, 0))], map[1 := map["a" := Ballot(1, Yes)]])))
  }

  lemma ProposedNext(api: string -> bool)
    ensures Apply(WithoutB(AbsolutePercentage(ONE)), api, A_PROPOSES) == Proposed()
  {
  }

  lemma VotedNext(api: string -> bool)
    ensures var v := Apply(Proposed(), api, B_VOTES_NO).contract.board;
            1 in v.proposals && v.proposals[1] == Stored(Votes(1, 5, 0, 0))
  {
    hide VotesNeeded;
  }

  lemma RunThree(w: World, api: string -> bool, e: Event, f: Event, g: Event)
    ensures Run(w, api, [e, f, g]) == Apply(Apply(Apply(w, api, e), api, f), api, g)
  {
    hide Apply;
    assert [e, f, g][1..] == [f, g] && [f, g][1..] == [g] && [g][1..] == [];
    var u := Apply(w, api, e);
    var v := Apply(u, api, f);
    assert Run(v, api, [g]) == Run(Apply(v, api, g), api, []);
    assert Run(u, api, [f, g]) == Run(v, api, [g]);
  }

  /** A tally that outgrows the recorded total, in a run from a fresh contract: the member
      who has just been removed from the group still votes with the old weight. */
  lemma UpdateBeforeProposalOutgrows(api: string -> bool)
    requires api("b")
    ensures var genesis := Start(AbsolutePercentage(ONE));
            var w := Run(genesis, api, [REMOVE_B, A_PROPOSES, B_VOTES_NO]);
            Genesis(genesis) && 1 in w.contract.board.proposals
            && var p := w.contract.board.proposals[1];
               p.totalWeight == 1 && p.votes.Sum() == 6
  {
    hide Run, Apply, Genesis, Proposed, WithoutB, Start;
    var t := AbsolutePercentage(ONE);
    StartIsGenesis(t);
    RunThree(Start(t), api, REMOVE_B, A_PROPOSES, B_VOTES_NO);
    Removed(t, api);
    ProposedNext(api);
    VotedNext(api);
  }

  /** A group that has become too small for the count: whoever is left cannot even propose. */
  lemma ShrunkenGroupCannotPropose(api: string -> bool)
    requires api("b")
    ensures var genesis := Start(AbsoluteCount(6));
            var w := Run(genesis, api, [REMOVE_B]);
            Genesis(genesis)
            && FlexHandle(w.contract, View(w), w.now, "a", [], Propose([], None)) == Err(Panic)
  {
    var t := AbsoluteCount(6);
    StartIsGenesis(t);
    Removed(t, api);
    assert [REMOVE_B][1..] == [];
    assert Run(Start(t), api, [REMOVE_B]) == WithoutB(t);
    FlexTrapsExactly(Start(t), api, [REMOVE_B], "a", [], Propose([], None));
  }

  // ------------------------------------------------------------ a lost deposit

  const DEPOSIT: DepositInfo := DepositInfo(7, NativeDenom("u"), true)

  function WithDeposit(): World {
    World(FlexState(FlexConfig("group", AbsoluteCount(2), Height(10), None, Some(DEPOSIT)), EMPTY_BOARD),
          Cw4Group.State(Some("adm"), BOTH, 6), [BOTH], Block(0, 0), [])
  }

  lemma WithDepositIsGenesis()
    ensures Genesis(WithDeposit())
  {
    var w := WithDeposit();
    assert InstantiateFlex(View(w), _ => true, w.contract.config) == Ok(w.contract);
    TotalOfBoth();
  }

  const A_PAYS_AND_PROPOSES: Event := Call("a", [Coin("u", 7)], Propose([], None))

  function Refundable(status: Status, votes: Votes): Proposal {
    Proposal(0, AtHeight(10), [], status, AbsoluteCount(2), 6, votes, "a", Some(DEPOSIT))
  }

  function DepositPaid(): World {
    WithDeposit().(contract := WithDeposit().contract.(board :=
      Board(1, map[1 := Refundable(Open, Votes(1, 0, 0, 0))], map[1 := map["a" := Ballot(1, Yes)]])))
  }

  lemma DepositPaidNext(api: string -> bool)
    ensures Apply(WithDeposit(), api, A_PAYS_AND_PROPOSES) == DepositPaid()
  {
  }

  lemma OutvotedNext(api: string -> bool)
    ensures var b := Apply(DepositPaid(), api, B_VOTES_NO).contract.board;
            1 in b.proposals && b.proposals[1] == Refundable(Rejected, Votes(1, 5, 0, 0))
  {
  }

  lemma RunOne(w: World, api: string -> bool, e: Event)
    ensures Run(w, api, [e]) == Apply(w, api, e)
  {
    hide Apply;
    assert [e][1..] == [];
    assert Run(Apply(w, api, e), api, []) == Apply(w, api, e);
  }

  /** A deposit of a proposal that asks for refunds of failed ones, lost for good: with the
      weight of the second member against it the proposal is rejected at once, by votes, and
      whatever is called afterwards the deposit is not returned. */
  lemma RefundableDepositLost(api: string -> bool, more: seq<Event>)
    ensures var genesis := WithDeposit();
            var v := Apply(Run(genesis, api, [A_PAYS_AND_PROPOSES]), api, B_VOTES_NO);
            Genesis(genesis) && 1 in v.contract.board.proposals
            && var p := v.contract.board.proposals[1];
               && p.status == Rejected && RefundsFailure(p)
               && !Returned(Run(v, api, more).log, 1)
  {
    hide Run, Apply, Genesis, WithDeposit, DepositPaid, Returned;
    WithDepositIsGenesis();
    RunOne(WithDeposit(), api, A_PAYS_AND_PROPOSES);
    DepositPaidNext(api);
    OutvotedNext(api);
    assert B_VOTES_NO == Call("b", [], CastBallot(1, No));
    StoredOpen();
    RejectedRefundExactly(WithDeposit(), api, [A_PAYS_AND_PROPOSES], "b", [], CastBallot(1, No), 1, more);
  }

  lemma StoredOpen()
    ensures DepositPaid().contract.board.proposals == map[1 := Refundable(Open, Votes(1, 0, 0, 0))]
  {
  }
}
