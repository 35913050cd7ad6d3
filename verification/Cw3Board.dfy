/** Proposals and ballots, the storage shared by both multisigs
    (contracts/cw3-fixed-multisig/src/state.rs; the flex multisig imports it), with the
    parts of the handlers that both have in common. */
module Cw3Board {
  import opened Prelude
  import opened Sums
  import opened Cw3Rounding
  import opened Cw3Proposal

  datatype Ballot = Ballot(weight: Uint64, vote: Vote)

  type Ballots = map<Addr, Ballot>

  /** `PROPOSAL_COUNT`, `PROPOSALS`, and `BALLOTS` keyed by proposal and then by voter. */
  datatype Board = Board(count: Uint64, proposals: map<nat, Proposal>, ballots: map<nat, Ballots>)

  const EMPTY_BOARD := Board(0, map[], map[])

  function BallotsOf(b: Board, id: nat): Ballots {
    if id in b.ballots then b.ballots[id] else map[]
  }

  function SaveBallot(b: Board, id: nat, voter: Addr, ballot: Ballot): Board {
    b.(ballots := b.ballots[id := BallotsOf(b, id)[voter := ballot]])
  }

  function SaveProposal(b: Board, id: nat, p: Proposal): Board {
    b.(proposals := b.proposals[id := p])
  }

  function Load(b: Board, id: nat): Result<Proposal> {
    if id in b.proposals then Ok(b.proposals[id]) else Err(NotFound)
  }

  /** The requested deadline, capped by the voting period; of another kind it is refused. */
  function ChooseExpiry(latest: Option<Expiration>, period: Duration, block: Block): Result<Expiration> {
    var maxExpires :- period.After(block);
    var expires := latest.UnwrapOr(maxExpires);
    if expires.Incomparable(maxExpires) then Err(WrongExpiration)
    else Ok(if expires.LaterThan(maxExpires) then maxExpires else expires)
  }

  /** A new proposal, carried by the yes vote of its proposer. */
  function OpenProposal(b: Board, block: Block, draft: Proposal): Result<(Board, nat)> {
    var status :- CurrentStatus(draft, block);
    var id :- CheckedAdd64(b.count, 1, Panic);
    var ballot := Ballot(draft.votes.yes, Yes);
    Ok((SaveBallot(SaveProposal(b.(count := id), id, draft.(status := status)), id, draft.proposer, ballot), id))
  }

  /** A proposal that was just written down by `proposer`. */
  predicate IsDraft(draft: Proposal, block: Block) {
    draft.status == Open && draft.startHeight == block.height &&
    draft.votes == Votes(draft.votes.yes, 0, 0, 0)
  }

  predicate TakesVotes(status: Status) {
    status == Open || status == Passed || status == Rejected
  }

  /** Votes are taken before expiry, also on a proposal that is already decided. */
  function Votable(b: Board, block: Block, id: nat): Result<Proposal> {
    var p :- Load(b, id);
    :- Need(TakesVotes(p.status), NotOpen);
    :- Need(!p.expires.IsExpired(block), Expired);
    Ok(p)
  }

  function CastVote(b: Board, block: Block, id: nat, p: Proposal, voter: Addr, power: Uint64, vote: Vote)
    : Result<Board>
  {
    if voter in BallotsOf(b, id) then Err(AlreadyVoted)
    else
      var votes :- p.votes.AddVote(vote, power);
      var status :- CurrentStatus(p.(votes := votes), block);
      Ok(SaveProposal(SaveBallot(b, id, voter, Ballot(power, vote)), id, p.(votes := votes, status := status)))
  }

  /** The proposal to execute, already marked as executed. */
  function ExecuteProposal(b: Board, block: Block, id: nat): Result<Proposal> {
    var p :- Load(b, id);
    var status :- CurrentStatus(p, block);
    :- Need(status == Passed, WrongExecuteStatus);
    Ok(p.(status := Executed))
  }

  /** The proposal to close, already marked as rejected. */
  function CloseProposal(b: Board, block: Block, id: nat): Result<Proposal> {
    var p :- Load(b, id);
    :- Need(!(p.status == Executed || p.status == Rejected || p.status == Passed), WrongCloseStatus);
    var status :- CurrentStatus(p, block);
    :- Need(status != Passed, WrongCloseStatus);
    :- Need(p.expires.IsExpired(block), NotExpired);
    Ok(p.(status := Rejected))
  }

  /** What a call sends out, in order. */
  datatype Effect =
    | TakeDeposit(from: Addr, deposit: DepositInfo)
    | ReturnDeposit(id: nat, to: Addr, deposit: DepositInfo)
    | Dispatch(id: nat, msgs: seq<CosmosMsg>)

  function Refund(id: nat, p: Proposal): seq<Effect> {
    if p.deposit.Some? then [ReturnDeposit(id, p.proposer, p.deposit.value)] else []
  }

  /** Executing always returns the deposit, then dispatches the messages. */
  function Executing(id: nat, p: Proposal): seq<Effect> {
    Refund(id, p) + [Dispatch(id, p.msgs)]
  }

  /** Closing returns the deposit if the deposit says so. */
  function Closing(id: nat, p: Proposal): seq<Effect> {
    if p.deposit.Some? && p.deposit.value.refundFailedProposals then Refund(id, p) else []
  }

  // ---------------------------------------------------------------- tallies

  function Counted(ballot: Ballot, options: set<Vote>): nat {
    if ballot.vote in options then ballot.weight else 0
  }

  function WeightsIn(ballots: Ballots, options: set<Vote>): map<Addr, nat> {
    map a | a in ballots :: Counted(ballots[a], options)
  }

  /** The weight of all ballots for one of these options. */
  ghost function WeightIn(ballots: Ballots, options: set<Vote>): nat {
    Sum(WeightsIn(ballots, options))
  }

  const EVERY_OPTION: set<Vote> := {Yes, No, Abstain, Veto}

  lemma WeightOfOneMore(ballots: Ballots, voter: Addr, ballot: Ballot, options: set<Vote>)
    requires voter !in ballots
    ensures WeightIn(ballots[voter := ballot], options) == WeightIn(ballots, options) + Counted(ballot, options)
  {
    assert WeightsIn(ballots[voter := ballot], options)
           == WeightsIn(ballots, options)[voter := Counted(ballot, options)];
    SumUpdate(WeightsIn(ballots, options), voter, Counted(ballot, options));
  }

  lemma WeightOfNone(options: set<Vote>)
    ensures WeightIn(map[], options) == 0
  {
    assert WeightsIn(map[], options) == map[];
  }

  lemma WeightSplit(ballots: Ballots, these: set<Vote>, those: set<Vote>)
    requires these !! those
    ensures WeightIn(ballots, these + those) == WeightIn(ballots, these) + WeightIn(ballots, those)
  {
    SumPlus(WeightsIn(ballots, these + those), WeightsIn(ballots, these), WeightsIn(ballots, those));
  }

  // -------------------------------------------------------------- invariants

  /** Ballot conservation: every option's tally is the weight of the ballots for it. */
  ghost predicate Tallied(p: Proposal, ballots: Ballots) {
    forall vote: Vote :: p.votes.Of(vote) == WeightIn(ballots, {vote})
  }

  /** A stored verdict is right, now and for every later tally and block. */
  predicate VerdictHolds(p: Proposal, now: Block) {
    var pass := (expired: bool) => PassRule(p.threshold, p.totalWeight, p.votes, expired);
    var reject := RejectRule(p.threshold, p.totalWeight, p.votes, false);
    var early := !p.expires.IsExpired(now);
    match p.status
    case Pending => false
    case Open => pass(false) == Ok(false) && reject == Ok(false)
    case Passed => pass(true) == Ok(true) && (early ==> pass(false) == Ok(true))
    case Executed => pass(true) == Ok(true) && (early ==> pass(false) == Ok(true))
    case Rejected => pass(true) == Ok(false) && (early ==> reject == Ok(true))
  }

  /** The tally is within the weight that was recorded when voting began. */
  predicate Bounded(p: Proposal) {
    p.votes.Sum() <= p.totalWeight
  }

  ghost predicate Consistent(b: Board, now: Block) {
    && (forall id | id in b.proposals :: 1 <= id <= b.count)
    && (forall id | id in b.ballots :: id in b.proposals)
    && (forall id | id in b.proposals :: Tallied(b.proposals[id], BallotsOf(b, id)))
    && (forall id | id in b.proposals :: Bounded(b.proposals[id]) ==> VerdictHolds(b.proposals[id], now))
  }

  lemma VotesSumIsWeight(p: Proposal, ballots: Ballots)
    requires Tallied(p, ballots)
    ensures p.votes.Sum() == WeightIn(ballots, EVERY_OPTION)
  {
    WeightSplit(ballots, {Yes}, {No});
    WeightSplit(ballots, {Yes} + {No}, {Abstain});
    WeightSplit(ballots, {Yes} + {No} + {Abstain}, {Veto});
    assert EVERY_OPTION == {Yes} + {No} + {Abstain} + {Veto};
    assert p.votes.Of(Yes) == WeightIn(ballots, {Yes}) && p.votes.Of(No) == WeightIn(ballots, {No});
    assert p.votes.Of(Abstain) == WeightIn(ballots, {Abstain}) && p.votes.Of(Veto) == WeightIn(ballots, {Veto});
  }

  /** The verdict that `update_status` computes for an open proposal. */
  lemma FreshVerdictHolds(p: Proposal, block: Block)
    requires Bounded(p) && p.status == Open && CurrentStatus(p, block).Ok?
    ensures VerdictHolds(p.(status := CurrentStatus(p, block).value), block)
  {
    if !p.expires.IsExpired(block) {
      var t, total, v := p.threshold, p.totalWeight, p.votes;
      assert Further(v, v, total);
      if CurrentStatus(p, block) == Ok(Passed) {
        EarlyPassStays(t, total, v, v, true);
      } else if CurrentStatus(p, block) == Ok(Rejected) {
        EarlyRejectSound(t, total, v, v, true);
      }
    }
  }

  /** A verdict survives later votes. */
  lemma VerdictSurvivesVote(p: Proposal, votes: Votes, block: Block)
    requires Further(p.votes, votes, p.totalWeight) && !p.expires.IsExpired(block)
    requires VerdictHolds(p, block) && (p.status == Passed || p.status == Rejected)
    ensures VerdictHolds(p.(votes := votes), block)
  {
    var t, total, v := p.threshold, p.totalWeight, p.votes;
    if p.status == Passed {
      EarlyPassStays(t, total, v, votes, true);
      EarlyPassStays(t, total, v, votes, false);
    } else {
      EarlyRejectStays(t, total, v, votes);
      EarlyRejectSound(t, total, v, votes, true);
    }
  }

  /** Deadlines do not come back, so time alone never spoils a verdict. */
  lemma VerdictSurvivesTime(p: Proposal, now: Block, later: Block)
    requires VerdictHolds(p, now) && now.NotAfter(later)
    ensures VerdictHolds(p, later)
  {
  }

  // ------------------------------------------------------------------- steps

  /** Ids are never reused: a new proposal gets one that no proposal and no ballot has. */
  lemma OpenKeeps(b: Board, block: Block, draft: Proposal)
    requires Consistent(b, block) && IsDraft(draft, block)
    ensures OpenProposal(b, block, draft).Ok? ==>
              var (c, id) := OpenProposal(b, block, draft).value;
              && Consistent(c, block) && id !in b.proposals && id !in b.ballots && id == c.count
              && c.proposals == b.proposals[id := c.proposals[id]]
              && c.ballots == b.ballots[id := map[draft.proposer := Ballot(draft.votes.yes, Yes)]]
              && c.proposals[id] == draft.(status := c.proposals[id].status)
  {
    if OpenProposal(b, block, draft).Ok? {
      var (c, id) := OpenProposal(b, block, draft).value;
      var ballot := Ballot(draft.votes.yes, Yes);
      assert BallotsOf(c, id) == map[][draft.proposer := ballot];
      forall vote: Vote
        ensures c.proposals[id].votes.Of(vote) == WeightIn(BallotsOf(c, id), {vote})
      {
        WeightOfNone({vote});
        WeightOfOneMore(map[], draft.proposer, ballot, {vote});
      }
      forall i | i in c.proposals
        ensures Tallied(c.proposals[i], BallotsOf(c, i))
        ensures Bounded(c.proposals[i]) ==> VerdictHolds(c.proposals[i], block)
      {
        if i != id {
          assert Tallied(b.proposals[i], BallotsOf(b, i));
        } else if Bounded(draft) {
          FreshVerdictHolds(draft, block);
        }
      }
    }
  }

  lemma AddVoteTally(v: Votes, vote: Vote, power: Uint64, other: Vote)
    requires v.AddVote(vote, power).Ok?
    ensures v.AddVote(vote, power).value.Of(other) == v.Of(other) + (if other == vote then power else 0)
    ensures v.AddVote(vote, power).value.Sum() == v.Sum() + power
  {
  }

  /** The proposal after a vote: nothing but its tally and its status is new, and its
      verdict still holds. */
  lemma VotedVerdict(p: Proposal, q: Proposal, block: Block)
    requires Bounded(p) ==> VerdictHolds(p, block)
    requires Bounded(q) && Further(p.votes, q.votes, p.totalWeight) && !p.expires.IsExpired(block)
    requires TakesVotes(p.status) && q == p.(votes := q.votes, status := q.status)
    requires CurrentStatus(p.(votes := q.votes), block) == Ok(q.status)
    ensures VerdictHolds(q, block)
  {
    if p.status == Open {
      FreshVerdictHolds(p.(votes := q.votes), block);
    } else {
      VerdictSurvivesVote(p, q.votes, block);
    }
  }

  /** A vote is tallied under its ballot, and a decided proposal stays decided. */
  lemma VotedTally(p: Proposal, ballots: Ballots, voter: Addr, power: Uint64, vote: Vote, votes: Votes)
    requires Tallied(p, ballots) && voter !in ballots && p.votes.AddVote(vote, power) == Ok(votes)
    ensures Tallied(p.(votes := votes), ballots[voter := Ballot(power, vote)])
  {
    forall option: Vote
      ensures votes.Of(option) == WeightIn(ballots[voter := Ballot(power, vote)], {option})
    {
      assert p.votes.Of(option) == WeightIn(ballots, {option});
      AddVoteTally(p.votes, vote, power, option);
      WeightOfOneMore(ballots, voter, Ballot(power, vote), {option});
    }
  }

  lemma NewProposalIsNotExecuted(b: Board, block: Block, draft: Proposal)
    requires draft.status == Open && OpenProposal(b, block, draft).Ok?
    ensures var (c, id) := OpenProposal(b, block, draft).value; c.proposals[id].status != Executed
  {
    StatusMoves(draft, block);
  }

  /** Only an open proposal gets a new status, and never the executed one. */
  lemma StatusMoves(p: Proposal, block: Block)
    ensures CurrentStatus(p, block).Ok? ==>
              var status := CurrentStatus(p, block).value;
              (p.status != Open ==> status == p.status) && (status == Executed ==> p.status == Executed)
  {
  }

  /** One proposal and its ballots replaced by consistent ones. */
  lemma ReplacedConsistent(b: Board, c: Board, block: Block, id: nat)
    requires Consistent(b, block) && id in b.proposals && id in c.proposals && c.count == b.count
    requires c.proposals == b.proposals[id := c.proposals[id]] && c.ballots == b.ballots[id := BallotsOf(c, id)]
    requires Tallied(c.proposals[id], BallotsOf(c, id))
    requires Bounded(c.proposals[id]) ==> VerdictHolds(c.proposals[id], block)
    ensures Consistent(c, block)
  {
    hide Tallied, Bounded, VerdictHolds;
    forall i | i in c.proposals
      ensures Tallied(c.proposals[i], BallotsOf(c, i))
    {
      if i != id {
        assert Tallied(b.proposals[i], BallotsOf(b, i));
      }
    }
  }

  lemma CastVoteKeeps(b: Board, block: Block, id: nat, voter: Addr, power: Uint64, vote: Vote)
    returns (p: Proposal, q: Proposal)
    requires Consistent(b, block) && Votable(b, block, id).Ok?
    ensures Votable(b, block, id) == Ok(p)
    ensures var r := CastVote(b, block, id, p, voter, power, vote);
            r.Ok? ==>
              && Consistent(r.value, block)
              && r.value == b.(proposals := b.proposals[id := q],
                               ballots := b.ballots[id := BallotsOf(b, id)[voter := Ballot(power, vote)]])
              && voter !in BallotsOf(b, id)
              && (p.status != Open ==> q.status == p.status) && q.status != Executed
              && q == p.(votes := q.votes, status := q.status)
              && p.votes.AddVote(vote, power) == Ok(q.votes)
  {
    hide CurrentStatus, VerdictHolds, Tallied, Votes.AddVote, Bounded;
    p := Votable(b, block, id).value;
    q := p;
    var r := CastVote(b, block, id, p, voter, power, vote);
    if r.Ok? {
      var c := r.value;
      q := c.proposals[id];
      VotedTally(p, BallotsOf(b, id), voter, power, vote, q.votes);
      SameTally(p.(votes := q.votes), q, BallotsOf(c, id));
      StatusMoves(p.(votes := q.votes), block);
      if Bounded(q) {
        MoreVotes(p, q, vote, power);
        VotedVerdict(p, q, block);
      }
      ReplacedConsistent(b, c, block, id);
    }
  }

  lemma SameTally(p: Proposal, q: Proposal, ballots: Ballots)
    requires Tallied(p, ballots) && q.votes == p.votes
    ensures Tallied(q, ballots)
  {
  }

  lemma MoreVotes(p: Proposal, q: Proposal, vote: Vote, power: Uint64)
    requires p.votes.AddVote(vote, power) == Ok(q.votes) && Bounded(q) && q.totalWeight == p.totalWeight
    ensures Bounded(p) && Further(p.votes, q.votes, p.totalWeight)
  {
  }

  /** Writing back a proposal with a new status and nothing else changed. */
  lemma NewStatusKeeps(b: Board, block: Block, id: nat, p: Proposal)
    requires Consistent(b, block) && id in b.proposals
    requires p == b.proposals[id].(status := p.status)
    requires Bounded(p) ==> VerdictHolds(p, block)
    ensures Consistent(SaveProposal(b, id, p), block)
  {
    var c := SaveProposal(b, id, p);
    forall i | i in c.proposals
      ensures Tallied(c.proposals[i], BallotsOf(c, i))
    {
      assert Tallied(b.proposals[i], BallotsOf(b, i));
    }
  }

  lemma ExecuteKeeps(b: Board, block: Block, id: nat)
    requires Consistent(b, block)
    ensures var r := ExecuteProposal(b, block, id);
            r.Ok? ==>
              && Consistent(SaveProposal(b, id, r.value), block)
              && id in b.proposals && (b.proposals[id].status == Open || b.proposals[id].status == Passed)
              && r.value == b.proposals[id].(status := Executed)
  {
    var r := ExecuteProposal(b, block, id);
    if r.Ok? {
      var p := b.proposals[id];
      if Bounded(p) && p.status == Open {
        FreshVerdictHolds(p, block);
      }
      NewStatusKeeps(b, block, id, r.value);
    }
  }

  lemma CloseKeeps(b: Board, block: Block, id: nat)
    requires Consistent(b, block)
    ensures var r := CloseProposal(b, block, id);
            r.Ok? ==>
              && Consistent(SaveProposal(b, id, r.value), block)
              && id in b.proposals && r.value == b.proposals[id].(status := Rejected)
              && !b.proposals[id].status.Executed? && !b.proposals[id].status.Rejected?
              && !b.proposals[id].status.Passed?
  {
    var r := CloseProposal(b, block, id);
    if r.Ok? {
      var p := b.proposals[id];
      if Bounded(p) {
        FreshVerdictHolds(p, block);
      }
      NewStatusKeeps(b, block, id, r.value);
    }
  }

  lemma TimeKeeps(b: Board, now: Block, later: Block)
    requires Consistent(b, now) && now.NotAfter(later)
    ensures Consistent(b, later)
  {
    forall id | id in b.proposals && Bounded(b.proposals[id])
      ensures VerdictHolds(b.proposals[id], later)
    {
      VerdictSurvivesTime(b.proposals[id], now, later);
    }
  }

  // ------------------------------------------------- what a stored verdict says

  /** Everything a caller may conclude from a stored status: passed and executed proposals
      pass now and at any later block, rejected ones never pass again, whatever is voted;
      and before expiry the stored status is the current one. */
  lemma VerdictMeaning(p: Proposal, now: Block, later: Block)
    requires Bounded(p) && VerdictHolds(p, now) && now.NotAfter(later)
    ensures p.status == Passed || p.status == Executed ==> IsPassed(p, later) == Ok(true)
    ensures p.status == Rejected ==> IsPassed(p, later) == Ok(false)
    ensures p.status == Rejected && !p.expires.IsExpired(now) ==>
              forall u | Further(p.votes, u, p.totalWeight) :: IsPassed(p.(votes := u), later) == Ok(false)
    ensures !p.expires.IsExpired(later) ==> CurrentStatus(p, later) == Ok(p.status)
  {
    var t, total := p.threshold, p.totalWeight;
    if p.status == Rejected && !p.expires.IsExpired(now) {
      forall u | Further(p.votes, u, total)
        ensures IsPassed(p.(votes := u), later) == Ok(false)
      {
        EarlyRejectSound(t, total, p.votes, u, p.expires.IsExpired(later));
      }
      assert Further(p.votes, p.votes, total);
      assert IsPassed(p.(votes := p.votes), later) == Ok(false);
    }
  }
}
