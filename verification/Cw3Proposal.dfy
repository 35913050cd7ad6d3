/** A proposal, its tally and the rule that decides it (packages/cw3/src/proposal.rs).
    Unsigned subtraction and addition trap on overflow; that is the `Panic` error. */
module Cw3Proposal {
  import opened Prelude
  import opened Cw3Rounding

  datatype Vote = Yes | No | Abstain | Veto

  datatype Votes = Votes(yes: Uint64, no: Uint64, abstain: Uint64, veto: Uint64) {
    function Sum(): nat {
      yes + no + abstain + veto
    }

    function Total(): Result<Uint64> {
      if Sum() <= U64_MAX then Ok(Sum()) else Err(Panic)
    }

    function Of(vote: Vote): Uint64 {
      match vote
      case Yes => yes
      case No => no
      case Abstain => abstain
      case Veto => veto
    }

    function AddVote(vote: Vote, weight: Uint64): Result<Votes> {
      var sum :- CheckedAdd64(Of(vote), weight, Panic);
      Ok(match vote
         case Yes => this.(yes := sum)
         case No => this.(no := sum)
         case Abstain => this.(abstain := sum)
         case Veto => this.(veto := sum))
    }
  }

  datatype Threshold =
    | AbsoluteCount(weight: Uint64)
    | AbsolutePercentage(percentage: Percentage)
    | ThresholdQuorum(threshold: Percentage, quorum: Percentage)

  /** The part of `Threshold::validate` that a threshold with percentages up to one can fail. */
  predicate ValidThreshold(t: Threshold, totalWeight: nat) {
    match t
    case AbsoluteCount(weight) => 0 < weight <= totalWeight
    case AbsolutePercentage(percentage) => 0 < percentage
    case ThresholdQuorum(threshold, quorum) => 0 < threshold && 0 < quorum
  }

  datatype Status = Pending | Open | Rejected | Passed | Executed

  datatype DepositInfo = DepositInfo(amount: Uint128, denom: Denom, refundFailedProposals: bool)

  /** What a proposal asks for; it is dispatched, never looked into. */
  type CosmosMsg = string

  datatype Proposal = Proposal(
    startHeight: nat,
    expires: Expiration,
    msgs: seq<CosmosMsg>,
    status: Status,
    threshold: Threshold,
    totalWeight: Uint64,
    votes: Votes,
    proposer: Addr,
    deposit: Option<DepositInfo>)

  /** `is_passed`, as a function of what it reads. */
  function PassRule(t: Threshold, total: Uint64, v: Votes, expired: bool): Result<bool> {
    match t
    case AbsoluteCount(weight) => Ok(v.yes >= weight)
    case AbsolutePercentage(percentage) =>
      var opinions :- CheckedSub(total, v.abstain, Panic);
      Ok(v.yes >= VotesNeeded(opinions, percentage))
    case ThresholdQuorum(threshold, quorum) =>
      var cast :- v.Total();
      if cast < VotesNeeded(total, quorum) then Ok(false)
      else
        var opinions :- CheckedSub(if expired then cast else total, v.abstain, Panic);
        Ok(v.yes >= VotesNeeded(opinions, threshold))
  }

  /** `is_rejected`, as a function of what it reads. */
  function RejectRule(t: Threshold, total: Uint64, v: Votes, expired: bool): Result<bool> {
    match t
    case AbsoluteCount(weight) =>
      var spare :- CheckedSub(total, weight, Panic);
      Ok(v.no > spare)
    case AbsolutePercentage(percentage) =>
      var opinions :- CheckedSub(total, v.abstain, Panic);
      Ok(v.no > VotesNeeded(opinions, ONE - percentage))
    case ThresholdQuorum(threshold, _) =>
      if expired then
        var cast :- v.Total();
        Ok(v.no > VotesNeeded(cast - v.abstain, ONE - threshold))
      else
        var opinions :- CheckedSub(total, v.abstain, Panic);
        Ok(v.no > VotesNeeded(opinions, ONE - threshold))
  }

  function IsPassed(p: Proposal, block: Block): Result<bool> {
    PassRule(p.threshold, p.totalWeight, p.votes, p.expires.IsExpired(block))
  }

  function IsRejected(p: Proposal, block: Block): Result<bool> {
    RejectRule(p.threshold, p.totalWeight, p.votes, p.expires.IsExpired(block))
  }

  function CurrentStatus(p: Proposal, block: Block): Result<Status> {
    if p.status != Open then Ok(p.status)
    else
      var passed :- IsPassed(p, block);
      if passed then Ok(Passed)
      else
        var rejected :- IsRejected(p, block);
        Ok(if rejected || p.expires.IsExpired(block) then Rejected else Open)
  }

  // ------------------------------------------------------------ when it traps

  /** The status of an open proposal cannot be told. */
  predicate StatusTraps(p: Proposal, block: Block) {
    p.status == Open
    && match p.threshold
       case AbsoluteCount(weight) => p.totalWeight < weight && p.votes.yes < weight
       case AbsolutePercentage(_) => p.totalWeight < p.votes.abstain
       case ThresholdQuorum(_, _) =>
         p.votes.Sum() > U64_MAX || (!p.expires.IsExpired(block) && p.totalWeight < p.votes.abstain)
  }

  /** Exactly when the status traps, whatever the tally: for a count that neither the total
      nor the yes votes reach, for more abstentions than there is weight, and for a tally
      beyond 64 bits under a quorum. */
  lemma StatusTrapsExactly(p: Proposal, block: Block)
    ensures CurrentStatus(p, block).Err? <==> StatusTraps(p, block)
    ensures CurrentStatus(p, block).Err? ==> CurrentStatus(p, block) == Err(Panic)
  {
    hide VotesNeeded;
  }

  // ------------------------------------------------------- what the rule means

  /** No more votes than the recorded total. */
  predicate Within(v: Votes, total: Uint64) {
    v.Sum() <= total
  }

  /** A tally that later votes can still produce. */
  predicate Further(v: Votes, u: Votes, total: nat) {
    v.yes <= u.yes && v.no <= u.no && v.abstain <= u.abstain && v.veto <= u.veto && u.Sum() <= total
  }

  /** Below the recorded total nothing traps, except a count no group of this size reaches. */
  lemma RulesDefined(t: Threshold, total: Uint64, v: Votes, expired: bool)
    requires Within(v, total)
    ensures PassRule(t, total, v, expired).Ok?
    ensures RejectRule(t, total, v, expired).Ok? <==> (t.AbsoluteCount? ==> t.weight <= total)
  {
  }

  /** Early pass holds on: no later vote takes it back, before or after expiry. */
  lemma EarlyPassStays(t: Threshold, total: Uint64, v: Votes, u: Votes, expired: bool)
    requires Further(v, u, total) && PassRule(t, total, v, false) == Ok(true)
    ensures PassRule(t, total, u, expired) == Ok(true)
  {
    hide VotesNeeded;
    match t
    case AbsoluteCount(_) =>
    case AbsolutePercentage(p) => NeededMonotone(total - u.abstain, total - v.abstain, p, p);
    case ThresholdQuorum(p, q) =>
      var opinions := (if expired then u.Sum() else total) - u.abstain;
      NeededMonotone(opinions, total - v.abstain, p, p);
      assert VotesNeeded(opinions, p) <= v.yes <= u.yes;
      assert VotesNeeded(total, q) <= v.Sum() <= u.Sum();
  }

  /** The tally in which everybody who has not voted yet votes no. */
  function RestVotesNo(v: Votes, total: Uint64): Votes
    requires Within(v, total)
  {
    v.(no := v.no + (total - v.Sum()))
  }

  /** Before expiry `is_passed` is exactly the certainty to pass: it holds if and only if
      every tally that can still come about passes under the rule used after expiry. */
  lemma EarlyPassExact(t: Threshold, total: Uint64, v: Votes)
    requires Within(v, total)
    ensures PassRule(t, total, v, false) == Ok(true)
            <==> forall u | Further(v, u, total) :: PassRule(t, total, u, true) == Ok(true)
  {
    hide VotesNeeded;
    if PassRule(t, total, v, false) == Ok(true) {
      forall u | Further(v, u, total)
        ensures PassRule(t, total, u, true) == Ok(true)
      {
        EarlyPassStays(t, total, v, u, true);
      }
    } else {
      var u := RestVotesNo(v, total);
      assert Further(v, v, total) && Further(v, u, total);
      assert PassRule(t, total, v, true) != Ok(true) || PassRule(t, total, u, true) != Ok(true);
    }
  }

  /** A rejection by votes is final: no tally that can still come about passes, under the
      rule before expiry or after it. */
  lemma EarlyRejectSound(t: Threshold, total: Uint64, v: Votes, u: Votes, expired: bool)
    requires Further(v, u, total) && RejectRule(t, total, v, false) == Ok(true)
    ensures PassRule(t, total, u, expired) == Ok(false)
  {
    hide VotesNeeded;
    match t
    case AbsoluteCount(_) =>
    case AbsolutePercentage(p) =>
      NeededMonotone(total - u.abstain, total - v.abstain, ONE - p, ONE - p);
      NeededComplement(total - u.abstain, p);
    case ThresholdQuorum(p, _) =>
      NeededMonotone(total - u.abstain, total - v.abstain, ONE - p, ONE - p);
      NeededMonotone(u.Sum() - u.abstain, total - v.abstain, ONE - p, ONE - p);
      NeededComplement(total - u.abstain, p);
      NeededComplement(u.Sum() - u.abstain, p);
  }

  /** A rejection by votes is not taken back by later votes. */
  lemma EarlyRejectStays(t: Threshold, total: Uint64, v: Votes, u: Votes)
    requires Further(v, u, total) && RejectRule(t, total, v, false) == Ok(true)
    ensures RejectRule(t, total, u, false) == Ok(true)
  {
    hide VotesNeeded;
    match t
    case AbsoluteCount(_) =>
    case AbsolutePercentage(p) => NeededMonotone(total - u.abstain, total - v.abstain, ONE - p, ONE - p);
    case ThresholdQuorum(p, _) => NeededMonotone(total - u.abstain, total - v.abstain, ONE - p, ONE - p);
  }

  /** A proposal is never passed and rejected at once, before or after expiry, so the
      order of the two checks in `current_status` does not matter. */
  lemma NeverPassedAndRejected(t: Threshold, total: Uint64, v: Votes, expired: bool)
    requires Within(v, total)
    ensures !(PassRule(t, total, v, expired) == Ok(true) && RejectRule(t, total, v, expired) == Ok(true))
  {
    hide VotesNeeded;
    if RejectRule(t, total, v, expired) == Ok(true) {
      if expired && t.ThresholdQuorum? {
        NeededComplement(v.Sum() - v.abstain, t.threshold);
      } else {
        EarlyRejectSound(t, total, v, v, expired);
      }
    }
  }

  /** The best that a proposal can still get: all remaining weight votes yes. */
  function RestVotesYes(v: Votes, total: Uint64): Votes
    requires Within(v, total)
  {
    v.(yes := v.yes + (total - v.Sum()))
  }

  /** A proposal can still pass exactly when it would pass with all remaining votes yes. */
  lemma BestCaseIsRestYes(t: Threshold, total: Uint64, v: Votes)
    requires Within(v, total)
    ensures (exists u :: Further(v, u, total) && PassRule(t, total, u, true) == Ok(true))
            <==> PassRule(t, total, RestVotesYes(v, total), true) == Ok(true)
  {
    hide VotesNeeded;
    var best := RestVotesYes(v, total);
    assert Further(v, best, total);
    forall u | Further(v, u, total) && PassRule(t, total, u, true) == Ok(true)
      ensures PassRule(t, total, best, true) == Ok(true)
    {
      match t
      case AbsoluteCount(_) =>
      case AbsolutePercentage(p) =>
        NeededGrowsSlowly(total - u.abstain, total - v.abstain, p);
      case ThresholdQuorum(p, q) =>
        assert best.Sum() == total;
        NeededGrowsSlowly(u.Sum() - u.abstain, total - v.abstain, p);
    }
  }

  /** How far `is_rejected` lags behind certainty, with no vetoes and all remaining weight
      voting yes: a percentage proposal that is not rejected before its deadline, with a
      quorum or without, is at most one vote short; under a count, it is short by no more
      than the abstentions, which it counts like votes against.
      (With vetoes it can lag by their whole weight: they are not counted against it.) */
  lemma UnrejectedIsWithinOne(t: Threshold, total: Uint64, v: Votes)
    requires Within(v, total) && v.veto == 0
    requires RejectRule(t, total, v, false) == Ok(false)
    ensures var best := RestVotesYes(v, total).yes;
            match t
            case AbsoluteCount(weight) => weight <= best + v.abstain
            case AbsolutePercentage(p) => VotesNeeded(total - v.abstain, p) <= best + 1
            case ThresholdQuorum(p, _) => VotesNeeded(total - v.abstain, p) <= best + 1
  {
    hide VotesNeeded;
    match t
    case AbsoluteCount(_) =>
    case AbsolutePercentage(p) => NeededComplement(total - v.abstain, p);
    case ThresholdQuorum(p, _) => NeededComplement(total - v.abstain, p);
  }
}
