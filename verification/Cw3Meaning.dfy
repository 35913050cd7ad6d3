/** What proposing, voting, passing, executing and closing mean, told from the ballots, the
    clock and the threshold alone (packages/cw3/src/proposal.rs and the handlers of both
    multisigs), and that the rules and the board do just that. */
module Cw3Meaning {
  import opened Prelude
  import opened Sums
  import opened Cw3Rounding
  import opened Cw3Proposal
  import opened Cw3Board

  // ------------------------------------------------------------------ verdicts

  /** Enough votes for a share of some weight. */
  predicate Reaches(votes: nat, weight: int, share: Percentage) {
    0 <= weight <= U64_MAX && votes >= VotesNeeded(weight, share)
  }

  predicate Exceeds(votes: nat, weight: int, share: Percentage) {
    0 <= weight <= U64_MAX && votes > VotesNeeded(weight, share)
  }

  /** What it takes to pass: yes ballots with the weight that is asked for; or with the share
      asked for of all weight that has not abstained, where under a quorum only weight that
      took part counts once voting is over, and enough of the total must have taken part.
      Ballots for no and vetoes count for nothing but taking part. */
  ghost predicate Carried(t: Threshold, total: Uint64, ballots: Ballots, over: bool) {
    var yes, abstained := WeightIn(ballots, {Yes}), WeightIn(ballots, {Abstain});
    match t
    case AbsoluteCount(weight) => yes >= weight
    case AbsolutePercentage(share) => Reaches(yes, total - abstained, share)
    case ThresholdQuorum(share, quorum) =>
      var cast := WeightIn(ballots, {Yes, No, Abstain, Veto});
      && cast <= U64_MAX && Reaches(cast, total, quorum)
      && Reaches(yes, if over then WeightIn(ballots, {Yes, No, Veto}) else total - abstained, share)
  }

  /** What it takes to be voted down: ballots for no, vetoes not counted, with more weight
      than what the threshold leaves to them. */
  ghost predicate VotedDown(t: Threshold, total: Uint64, ballots: Ballots, over: bool) {
    var no, abstained := WeightIn(ballots, {No}), WeightIn(ballots, {Abstain});
    match t
    case AbsoluteCount(weight) => weight <= total && no > total - weight
    case AbsolutePercentage(share) => Exceeds(no, total - abstained, ONE - share)
    case ThresholdQuorum(share, _) =>
      if over then Exceeds(no, WeightIn(ballots, {Yes, No, Veto}), ONE - share)
      else Exceeds(no, total - abstained, ONE - share)
  }

  /** The status of a proposal that has been open so far. */
  ghost function Verdict(p: Proposal, ballots: Ballots, now: Block): Status {
    var over := p.expires.IsExpired(now);
    if Carried(p.threshold, p.totalWeight, ballots, over) then Passed
    else if over || VotedDown(p.threshold, p.totalWeight, ballots, over) then Rejected
    else Open
  }

  /** All tallies of a proposal, from its ballots. */
  lemma TalliesAre(p: Proposal, ballots: Ballots)
    requires Tallied(p, ballots)
    ensures p.votes.yes == WeightIn(ballots, {Yes}) && p.votes.no == WeightIn(ballots, {No})
    ensures p.votes.abstain == WeightIn(ballots, {Abstain})
    ensures p.votes.Sum() == WeightIn(ballots, {Yes, No, Abstain, Veto})
    ensures p.votes.Sum() - p.votes.abstain == WeightIn(ballots, {Yes, No, Veto})
  {
    hide WeightIn;
    VotesSumIsWeight(p, ballots);
    WeightSplit(ballots, {Yes, No, Veto}, {Abstain});
    assert {Yes, No, Veto} + {Abstain} == {Yes, No, Abstain, Veto} == EVERY_OPTION;
    assert p.votes.Of(Yes) == WeightIn(ballots, {Yes}) && p.votes.Of(No) == WeightIn(ballots, {No});
    assert p.votes.Of(Abstain) == WeightIn(ballots, {Abstain});
  }

  /** `is_passed` says exactly what the ballots say. */
  lemma PassedExactly(p: Proposal, ballots: Ballots, now: Block)
    requires Tallied(p, ballots)
    ensures IsPassed(p, now) == Ok(true)
            <==> Carried(p.threshold, p.totalWeight, ballots, p.expires.IsExpired(now))
  {
    hide WeightIn, VotesNeeded, Tallied;
    TalliesAre(p, ballots);
  }

  /** And so does `current_status`, wherever it does not trap. */
  lemma StatusExactly(p: Proposal, ballots: Ballots, now: Block)
    requires Tallied(p, ballots) && p.status == Open && !StatusTraps(p, now)
    ensures CurrentStatus(p, now) == Ok(Verdict(p, ballots, now))
  {
    hide WeightIn, VotesNeeded, Tallied;
    TalliesAre(p, ballots);
    PassedExactly(p, ballots, now);
    StatusTrapsExactly(p, now);
  }

  /** Votes for no and vetoes are interchangeable for passing. */
  lemma NoAndVetoAlike(t: Threshold, total: Uint64, v: Votes, u: Votes, expired: bool)
    requires v.yes == u.yes && v.abstain == u.abstain && v.Sum() == u.Sum()
    ensures PassRule(t, total, v, expired) == PassRule(t, total, u, expired)
  {
  }

  // ----------------------------------------------------------------- deadlines

  /** A deadline can be compared with the period: both are heights, or both are times. */
  predicate SameKind(latest: Option<Expiration>, period: Duration) {
    match latest
    case Some(AtHeight(_)) => period.Height?
    case Some(AtTime(_)) => period.Time?
    case _ => true
  }

  /** The deadline is the one asked for, or the end of the voting period if that is earlier. */
  predicate Deadline(latest: Option<Expiration>, period: Duration, now: Block, expires: Expiration) {
    match period
    case Height(blocks) =>
      && expires.AtHeight?
      && expires.height == (match latest
                            case Some(AtHeight(h)) => if h < now.height + blocks then h else now.height + blocks
                            case _ => now.height + blocks)
    case Time(seconds) =>
      var end := now.time + seconds * 1_000_000_000;
      && expires.AtTime?
      && expires.time == (match latest
                          case Some(AtTime(t)) => if t < end then t else end
                          case _ => end)
  }

  lemma ExpiryExactly(latest: Option<Expiration>, period: Duration, now: Block)
    ensures var r := ChooseExpiry(latest, period, now);
            && (r.Ok? <==> period.Fits(now) && SameKind(latest, period))
            && (r.Ok? ==> Deadline(latest, period, now, r.value))
  {
  }

  /** So when the voting period has passed, so has the deadline. */
  lemma OverAfterPeriod(latest: Option<Expiration>, period: Duration, now: Block, expires: Expiration, later: Block)
    requires Deadline(latest, period, now, expires) && period.PassedBetween(now, later)
    ensures expires.IsExpired(later)
  {
  }

  // --------------------------------------------------------------------- steps

  /** A proposal that the board did not have before, with a yes ballot of its proposer. */
  ghost predicate Opened(b: Board, c: Board, now: Block, p: Proposal) {
    var ballots := map[p.proposer := Ballot(p.votes.yes, Yes)];
    && b.count < U64_MAX && c.count == b.count + 1 && c.count !in b.proposals
    && c.proposals == b.proposals[c.count := p] && c.ballots == b.ballots[c.count := ballots]
    && p.votes == Votes(p.votes.yes, 0, 0, 0) && p.startHeight == now.height
    && p.status == Verdict(p, ballots, now)
  }

  lemma OpensExactly(b: Board, now: Block, draft: Proposal)
    requires Consistent(b, now) && IsDraft(draft, now) && !StatusTraps(draft, now)
    ensures var r := OpenProposal(b, now, draft);
            && (r.Ok? <==> b.count < U64_MAX)
            && (r.Ok? ==>
                  && r.value.1 == r.value.0.count && r.value.1 in r.value.0.proposals
                  && var p := r.value.0.proposals[r.value.1];
                     p == draft.(status := p.status) && Opened(b, r.value.0, now, p))
  {
    hide CurrentStatus, WeightIn, VerdictHolds, Verdict;
    StatusTrapsExactly(draft, now);
    if OpenProposal(b, now, draft).Ok? {
      OpenKeeps(b, now, draft);
      var (c, id) := OpenProposal(b, now, draft).value;
      assert Tallied(c.proposals[id], BallotsOf(c, id));
      SameTally(c.proposals[id], draft, BallotsOf(c, id));
      StatusExactly(draft, BallotsOf(c, id), now);
      SameVerdict(draft, c.proposals[id], BallotsOf(c, id), now);
    }
  }

  lemma SameVerdict(p: Proposal, q: Proposal, ballots: Ballots, now: Block)
    requires q.threshold == p.threshold && q.totalWeight == p.totalWeight && q.expires == p.expires
    ensures Verdict(q, ballots, now) == Verdict(p, ballots, now)
  {
    hide Carried, VotedDown;
  }

  /** A vote can be taken from this voter, who is not asked for any weight here. */
  predicate TakesVoteOf(b: Board, now: Block, id: nat, voter: Addr) {
    && id in b.proposals
    && (b.proposals[id].status == Open || b.proposals[id].status == Passed || b.proposals[id].status == Rejected)
    && !b.proposals[id].expires.IsExpired(now)
    && (id in b.ballots ==> voter !in b.ballots[id])
  }

  /** One more ballot, tallied under its option; the status is told anew where it was open,
      and nothing else is touched. */
  ghost predicate Recorded(b: Board, c: Board, now: Block, id: nat, voter: Addr, power: Uint64, vote: Vote) {
    && id in b.proposals && id in c.proposals && id in c.ballots
    && var p, q := b.proposals[id], c.proposals[id];
       && c == b.(proposals := b.proposals[id := q], ballots := b.ballots[id := c.ballots[id]])
       && c.ballots[id] == (if id in b.ballots then b.ballots[id] else map[])[voter := Ballot(power, vote)]
       && q == p.(votes := q.votes, status := q.status)
       && (forall option: Vote :: q.votes.Of(option) == p.votes.Of(option) + (if option == vote then power else 0))
       && q.status == (if p.status == Open then Verdict(p, c.ballots[id], now) else p.status)
  }

  lemma AddVoteTraps(v: Votes, vote: Vote, power: Uint64)
    ensures v.AddVote(vote, power).Err? ==> v.AddVote(vote, power) == Err(Panic)
  {
  }

  lemma RecordsExactly(b: Board, now: Block, id: nat, voter: Addr, power: Uint64, vote: Vote)
    requires Consistent(b, now) && Votable(b, now, id).Ok?
    ensures var r := CastVote(b, now, id, b.proposals[id], voter, power, vote);
            && (r.Ok? || r == Err(Panic) <==> voter !in BallotsOf(b, id))
            && (r.Ok? ==> Recorded(b, r.value, now, id, voter, power, vote))
  {
    hide CurrentStatus, WeightIn, VerdictHolds, Verdict, Votes.AddVote, Tallied, Bounded, StatusTraps;
    var p := b.proposals[id];
    var r := CastVote(b, now, id, p, voter, power, vote);
    AddVoteTraps(p.votes, vote, power);
    if p.votes.AddVote(vote, power).Ok? {
      StatusTrapsExactly(p.(votes := p.votes.AddVote(vote, power).value), now);
    }
    if r.Ok? {
      var _, q := CastVoteKeeps(b, now, id, voter, power, vote);
      var c := r.value;
      var counted := p.(votes := q.votes);
      forall option: Vote
        ensures q.votes.Of(option) == p.votes.Of(option) + (if option == vote then power else 0)
      {
        AddVoteTally(p.votes, vote, power, option);
      }
      assert Tallied(c.proposals[id], BallotsOf(c, id));
      SameTally(q, counted, BallotsOf(c, id));
      assert CurrentStatus(counted, now) == Ok(q.status);
      if p.status == Open {
        StatusTrapsExactly(counted, now);
        StatusExactly(counted, BallotsOf(c, id), now);
        SameVerdict(counted, p, BallotsOf(c, id), now);
      } else {
        StatusMoves(counted, now);
      }
    }
  }

  /** Only the status of one proposal is another one. */
  predicate Ended(b: Board, c: Board, id: nat, status: Status) {
    id in b.proposals && c == b.(proposals := b.proposals[id := b.proposals[id].(status := status)])
  }

  /** May be executed: stored as passed, or open and passing by now. */
  ghost predicate MayExecute(b: Board, now: Block, id: nat) {
    && id in b.proposals
    && var p := b.proposals[id];
       || p.status == Passed
       || (p.status == Open && Carried(p.threshold, p.totalWeight, BallotsOf(b, id), p.expires.IsExpired(now)))
  }

  lemma ExecutesExactly(b: Board, now: Block, id: nat)
    requires Consistent(b, now)
    ensures var r := ExecuteProposal(b, now, id);
            && (r.Ok? <==> MayExecute(b, now, id))
            && (r.Ok? ==> r.value == b.proposals[id].(status := Executed)
                          && Ended(b, SaveProposal(b, id, r.value), id, Executed))
  {
    hide WeightIn, VerdictHolds, Carried, PassRule, RejectRule;
    if id in b.proposals {
      assert Tallied(b.proposals[id], BallotsOf(b, id));
      PassedExactly(b.proposals[id], BallotsOf(b, id), now);
    }
  }

  /** May be closed: open, its deadline over, and not passing; told where nothing traps. */
  ghost predicate MayClose(b: Board, now: Block, id: nat) {
    && id in b.proposals
    && var p := b.proposals[id];
       && p.status == Open && p.expires.IsExpired(now) && !StatusTraps(p, now)
       && !Carried(p.threshold, p.totalWeight, BallotsOf(b, id), true)
  }

  lemma ClosesExactly(b: Board, now: Block, id: nat)
    requires Consistent(b, now) && (id in b.proposals ==> b.proposals[id].status != Pending)
    ensures var r := CloseProposal(b, now, id);
            && (r.Ok? <==> MayClose(b, now, id))
            && (r.Ok? ==> r.value == b.proposals[id].(status := Rejected)
                          && Ended(b, SaveProposal(b, id, r.value), id, Rejected))
  {
    hide WeightIn, VerdictHolds, Carried, PassRule, RejectRule, StatusTraps;
    if id in b.proposals && b.proposals[id].status == Open {
      var p := b.proposals[id];
      assert Tallied(p, BallotsOf(b, id));
      PassedExactly(p, BallotsOf(b, id), now);
      StatusTrapsExactly(p, now);
    }
  }
}
