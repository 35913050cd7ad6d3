/** Exactly which calls to the flex multisig trap, at any point of any run. */
module Cw3FlexTraps {
  import opened Prelude
  import opened Sums
  import opened Cw3Rounding
  import opened Cw3Proposal
  import opened Cw3Board
  import opened Cw3History
  import opened Cw3Flex
  import opened Cw3FlexTheorems
  import Cw4Group

  // --------------------------------------------------------- reachable counts

  predicate CountInReach(t: Threshold, total: nat) {
    t.AbsoluteCount? ==> t.weight <= total
  }

  /** No stored proposal asks for more votes than its recorded total, or waits to be opened. */
  predicate Counted(proposals: map<nat, Proposal>) {
    forall id | id in proposals ::
      CountInReach(proposals[id].threshold, proposals[id].totalWeight) && proposals[id].status != Pending
  }

  lemma MemberWithinTotal(w: World, a: Addr)
    requires Inv(w) && a in w.group.members
    ensures w.group.members[a] <= w.group.total
  {
    hide Consistent, LogMatches, Snapshots;
    SumAtLeast(Cw4Group.Weights(w.group.members), a);
  }

  /** A new proposal with a count out of reach traps, and so is never stored. */
  lemma NewProposalCounted(b: Board, block: Block, draft: Proposal)
    requires draft.status == Open && draft.votes.yes <= draft.totalWeight
    requires OpenProposal(b, block, draft).Ok?
    ensures CountInReach(draft.threshold, draft.totalWeight)
    ensures var (c, id) := OpenProposal(b, block, draft).value; c.proposals[id].status != Pending
  {
    hide CurrentStatus;
    StatusTrapsExactly(draft, block);
    NotPending(draft, block);
  }

  lemma NotPending(p: Proposal, block: Block)
    requires p.status != Pending && CurrentStatus(p, block).Ok?
    ensures CurrentStatus(p, block).value != Pending
  {
    hide PassRule, RejectRule;
  }

  lemma VotedNotPending(b: Board, block: Block, id: nat, voter: Addr, power: Uint64, vote: Vote)
    requires Votable(b, block, id).Ok? && CastVote(b, block, id, b.proposals[id], voter, power, vote).Ok?
    ensures CastVote(b, block, id, b.proposals[id], voter, power, vote).value.proposals[id].status != Pending
  {
    hide CurrentStatus;
    NotPending(b.proposals[id].(votes := b.proposals[id].votes.AddVote(vote, power).value), block);
  }

  lemma CountedSaved(before: map<nat, Proposal>, id: nat, q: Proposal)
    requires Counted(before) && (id in before ==> Rewritten(before[id], q))
    requires id !in before ==> CountInReach(q.threshold, q.totalWeight)
    requires q.status != Pending
    ensures Counted(before[id := q])
  {
  }

  lemma CallKeepsCounted(w: World, sender: Addr, funds: seq<Coin>, msg: Msg)
    requires Inv(w) && Counted(w.contract.board.proposals)
    requires FlexHandle(w.contract, View(w), w.now, sender, funds, msg).Ok?
    ensures Counted(FlexHandle(w.contract, View(w), w.now, sender, funds, msg).value.0.board.proposals)
  {
    hide Consistent, LogMatches, Snapshots, Cw4Group.TotalIsSum, Counted, CurrentStatus, OpenProposal, CastVote;
    var s := w.contract;
    var proposals := s.board.proposals;
    match msg
    case Propose(msgs, latest) =>
      var expires := ChooseExpiry(latest, s.config.maxVotingPeriod, w.now).value;
      var draft := FlexDraft(s, View(w), w.now, sender, w.group.members[sender], msgs, expires);
      var (c, id) := OpenProposal(s.board, w.now, draft).value;
      OpenKeeps(s.board, w.now, draft);
      MemberWithinTotal(w, sender);
      NewProposalCounted(s.board, w.now, draft);
      CountedSaved(proposals, id, c.proposals[id]);
    case CastBallot(id, vote) =>
      var power := View(w).IsVotingMember(sender, proposals[id].startHeight).value;
      var p, q := CastVoteKeeps(s.board, w.now, id, sender, power, vote);
      VotedNotPending(s.board, w.now, id, sender, power, vote);
      CountedSaved(proposals, id, q);
    case Execute(id) =>
      ExecuteKeeps(s.board, w.now, id);
      CountedSaved(proposals, id, ExecuteProposal(s.board, w.now, id).value);
    case Close(id) =>
      CloseKeeps(s.board, w.now, id);
      CountedSaved(proposals, id, CloseProposal(s.board, w.now, id).value);
    case MemberChangedHook(_) =>
  }

  lemma {:induction false} RunKeepsCounted(w: World, api: string -> bool, events: seq<Event>)
    requires Inv(w) && Counted(w.contract.board.proposals)
    ensures Counted(Run(w, api, events).contract.board.proposals)
    decreases |events|
  {
    hide Inv, FlexHandle, Counted, Cw4Group.UpdateMembers;
    if events != [] {
      var e := events[0];
      ApplyKeeps(w, api, e);
      if e.Call? && FlexHandle(w.contract, View(w), w.now, e.sender, e.funds, e.msg).Ok? {
        CallKeepsCounted(w, e.sender, e.funds, e.msg);
      }
      RunKeepsCounted(Apply(w, api, e), api, events[1..]);
    }
  }

  // -------------------------------------------------------------------- traps

  /** A vote that cannot be added to the tally, or after which the status cannot be told. */
  predicate VoteTraps(p: Proposal, vote: Vote, power: Uint64) {
    var abstain := p.votes.abstain + if vote == Abstain then power else 0;
    || p.votes.Of(vote) + power > U64_MAX
    || (p.status == Open
        && match p.threshold
           case AbsoluteCount(weight) =>
             p.totalWeight < weight && p.votes.yes + (if vote == Yes then power else 0) < weight
           case AbsolutePercentage(_) => p.totalWeight < abstain
           case ThresholdQuorum(_, _) => p.votes.Sum() + power > U64_MAX || p.totalWeight < abstain)
  }

  /** The calls that trap. A proposal does if 64 bits cannot hold the latest deadline, if the
      ids are used up, or if the group has become too small for the count. */
  predicate Traps(w: World, sender: Addr, funds: seq<Coin>, msg: Msg) {
    var config, board := w.contract.config, w.contract.board;
    match msg
    case Propose(_, latest) =>
      && CheckNativeDepositPaid(config.proposalDeposit, funds).Ok? && sender in w.group.members
      && (|| config.maxVotingPeriod.After(w.now).Err?
          || (ChooseExpiry(latest, config.maxVotingPeriod, w.now).Ok?
              && (board.count == U64_MAX || !CountInReach(config.threshold, w.group.total))))
    case CastBallot(id, vote) =>
      && Votable(board, w.now, id).Ok? && sender !in BallotsOf(board, id)
      && var power := View(w).IsVotingMember(sender, board.proposals[id].startHeight);
         power.Some? && VoteTraps(board.proposals[id], vote, power.value)
    case Execute(id) => id in board.proposals && StatusTraps(board.proposals[id], w.now)
    case Close(id) => id in board.proposals && StatusTraps(board.proposals[id], w.now)
    case MemberChangedHook(_) => false
  }

  lemma ProposeTraps(w: World, sender: Addr, funds: seq<Coin>, msgs: seq<CosmosMsg>, latest: Option<Expiration>)
    requires Inv(w)
    ensures FlexPropose(w.contract, View(w), w.now, sender, funds, msgs, latest) == Err(Panic)
            <==> Traps(w, sender, funds, Propose(msgs, latest))
  {
    hide Inv, CurrentStatus;
    var s := w.contract;
    if sender in w.group.members {
      MemberWithinTotal(w, sender);
      if ChooseExpiry(latest, s.config.maxVotingPeriod, w.now).Ok? {
        var expires := ChooseExpiry(latest, s.config.maxVotingPeriod, w.now).value;
        StatusTrapsExactly(FlexDraft(s, View(w), w.now, sender, w.group.members[sender], msgs, expires), w.now);
      }
    }
  }

  lemma CastTraps(b: Board, block: Block, id: nat, voter: Addr, power: Uint64, vote: Vote)
    requires Votable(b, block, id).Ok?
    ensures CastVote(b, block, id, b.proposals[id], voter, power, vote) == Err(Panic)
            <==> voter !in BallotsOf(b, id) && VoteTraps(b.proposals[id], vote, power)
  {
    hide CurrentStatus;
    var p := b.proposals[id];
    if p.votes.AddVote(vote, power).Ok? {
      StatusTrapsExactly(p.(votes := p.votes.AddVote(vote, power).value), block);
    }
  }

  /** In particular nobody can abstain, on an open percentage proposal with or without a
      quorum, with more weight than the recorded total has left for abstentions. */
  lemma AbstentionTrapsExactly(b: Board, block: Block, id: nat, voter: Addr, power: Uint64)
    requires Votable(b, block, id).Ok? && voter !in BallotsOf(b, id) && b.proposals[id].status == Open
    ensures var p := b.proposals[id];
            var abstain := p.votes.abstain + power;
            CastVote(b, block, id, p, voter, power, Abstain) == Err(Panic) <==>
              match p.threshold
              case AbsoluteCount(weight) => abstain > U64_MAX || (p.totalWeight < weight && p.votes.yes < weight)
              case AbsolutePercentage(_) => abstain > p.totalWeight
              case ThresholdQuorum(_, _) => p.votes.Sum() + power > U64_MAX || abstain > p.totalWeight
  {
    CastTraps(b, block, id, voter, power, Abstain);
  }

  lemma DecisionTraps(w: World, sender: Addr, id: nat)
    ensures FlexExecute(w.contract, View(w), w.now, sender, id) == Err(Panic)
            <==> id in w.contract.board.proposals && StatusTraps(w.contract.board.proposals[id], w.now)
    ensures FlexClose(w.contract, w.now, id) == Err(Panic)
            <==> id in w.contract.board.proposals && StatusTraps(w.contract.board.proposals[id], w.now)
  {
    hide CurrentStatus;
    if id in w.contract.board.proposals {
      StatusTrapsExactly(w.contract.board.proposals[id], w.now);
    }
  }

  /** Which calls trap, at any point of any run: exactly those that `Traps` describes. And
      no stored count is ever out of reach: the group may shrink, but a proposal that asks
      too much of it traps before it is stored. */
  lemma FlexTrapsExactly(genesis: World, api: string -> bool, events: seq<Event>, sender: Addr, funds: seq<Coin>,
                         msg: Msg)
    requires Genesis(genesis)
    ensures var w := Run(genesis, api, events);
            && (FlexHandle(w.contract, View(w), w.now, sender, funds, msg) == Err(Panic)
                <==> Traps(w, sender, funds, msg))
            && Counted(w.contract.board.proposals)
  {
    hide Inv, Run, Counted;
    StartsCounted(genesis);
    GenesisInv(genesis);
    RunKeeps(genesis, api, events);
    RunKeepsCounted(genesis, api, events);
    HandleTraps(Run(genesis, api, events), sender, funds, msg);
  }

  lemma StartsCounted(genesis: World)
    requires Genesis(genesis)
    ensures Counted(genesis.contract.board.proposals)
  {
  }

  lemma HandleTraps(w: World, sender: Addr, funds: seq<Coin>, msg: Msg)
    requires Inv(w)
    ensures FlexHandle(w.contract, View(w), w.now, sender, funds, msg) == Err(Panic) <==> Traps(w, sender, funds, msg)
  {
    hide Inv, FlexPropose, FlexExecute, FlexClose, CastVote, VoteTraps, StatusTraps;
    match msg
    case Propose(msgs, latest) => ProposeTraps(w, sender, funds, msgs, latest);
    case CastBallot(id, vote) =>
      var b := w.contract.board;
      if Votable(b, w.now, id).Ok? {
        var power := View(w).IsVotingMember(sender, b.proposals[id].startHeight);
        if power.Some? {
          CastTraps(b, w.now, id, sender, power.value, vote);
        }
      }
    case Execute(id) => DecisionTraps(w, sender, id);
    case Close(id) => DecisionTraps(w, sender, id);
    case MemberChangedHook(_) =>
  }

  // -------------------------------------------------------- what goes through

  lemma DecisionGoesThrough(w: World, sender: Addr, id: nat)
    requires Counted(w.contract.board.proposals)
    ensures var s := w.contract;
            FlexClose(s, w.now, id).Ok? <==>
              id in s.board.proposals
              && var p := s.board.proposals[id];
                 p.status == Open && p.expires.IsExpired(w.now) && IsPassed(p, w.now) == Ok(false)
    ensures var s := w.contract;
            FlexExecute(s, View(w), w.now, sender, id).Ok? <==>
              id in s.board.proposals && Authorized(s.config, View(w), sender)
              && var p := s.board.proposals[id];
                 p.status == Passed || (p.status == Open && IsPassed(p, w.now) == Ok(true))
  {
    hide PassRule, Authorized;
    var s := w.contract;
    if id in s.board.proposals {
      var p := s.board.proposals[id];
      assert CountInReach(p.threshold, p.totalWeight) && p.status != Pending;
      if p.expires.IsExpired(w.now) {
        RejectDefined(p, w.now);
      }
    }
  }

  /** After the deadline, where the rule for passing can be told, so can the one for rejecting. */
  lemma RejectDefined(p: Proposal, block: Block)
    requires CountInReach(p.threshold, p.totalWeight) && p.expires.IsExpired(block)
    ensures IsPassed(p, block).Ok? ==> IsRejected(p, block).Ok?
  {
    hide VotesNeeded;
  }

  /** In every run, what it takes to end a proposal: closing goes through exactly for an open
      one that is expired and does not pass; execution exactly, by the authorized, for one
      that is stored as passed or passes now. So one that is rejected early by votes can be
      neither closed nor executed. */
  lemma DecisionsExactly(genesis: World, api: string -> bool, events: seq<Event>,
                         sender: Addr, funds: seq<Coin>, id: nat)
    requires Genesis(genesis)
    ensures var w := Run(genesis, api, events);
            var s := w.contract;
            && (FlexHandle(s, View(w), w.now, sender, funds, Close(id)).Ok? <==>
                  id in s.board.proposals
                  && var p := s.board.proposals[id];
                     p.status == Open && p.expires.IsExpired(w.now) && IsPassed(p, w.now) == Ok(false))
            && (FlexHandle(s, View(w), w.now, sender, funds, Execute(id)).Ok? <==>
                  id in s.board.proposals && Authorized(s.config, View(w), sender)
                  && var p := s.board.proposals[id];
                     p.status == Passed || (p.status == Open && IsPassed(p, w.now) == Ok(true)))
  {
    hide Inv, Run, Counted, FlexClose, FlexExecute, Authorized, IsPassed;
    FlexTrapsExactly(genesis, api, events, sender, funds, Close(id));
    DecisionGoesThrough(Run(genesis, api, events), sender, id);
  }

  // -------------------------------------------------- within the recorded total

  function Subject(msg: Msg): Option<nat> {
    match msg
    case CastBallot(id, _) => Some(id)
    case Execute(id) => Some(id)
    case Close(id) => Some(id)
    case _ => None
  }

  /** No subtraction underflows while the possible tally of a proposal is within its recorded
      total: then no vote on it, no execution and no closing of it traps, in any run. */
  lemma BoundedNeverTraps(genesis: World, api: string -> bool, events: seq<Event>,
                          sender: Addr, funds: seq<Coin>, msg: Msg)
    requires Genesis(genesis)
    ensures var w := Run(genesis, api, events);
            Inv(w) && (Subject(msg).Some? && Subject(msg).value in w.contract.board.proposals
                       && PotentialOf(w, Subject(msg).value)
                          <= w.contract.board.proposals[Subject(msg).value].totalWeight ==>
                       FlexHandle(w.contract, View(w), w.now, sender, funds, msg) != Err(Panic))
  {
    hide Inv, Run, Traps, PotentialOf, FlexHandle;
    GenesisInv(genesis);
    RunKeeps(genesis, api, events);
    FlexTrapsExactly(genesis, api, events, sender, funds, msg);
    var w := Run(genesis, api, events);
    if Subject(msg).Some? && Subject(msg).value in w.contract.board.proposals {
      var id := Subject(msg).value;
      if PotentialOf(w, id) <= w.contract.board.proposals[id].totalWeight {
        TallyWithinPotential(w, id);
        if sender !in BallotsOf(w.contract.board, id) {
          RoomForVote(w, id, sender);
        }
        BoundedFits(w, sender, funds, msg, id);
      }
    }
  }

  lemma BoundedFits(w: World, sender: Addr, funds: seq<Coin>, msg: Msg, id: nat)
    requires Subject(msg) == Some(id) && id in w.contract.board.proposals && Counted(w.contract.board.proposals)
    requires w.contract.board.proposals[id].votes.Sum() <= w.contract.board.proposals[id].totalWeight
    requires var p := w.contract.board.proposals[id];
             var power := View(w).IsVotingMember(sender, p.startHeight);
             sender !in BallotsOf(w.contract.board, id) && power.Some? ==> p.votes.Sum() + power.value <= p.totalWeight
    ensures !Traps(w, sender, funds, msg)
  {
    assert CountInReach(w.contract.board.proposals[id].threshold, w.contract.board.proposals[id].totalWeight);
  }
}
