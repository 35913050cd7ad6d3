/** Runs of the fixed multisig: tallies within the recorded total, verdicts that stay
    right, and messages that are dispatched once. */
module Cw3FixedTheorems {
  import opened Prelude
  import opened Sums
  import opened Cw3Rounding
  import opened Cw3Proposal
  import opened Cw3Board
  import opened Cw3History
  import opened Cw3Fixed

  datatype World = World(contract: State, now: Block, log: seq<Effect>)

  datatype Event = Call(sender: Addr, msg: Msg) | Tick(later: Block)

  /** A failed call changes nothing; a block never goes back. */
  function Apply(w: World, e: Event): World {
    match e
    case Call(sender, msg) =>
      var r := Handle(w.contract, w.now, sender, msg);
      if r.Err? then w else w.(contract := r.value.0, log := w.log + r.value.1)
    case Tick(later) => if w.now.NotAfter(later) then w.(now := later) else w
  }

  function Run(w: World, events: seq<Event>): World
    decreases |events|
  {
    if events == [] then w else Run(Apply(w, events[0]), events[1..])
  }

  // ------------------------------------------------------------ instantiation

  function Powers(voters: map<Addr, Uint64>): map<Addr, nat> {
    map a | a in voters :: voters[a]
  }

  /** No entry with weight is replaced by a later entry for the same address. */
  predicate NothingReplaced(voters: seq<Voter>) {
    forall i, j | 0 <= i < j < |voters| :: voters[i].addr == voters[j].addr ==> voters[i].weight == 0
  }

  /** A stored weight is the one of the last entry for its address. */
  lemma {:induction false} LastEntry(voters: seq<Voter>, addr: Addr) returns (i: nat)
    requires addr in VotersOf(voters)
    ensures i < |voters| && voters[i] == Voter(addr, VotersOf(voters)[addr])
    ensures forall j | i < j < |voters| :: voters[j].addr != addr
  {
    var n := |voters| - 1;
    if voters[n].addr == addr {
      i := n;
    } else {
      i := LastEntry(voters[..n], addr);
      assert forall j | i < j < n :: voters[..n][j] == voters[j];
    }
  }

  lemma {:induction false} ListedIsStored(voters: seq<Voter>, i: nat)
    requires i < |voters|
    ensures voters[i].addr in VotersOf(voters)
  {
    var n := |voters| - 1;
    if i < n {
      ListedIsStored(voters[..n], i);
      assert voters[..n][i] == voters[i];
    }
  }

  /** The recorded total is never below the weight of the voters that are stored, and
      equals it exactly when no listed weight was replaced by a duplicate. */
  lemma {:induction false} TotalCoversVoters(voters: seq<Voter>)
    ensures Sum(Powers(VotersOf(voters))) <= TotalOf(voters)
    ensures Sum(Powers(VotersOf(voters))) == TotalOf(voters) <==> NothingReplaced(voters)
  {
    if voters == [] {
      assert Powers(VotersOf(voters)) == map[];
    } else {
      var n := |voters| - 1;
      var init, last := voters[..n], voters[n];
      var before := VotersOf(init);
      TotalCoversVoters(init);
      assert Powers(VotersOf(voters)) == Powers(before)[last.addr := last.weight];
      SumUpdate(Powers(before), last.addr, last.weight);
      assert NothingReplaced(voters) <==> NothingReplaced(init) && Get(Powers(before), last.addr) == 0 by {
        ReplacedByLast(voters);
      }
    }
  }

  lemma ReplacedByLast(voters: seq<Voter>)
    requires voters != []
    ensures var n := |voters| - 1;
            NothingReplaced(voters) <==>
              NothingReplaced(voters[..n]) && Get(Powers(VotersOf(voters[..n])), voters[n].addr) == 0
  {
    var n := |voters| - 1;
    var init, last := voters[..n], voters[n];
    if NothingReplaced(voters) {
      forall i, j | 0 <= i < j < n && init[i].addr == init[j].addr
        ensures init[i].weight == 0
      {
        assert voters[i].addr == voters[j].addr;
      }
      if last.addr in VotersOf(init) {
        var i := LastEntry(init, last.addr);
        assert voters[i].addr == voters[n].addr;
      }
    }
    if NothingReplaced(init) && Get(Powers(VotersOf(init)), last.addr) == 0 {
      forall i, j | 0 <= i < j < |voters| && voters[i].addr == voters[j].addr
        ensures voters[i].weight == 0
      {
        if j < n {
          assert init[i].addr == init[j].addr;
        } else {
          ListedIsStored(init, i);
          var k := LastEntry(init, last.addr);
          if i < k {
            assert init[i].addr == init[k].addr;
          }
        }
      }
    }
  }

  // -------------------------------------------------------------- invariants

  /** Every ballot is cast by a stored voter, with that voter's weight. */
  predicate BallotsFromVoters(ballots: Ballots, voters: map<Addr, Uint64>) {
    forall a | a in ballots :: a in voters && ballots[a].weight == voters[a]
  }

  ghost predicate Inv(w: World) {
    && Consistent(w.contract.board, w.now)
    && LogMatches(w.contract.board.proposals, w.log)
    && FromVoters(w.contract)
  }

  /** What the stored voters and the configuration say about proposals and ballots. */
  ghost predicate FromVoters(s: State) {
    && Sum(Powers(s.voters)) <= s.config.totalWeight
    && ValidThreshold(s.config.threshold, s.config.totalWeight)
    && (forall id | id in s.board.ballots :: BallotsFromVoters(s.board.ballots[id], s.voters))
    && (forall id | id in s.board.proposals ::
          s.board.proposals[id].deposit == None && s.board.proposals[id].totalWeight == s.config.totalWeight
          && s.board.proposals[id].threshold == s.config.threshold)
  }

  /** Voters with known weights cannot cast more than the recorded total. */
  lemma TalliesAreBounded(w: World, id: nat)
    requires Inv(w) && id in w.contract.board.proposals
    ensures Bounded(w.contract.board.proposals[id])
  {
    var s := w.contract;
    var ballots := BallotsOf(s.board, id);
    assert BallotsFromVoters(ballots, s.voters);
    VotesSumIsWeight(s.board.proposals[id], ballots);
    SumMono(WeightsIn(ballots, EVERY_OPTION), Powers(s.voters));
  }

  /** One more ballot of a stored voter on a proposal of this contract. */
  lemma FromVotersStays(s: State, c: Board, id: nat, q: Proposal, voter: Addr, ballot: Ballot)
    requires FromVoters(s) && VotePower(s, voter) == Ok(ballot.weight)
    requires q.deposit == None && q.totalWeight == s.config.totalWeight && q.threshold == s.config.threshold
    requires c.proposals == s.board.proposals[id := q]
    requires c.ballots == s.board.ballots[id := BallotsOf(s.board, id)[voter := ballot]]
    ensures FromVoters(s.(board := c))
  {
    assert BallotsFromVoters(BallotsOf(s.board, id), s.voters);
  }

  lemma ProposeKeeps(w: World, sender: Addr, msgs: seq<CosmosMsg>, latest: Option<Expiration>)
    requires Inv(w)
    ensures Inv(Apply(w, Call(sender, Propose(msgs, latest))))
  {
    hide CurrentStatus, Consistent, LogMatches, FromVoters, OpenProposal;
    var s := w.contract;
    if ExecutePropose(s, w.now, sender, msgs, latest).Ok? {
      var power := VotePower(s, sender).value;
      var expires := ChooseExpiry(latest, s.config.maxVotingPeriod, w.now).value;
      var draft := Draft(s, w.now, sender, power, msgs, expires);
      OpenKeeps(s.board, w.now, draft);
      NewProposalIsNotExecuted(s.board, w.now, draft);
      var (c, id) := OpenProposal(s.board, w.now, draft).value;
      assert BallotsOf(s.board, id) == map[];
      LogStays(s.board.proposals, w.log, id, c.proposals[id]);
      assert w.log + [] == w.log;
      FromVotersStays(s, c, id, c.proposals[id], sender, Ballot(power, Yes));
    }
  }

  lemma VoteKeeps(w: World, sender: Addr, id: nat, vote: Vote)
    requires Inv(w)
    ensures Inv(Apply(w, Call(sender, CastBallot(id, vote))))
  {
    hide CurrentStatus, Consistent, LogMatches, CastVote;
    var s := w.contract;
    if ExecuteVote(s, w.now, sender, id, vote).Ok? {
      var power := s.voters[sender];
      var p, q := CastVoteKeeps(s.board, w.now, id, sender, power, vote);
      var c := CastVote(s.board, w.now, id, p, sender, power, vote).value;
      LogStays(s.board.proposals, w.log, id, q);
      assert w.log + [] == w.log;
      FromVotersStays(s, c, id, q, sender, Ballot(power, vote));
    }
  }

  lemma ExecuteStepKeeps(w: World, sender: Addr, id: nat)
    requires Inv(w)
    ensures Inv(Apply(w, Call(sender, Execute(id))))
  {
    hide CurrentStatus, Consistent, LogMatches, ExecuteProposal;
    var s := w.contract;
    if ExecuteExecute(s, w.now, id).Ok? {
      ExecuteKeeps(s.board, w.now, id);
      LogExecuted(s.board.proposals, w.log, id);
      var sent := [Dispatch(id, s.board.proposals[id].msgs)];
      assert Refund(id, s.board.proposals[id]) + sent == sent;
    }
  }

  lemma CloseStepKeeps(w: World, sender: Addr, id: nat)
    requires Inv(w)
    ensures Inv(Apply(w, Call(sender, Close(id))))
  {
    hide CurrentStatus, Consistent, LogMatches;
    var s := w.contract;
    if ExecuteClose(s, w.now, id).Ok? {
      var q := CloseProposal(s.board, w.now, id).value;
      CloseKeeps(s.board, w.now, id);
      LogClosed(s.board.proposals, w.log, id);
    }
  }

  lemma ApplyKeeps(w: World, e: Event)
    requires Inv(w)
    ensures Inv(Apply(w, e))
  {
    match e
    case Tick(later) =>
      if w.now.NotAfter(later) {
        TimeKeeps(w.contract.board, w.now, later);
      }
    case Call(sender, msg) =>
      match msg
      case Propose(msgs, latest) => ProposeKeeps(w, sender, msgs, latest);
      case CastBallot(id, vote) => VoteKeeps(w, sender, id, vote);
      case Execute(id) => ExecuteStepKeeps(w, sender, id);
      case Close(id) => CloseStepKeeps(w, sender, id);
  }

  lemma {:induction false} RunKeeps(w: World, events: seq<Event>)
    requires Inv(w)
    ensures Inv(Run(w, events))
    decreases |events|
  {
    if events != [] {
      ApplyKeeps(w, events[0]);
      RunKeeps(Apply(w, events[0]), events[1..]);
    }
  }

  /** A world right after a successful instantiation. */
  predicate Genesis(w: World, api: string -> bool, limits: Threshold -> bool, voters: seq<Voter>, t: Threshold,
                    period: Duration)
  {
    Instantiate(api, limits, voters, t, period) == Ok(w.contract) && w.log == []
  }

  lemma GenesisInv(w: World, api: string -> bool, limits: Threshold -> bool, voters: seq<Voter>, t: Threshold,
                   period: Duration)
    requires Genesis(w, api, limits, voters, t, period)
    ensures Inv(w)
  {
    TotalCoversVoters(voters);
  }

  // ------------------------------------------------------------------ results

  /** The cached verdict is right at every point of every run: tallies are the weight of
      the ballots and stay within the recorded total; passed and executed proposals pass
      now and at every later block; a proposal rejected before its deadline never passes
      again whatever is voted; and until the deadline the stored status is the current
      one, although votes are still taken after the verdict. */
  lemma CachedVerdictIsRight(
    w: World, api: string -> bool, limits: Threshold -> bool, voters: seq<Voter>, t: Threshold, period: Duration,
    events: seq<Event>, id: nat, later: Block)
    requires Genesis(w, api, limits, voters, t, period)
    requires Run(w, events).now.NotAfter(later)
    ensures var v := Run(w, events);
            id in v.contract.board.proposals ==>
              var p := v.contract.board.proposals[id];
              && Tallied(p, BallotsOf(v.contract.board, id)) && p.votes.Sum() <= p.totalWeight
              && (p.status == Passed || p.status == Executed ==> IsPassed(p, later) == Ok(true))
              && (p.status == Rejected ==> IsPassed(p, later) == Ok(false))
              && (p.status == Rejected && !p.expires.IsExpired(v.now) ==>
                    forall u | Further(p.votes, u, p.totalWeight) :: IsPassed(p.(votes := u), later) == Ok(false))
              && (!p.expires.IsExpired(later) ==> CurrentStatus(p, later) == Ok(p.status))
  {
    GenesisInv(w, api, limits, voters, t, period);
    RunKeeps(w, events);
    var v := Run(w, events);
    if id in v.contract.board.proposals {
      TalliesAreBounded(v, id);
      VerdictMeaning(v.contract.board.proposals[id], v.now, later);
    }
  }

  /** Over any run the messages of a proposal are dispatched at most once: exactly when it
      is marked as executed, and exactly the messages it was proposed with. */
  lemma DispatchedOnce(
    w: World, api: string -> bool, limits: Threshold -> bool, voters: seq<Voter>, t: Threshold, period: Duration,
    events: seq<Event>)
    requires Genesis(w, api, limits, voters, t, period)
    ensures var v := Run(w, events);
            LogMatches(v.contract.board.proposals, v.log)
  {
    GenesisInv(w, api, limits, voters, t, period);
    RunKeeps(w, events);
  }

  lemma ApplyForward(w: World, e: Event)
    requires Inv(w)
    ensures Forward(w.contract.board, Apply(w, e).contract.board)
  {
    hide Consistent, LogMatches, FromVoters;
    var b := w.contract.board;
    if e.Call? && Handle(w.contract, w.now, e.sender, e.msg).Ok? {
      HandleForward(w, e.sender, e.msg);
    }
  }

  lemma HandleForward(w: World, sender: Addr, msg: Msg)
    requires Inv(w) && Handle(w.contract, w.now, sender, msg).Ok?
    ensures Forward(w.contract.board, Handle(w.contract, w.now, sender, msg).value.0.board)
  {
    hide Consistent, LogMatches, FromVoters, Forward, CurrentStatus, OpenProposal, CastVote;
    var s := w.contract;
    match msg
    case Propose(msgs, latest) =>
      var expires := ChooseExpiry(latest, s.config.maxVotingPeriod, w.now).value;
      OpenForward(s.board, w.now, Draft(s, w.now, sender, s.voters[sender], msgs, expires));
    case CastBallot(id, vote) =>
      CastVoteForward(s.board, w.now, id, sender, s.voters[sender], vote);
    case Execute(id) =>
      ExecuteKeeps(s.board, w.now, id);
      SaveForward(s.board, id, ExecuteProposal(s.board, w.now, id).value);
    case Close(id) =>
      CloseKeeps(s.board, w.now, id);
      SaveForward(s.board, id, CloseProposal(s.board, w.now, id).value);
  }

  lemma {:induction false} RunForward(w: World, events: seq<Event>)
    requires Inv(w)
    ensures Forward(w.contract.board, Run(w, events).contract.board)
    decreases |events|
  {
    hide Inv, Forward;
    if events != [] {
      var v := Apply(w, events[0]);
      ApplyKeeps(w, events[0]);
      ApplyForward(w, events[0]);
      RunForward(v, events[1..]);
      ForwardTransitive(w.contract.board, v.contract.board, Run(v, events[1..]).contract.board);
    } else {
      ForwardRefl(w.contract.board);
    }
  }

  /** Between any two points of a run: ids are not reused, ballots never change, what was
      proposed never changes, rejected and executed are final, and a passed proposal can
      only become executed. */
  lemma ProposalsMoveForward(
    w: World, api: string -> bool, limits: Threshold -> bool, voters: seq<Voter>, t: Threshold, period: Duration,
    events: seq<Event>, more: seq<Event>)
    requires Genesis(w, api, limits, voters, t, period)
    ensures Forward(Run(w, events).contract.board, Run(Run(w, events), more).contract.board)
  {
    GenesisInv(w, api, limits, voters, t, period);
    RunKeeps(w, events);
    RunForward(Run(w, events), more);
  }

  /** Where a call traps at all, at any point of any run: on a proposal of a stored voter,
      if 64 bits cannot hold the latest deadline, or if its deadline is accepted and the
      ids are used up. No vote, execution or closing traps. */
  lemma TrapsExactly(
    w: World, api: string -> bool, limits: Threshold -> bool, voters: seq<Voter>, t: Threshold, period: Duration,
    events: seq<Event>, sender: Addr, msg: Msg)
    requires Genesis(w, api, limits, voters, t, period)
    ensures var v := Run(w, events);
            v.contract.config.maxVotingPeriod == period &&
            (Handle(v.contract, v.now, sender, msg) == Err(Panic) <==>
               match msg
               case Propose(_, latest) =>
                 && sender in v.contract.voters
                 && (|| period.After(v.now).Err?
                     || (ChooseExpiry(latest, period, v.now).Ok? && v.contract.board.count == U64_MAX))
               case _ => false)
  {
    GenesisInv(w, api, limits, voters, t, period);
    RunKeeps(w, events);
    RunKeepsConfig(w, events);
    var v := Run(w, events);
    match msg
    case Propose(msgs, latest) => ProposeTraps(v, sender, msgs, latest);
    case _ => OthersNeverTrap(v, sender, msg);
  }

  lemma {:induction false} RunKeepsConfig(w: World, events: seq<Event>)
    ensures Run(w, events).contract.config == w.contract.config
    decreases |events|
  {
    hide OpenProposal, CastVote, ExecuteProposal, CloseProposal;
    if events != [] {
      RunKeepsConfig(Apply(w, events[0]), events[1..]);
    }
  }

  lemma StatusDefined(p: Proposal, block: Block)
    requires Bounded(p) && (p.threshold.AbsoluteCount? ==> p.threshold.weight <= p.totalWeight)
    ensures CurrentStatus(p, block).Ok?
  {
    RulesDefined(p.threshold, p.totalWeight, p.votes, p.expires.IsExpired(block));
  }

  lemma ProposeTraps(w: World, sender: Addr, msgs: seq<CosmosMsg>, latest: Option<Expiration>)
    requires Inv(w)
    ensures var s := w.contract;
            var period := s.config.maxVotingPeriod;
            ExecutePropose(s, w.now, sender, msgs, latest) == Err(Panic) <==>
              && sender in s.voters
              && (period.After(w.now).Err? || (ChooseExpiry(latest, period, w.now).Ok? && s.board.count == U64_MAX))
  {
    hide CurrentStatus;
    var s := w.contract;
    if sender in s.voters && ChooseExpiry(latest, s.config.maxVotingPeriod, w.now).Ok? {
      SumAtLeast(Powers(s.voters), sender);
      StatusDefined(Draft(s, w.now, sender, s.voters[sender], msgs,
                          ChooseExpiry(latest, s.config.maxVotingPeriod, w.now).value), w.now);
    }
  }

  lemma VoteNeverTraps(w: World, sender: Addr, id: nat, vote: Vote)
    requires Inv(w)
    ensures ExecuteVote(w.contract, w.now, sender, id, vote) != Err(Panic)
  {
    hide CurrentStatus, Inv, Votes.AddVote;
    var s := w.contract;
    if VotePower(s, sender).Ok? && Votable(s.board, w.now, id).Ok? && sender !in BallotsOf(s.board, id) {
      RoomForOneMore(w, id, sender);
      var p := s.board.proposals[id];
      AddVoteFits(p.votes, vote, s.voters[sender]);
      MoreVotesDefined(w, id, p.votes.AddVote(vote, s.voters[sender]).value);
    }
  }

  lemma MoreVotesDefined(w: World, id: nat, votes: Votes)
    requires Inv(w) && id in w.contract.board.proposals
    requires votes.Sum() <= w.contract.board.proposals[id].totalWeight
    ensures CurrentStatus(w.contract.board.proposals[id].(votes := votes), w.now).Ok?
  {
    hide CurrentStatus, Consistent, LogMatches;
    StatusDefined(w.contract.board.proposals[id].(votes := votes), w.now);
  }

  lemma OthersNeverTrap(w: World, sender: Addr, msg: Msg)
    requires Inv(w) && !msg.Propose?
    ensures Handle(w.contract, w.now, sender, msg) != Err(Panic)
  {
    hide CurrentStatus, ExecuteVote;
    var proposals := w.contract.board.proposals;
    match msg
    case CastBallot(id, vote) => VoteNeverTraps(w, sender, id, vote);
    case Execute(id) =>
      if id in proposals {
        TalliesAreBounded(w, id);
        StatusDefined(proposals[id], w.now);
      }
    case Close(id) =>
      if id in proposals {
        TalliesAreBounded(w, id);
        StatusDefined(proposals[id], w.now);
      }
  }

  lemma AddVoteFits(v: Votes, vote: Vote, power: Uint64)
    requires v.Sum() + power <= U64_MAX
    ensures v.AddVote(vote, power).Ok? && v.AddVote(vote, power).value.Sum() == v.Sum() + power
  {
  }

  /** The weight of somebody who has not voted yet still fits under the total. */
  lemma RoomForOneMore(w: World, id: nat, voter: Addr)
    requires Inv(w) && id in w.contract.board.proposals && voter in w.contract.voters
    requires voter !in BallotsOf(w.contract.board, id)
    ensures var p := w.contract.board.proposals[id];
            p.votes.Sum() + w.contract.voters[voter] <= p.totalWeight
  {
    var s := w.contract;
    var ballots := BallotsOf(s.board, id);
    assert BallotsFromVoters(ballots, s.voters);
    VotesSumIsWeight(s.board.proposals[id], ballots);
    SumRemove(Powers(s.voters), voter);
    SumMono(WeightsIn(ballots, EVERY_OPTION), Powers(s.voters) - {voter});
  }
}
