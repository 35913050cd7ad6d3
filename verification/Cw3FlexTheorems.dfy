/** Runs of the flex multisig with a cw4 group that changes at any time: how far snapshot
    voting can carry a tally, verdicts that stay right within the recorded total, and
    messages and deposits that leave once. */
module Cw3FlexTheorems {
  import opened Prelude
  import opened Sums
  import opened Cw3Rounding
  import opened Cw3Proposal
  import opened Cw3Board
  import opened Cw3History
  import opened Cw3Flex
  import Cw4Group

  datatype World = World(
    contract: FlexState,
    group: Cw4Group.State,
    atStart: seq<Members>,
    now: Block,
    log: seq<Effect>)

  datatype Event =
    | Call(sender: Addr, funds: seq<Coin>, msg: Msg)
    | UpdateGroup(admin: Addr, add: seq<Cw4Group.Member>, remove: seq<string>)
    | Tick(later: Block)

  function View(w: World): GroupView {
    GroupView(w.group.members, w.group.total, w.atStart)
  }

  /** The members with which each of the next blocks begins. */
  function Copies(members: Members, n: nat): seq<Members> {
    seq(n, _ => members)
  }

  function Apply(w: World, api: string -> bool, e: Event): World {
    match e
    case Call(sender, funds, msg) =>
      var r := FlexHandle(w.contract, View(w), w.now, sender, funds, msg);
      if r.Err? then w else w.(contract := r.value.0, log := w.log + r.value.1)
    case UpdateGroup(admin, add, remove) =>
      var r := Cw4Group.UpdateMembers(w.group, api, admin, add, remove);
      if r.Err? then w else w.(group := r.value.0)
    case Tick(later) =>
      if !w.now.NotAfter(later) then w
      else w.(now := later, atStart := w.atStart + Copies(w.group.members, later.height - w.now.height))
  }

  function Run(w: World, api: string -> bool, events: seq<Event>): World
    decreases |events|
  {
    if events == [] then w else Run(Apply(w, api, events[0]), api, events[1..])
  }

  // -------------------------------------------------------------- invariants

  /** Where the weight of every ballot comes from: the proposer's from the moment of the
      proposal, all others from the start of its block. */
  predicate FromSnapshot(ballots: Ballots, proposer: Addr, snapshot: Members) {
    && proposer in ballots
    && (forall a | a in ballots && a != proposer :: a in snapshot && ballots[a].weight == snapshot[a])
  }

  predicate Snapshots(b: Board, atStart: seq<Members>) {
    forall id | id in b.proposals ::
      var p := b.proposals[id];
      p.startHeight < |atStart| && FromSnapshot(BallotsOf(b, id), p.proposer, atStart[p.startHeight])
  }

  ghost predicate Inv(w: World) {
    && Consistent(w.contract.board, w.now)
    && LogMatches(w.contract.board.proposals, w.log)
    && Snapshots(w.contract.board, w.atStart)
    && |w.atStart| == w.now.height + 1
    && Cw4Group.TotalIsSum(w.group.members, w.group.total)
  }

  lemma FlexProposeKeeps(w: World, api: string -> bool, sender: Addr, funds: seq<Coin>, msgs: seq<CosmosMsg>,
                         latest: Option<Expiration>)
    requires Inv(w)
    ensures Inv(Apply(w, api, Call(sender, funds, Propose(msgs, latest))))
  {
    hide CurrentStatus, Consistent, LogMatches, OpenProposal, Cw4Group.TotalIsSum;
    var s := w.contract;
    if FlexPropose(s, View(w), w.now, sender, funds, msgs, latest).Ok? {
      var expires := ChooseExpiry(latest, s.config.maxVotingPeriod, w.now).value;
      var draft := FlexDraft(s, View(w), w.now, sender, w.group.members[sender], msgs, expires);
      OpenKeeps(s.board, w.now, draft);
      NewProposalIsNotExecuted(s.board, w.now, draft);
      var (c, id) := OpenProposal(s.board, w.now, draft).value;
      LogStays(s.board.proposals, w.log, id, c.proposals[id]);
      LogTakes(c.proposals, w.log, TakeDepositMessages(s.config.proposalDeposit, sender));
      NewSnapshot(s.board, c, id, w.atStart, c.proposals[id], Ballot(draft.votes.yes, Yes));
    }
  }

  lemma NewSnapshot(b: Board, c: Board, id: nat, atStart: seq<Members>, p: Proposal, ballot: Ballot)
    requires Snapshots(b, atStart) && p.startHeight < |atStart| && id !in b.proposals
    requires c.proposals == b.proposals[id := p] && c.ballots == b.ballots[id := map[p.proposer := ballot]]
    ensures Snapshots(c, atStart)
  {
    forall i | i in c.proposals
      ensures FromSnapshot(BallotsOf(c, i), c.proposals[i].proposer, atStart[c.proposals[i].startHeight])
    {
      if i != id {
        assert FromSnapshot(BallotsOf(b, i), b.proposals[i].proposer, atStart[b.proposals[i].startHeight]);
      }
    }
  }

  lemma FlexVoteKeeps(w: World, api: string -> bool, sender: Addr, funds: seq<Coin>, id: nat, vote: Vote)
    requires Inv(w)
    ensures Inv(Apply(w, api, Call(sender, funds, CastBallot(id, vote))))
  {
    hide CurrentStatus, Consistent, LogMatches, CastVote, Cw4Group.TotalIsSum, FromSnapshot;
    var s := w.contract;
    if FlexVote(s, View(w), w.now, sender, id, vote).Ok? {
      var start := s.board.proposals[id].startHeight;
      assert start < |w.atStart|;
      var power := w.atStart[start][sender];
      var p, q := CastVoteKeeps(s.board, w.now, id, sender, power, vote);
      LogStays(s.board.proposals, w.log, id, q);
      assert w.log + [] == w.log;
      hide Snapshots;
      CastSnapshots(s.board, id, q, sender, power, vote, w.atStart);
    }
  }

  /** A ballot with the weight of the snapshot keeps all ballots in line with theirs. */
  lemma CastSnapshots(b: Board, id: nat, q: Proposal, voter: Addr, power: Uint64, vote: Vote, atStart: seq<Members>)
    requires Snapshots(b, atStart) && id in b.proposals && voter !in BallotsOf(b, id)
    requires q == b.proposals[id].(votes := q.votes, status := q.status)
    requires var snapshot := atStart[b.proposals[id].startHeight]; voter in snapshot && snapshot[voter] == power
    ensures Snapshots(b.(proposals := b.proposals[id := q],
                         ballots := b.ballots[id := BallotsOf(b, id)[voter := Ballot(power, vote)]]), atStart)
  {
    var c := b.(proposals := b.proposals[id := q],
                ballots := b.ballots[id := BallotsOf(b, id)[voter := Ballot(power, vote)]]);
    forall i | i in c.proposals
      ensures FromSnapshot(BallotsOf(c, i), c.proposals[i].proposer, atStart[c.proposals[i].startHeight])
    {
      assert FromSnapshot(BallotsOf(b, i), b.proposals[i].proposer, atStart[b.proposals[i].startHeight]);
    }
  }

  /** Writing back a proposal with a new status keeps all ballots. */
  lemma SavedSnapshots(b: Board, id: nat, q: Proposal, atStart: seq<Members>)
    requires Snapshots(b, atStart) && id in b.proposals && q == b.proposals[id].(status := q.status)
    ensures Snapshots(SaveProposal(b, id, q), atStart)
  {
    var c := SaveProposal(b, id, q);
    forall i | i in c.proposals
      ensures FromSnapshot(BallotsOf(c, i), c.proposals[i].proposer, atStart[c.proposals[i].startHeight])
    {
      assert FromSnapshot(BallotsOf(b, i), b.proposals[i].proposer, atStart[b.proposals[i].startHeight]);
    }
  }

  lemma FlexExecuteKeeps(w: World, api: string -> bool, sender: Addr, funds: seq<Coin>, id: nat)
    requires Inv(w)
    ensures Inv(Apply(w, api, Call(sender, funds, Execute(id))))
  {
    hide CurrentStatus, Consistent, LogMatches, ExecuteProposal, Cw4Group.TotalIsSum, Snapshots;
    var b := w.contract.board;
    if FlexExecute(w.contract, View(w), w.now, sender, id).Ok? {
      var q := ExecuteProposal(b, w.now, id).value;
      ExecuteKeeps(b, w.now, id);
      LogExecuted(b.proposals, w.log, id);
      SavedSnapshots(b, id, q, w.atStart);
      assert Executing(id, q) == Executing(id, b.proposals[id]);
    }
  }

  lemma FlexCloseKeeps(w: World, api: string -> bool, sender: Addr, funds: seq<Coin>, id: nat)
    requires Inv(w)
    ensures Inv(Apply(w, api, Call(sender, funds, Close(id))))
  {
    hide CurrentStatus, Consistent, LogMatches, CloseProposal, Cw4Group.TotalIsSum, Snapshots;
    var b := w.contract.board;
    if FlexClose(w.contract, w.now, id).Ok? {
      var q := CloseProposal(b, w.now, id).value;
      CloseKeeps(b, w.now, id);
      LogClosed(b.proposals, w.log, id);
      SavedSnapshots(b, id, q, w.atStart);
      assert Closing(id, q) == Closing(id, b.proposals[id]);
    }
  }

  lemma HookKeeps(w: World, api: string -> bool, sender: Addr, funds: seq<Coin>, diffs: seq<Cw4Group.MemberDiff>)
    requires Inv(w)
    ensures Inv(Apply(w, api, Call(sender, funds, MemberChangedHook(diffs))))
  {
    hide Consistent, LogMatches, Cw4Group.TotalIsSum, Snapshots;
    assert w.log + [] == w.log;
  }

  lemma GroupKeeps(w: World, api: string -> bool, admin: Addr, add: seq<Cw4Group.Member>, remove: seq<string>)
    requires Inv(w)
    ensures Inv(Apply(w, api, UpdateGroup(admin, add, remove)))
  {
    Cw4Group.UpdateMembersResult(w.group, api, admin, add, remove);
    hide Consistent, LogMatches, Cw4Group.TotalIsSum, Snapshots, Cw4Group.UpdateMembers;
  }

  lemma TickKeeps(w: World, api: string -> bool, later: Block)
    requires Inv(w)
    ensures Inv(Apply(w, api, Tick(later)))
  {
    hide Consistent, LogMatches, Cw4Group.TotalIsSum;
    if w.now.NotAfter(later) {
      TimeKeeps(w.contract.board, w.now, later);
      MoreHistory(w.contract.board, w.atStart, Copies(w.group.members, later.height - w.now.height));
    }
  }

  lemma MoreHistory(b: Board, atStart: seq<Members>, more: seq<Members>)
    requires Snapshots(b, atStart)
    ensures Snapshots(b, atStart + more)
  {
    forall id | id in b.proposals
      ensures FromSnapshot(BallotsOf(b, id), b.proposals[id].proposer, (atStart + more)[b.proposals[id].startHeight])
    {
      assert (atStart + more)[b.proposals[id].startHeight] == atStart[b.proposals[id].startHeight];
    }
  }

  lemma ApplyKeeps(w: World, api: string -> bool, e: Event)
    requires Inv(w)
    ensures Inv(Apply(w, api, e))
  {
    hide Inv, FlexHandle;
    match e
    case UpdateGroup(admin, add, remove) => GroupKeeps(w, api, admin, add, remove);
    case Tick(later) => TickKeeps(w, api, later);
    case Call(sender, funds, msg) =>
      match msg
      case Propose(msgs, latest) => FlexProposeKeeps(w, api, sender, funds, msgs, latest);
      case CastBallot(id, vote) => FlexVoteKeeps(w, api, sender, funds, id, vote);
      case Execute(id) => FlexExecuteKeeps(w, api, sender, funds, id);
      case Close(id) => FlexCloseKeeps(w, api, sender, funds, id);
      case MemberChangedHook(diffs) => HookKeeps(w, api, sender, funds, diffs);
  }

  lemma {:induction false} RunKeeps(w: World, api: string -> bool, events: seq<Event>)
    requires Inv(w)
    ensures Inv(Run(w, api, events))
    decreases |events|
  {
    hide Inv;
    if events != [] {
      ApplyKeeps(w, api, events[0]);
      RunKeeps(Apply(w, api, events[0]), api, events[1..]);
    }
  }

  /** The members that each block began with weigh what 64 bits can hold. */
  ghost predicate Weighable(atStart: seq<Members>) {
    forall h | 0 <= h < |atStart| :: Sum(Cw4Group.Weights(atStart[h])) <= U64_MAX
  }

  /** Right after instantiation, with a group that has kept its own total at all times. */
  ghost predicate Genesis(w: World) {
    && (exists limits: Threshold -> bool :: InstantiateFlex(View(w), limits, w.contract.config) == Ok(w.contract))
    && w.log == []
    && |w.atStart| == w.now.height + 1 && Weighable(w.atStart)
    && Cw4Group.TotalIsSum(w.group.members, w.group.total)
  }

  lemma GenesisInv(w: World)
    requires Genesis(w)
    ensures Inv(w)
  {
  }

  // --------------------------------------------------------- snapshot voting

  /** The most that a tally can ever reach: the proposer's own weight, and what everybody
      else weighed when the block began. */
  ghost function Potential(proposer: Addr, weight: nat, snapshot: Members): nat {
    weight + Sum(Cw4Group.Weights(snapshot - {proposer}))
  }

  ghost function PotentialOf(w: World, id: nat): nat
    requires Inv(w) && id in w.contract.board.proposals
  {
    var p := w.contract.board.proposals[id];
    Potential(p.proposer, BallotsOf(w.contract.board, id)[p.proposer].weight, w.atStart[p.startHeight])
  }

  lemma BallotsWithinPotential(ballots: Ballots, proposer: Addr, snapshot: Members)
    requires FromSnapshot(ballots, proposer, snapshot)
    ensures WeightIn(ballots, EVERY_OPTION) <= Potential(proposer, ballots[proposer].weight, snapshot)
  {
    var all := WeightsIn(ballots, EVERY_OPTION);
    SumRemove(all, proposer);
    SumMono(all - {proposer}, Cw4Group.Weights(snapshot - {proposer}));
  }

  /** If no group update precedes the proposal in its block, the potential is the total. */
  lemma QuietPotential(members: Members, proposer: Addr)
    requires proposer in members
    ensures Potential(proposer, members[proposer], members) == Sum(Cw4Group.Weights(members))
  {
    SumRemove(Cw4Group.Weights(members), proposer);
    assert Cw4Group.Weights(members - {proposer}) == Cw4Group.Weights(members) - {proposer};
  }

  lemma TallyWithinPotential(w: World, id: nat)
    requires Inv(w) && id in w.contract.board.proposals
    ensures w.contract.board.proposals[id].votes.Sum() <= PotentialOf(w, id)
  {
    var b := w.contract.board;
    var p := b.proposals[id];
    assert Tallied(p, BallotsOf(b, id));
    VotesSumIsWeight(p, BallotsOf(b, id));
    BallotsWithinPotential(BallotsOf(b, id), p.proposer, w.atStart[p.startHeight]);
  }

  // ----------------------------------------------------------------- forward

  lemma ApplyForward(w: World, api: string -> bool, e: Event)
    requires Inv(w)
    ensures Forward(w.contract.board, Apply(w, api, e).contract.board)
    ensures w.atStart <= Apply(w, api, e).atStart
  {
    hide Consistent, LogMatches, Snapshots, Cw4Group.TotalIsSum, FlexHandle, Forward;
    ForwardRefl(w.contract.board);
    if e.Call? && FlexHandle(w.contract, View(w), w.now, e.sender, e.funds, e.msg).Ok? {
      HandleForward(w, e.sender, e.funds, e.msg);
    }
  }

  lemma HandleForward(w: World, sender: Addr, funds: seq<Coin>, msg: Msg)
    requires Inv(w) && FlexHandle(w.contract, View(w), w.now, sender, funds, msg).Ok?
    ensures Forward(w.contract.board, FlexHandle(w.contract, View(w), w.now, sender, funds, msg).value.0.board)
  {
    hide Consistent, LogMatches, Snapshots, Cw4Group.TotalIsSum, Forward, CurrentStatus, OpenProposal, CastVote;
    var s := w.contract;
    match msg
    case Propose(msgs, latest) =>
      var expires := ChooseExpiry(latest, s.config.maxVotingPeriod, w.now).value;
      OpenForward(s.board, w.now, FlexDraft(s, View(w), w.now, sender, w.group.members[sender], msgs, expires));
    case CastBallot(id, vote) =>
      var power := View(w).IsVotingMember(sender, s.board.proposals[id].startHeight);
      CastVoteForward(s.board, w.now, id, sender, power.value, vote);
    case Execute(id) =>
      ExecuteKeeps(s.board, w.now, id);
      SaveForward(s.board, id, ExecuteProposal(s.board, w.now, id).value);
    case Close(id) =>
      CloseKeeps(s.board, w.now, id);
      SaveForward(s.board, id, CloseProposal(s.board, w.now, id).value);
    case MemberChangedHook(_) => ForwardRefl(s.board);
  }

  lemma {:induction false} RunForward(w: World, api: string -> bool, events: seq<Event>)
    requires Inv(w)
    ensures Forward(w.contract.board, Run(w, api, events).contract.board)
    ensures w.atStart <= Run(w, api, events).atStart
    decreases |events|
  {
    hide Inv, Forward;
    if events != [] {
      var v := Apply(w, api, events[0]);
      ApplyKeeps(w, api, events[0]);
      ApplyForward(w, api, events[0]);
      RunForward(v, api, events[1..]);
      ForwardTransitive(w.contract.board, v.contract.board, Run(v, api, events[1..]).contract.board);
    } else {
      ForwardRefl(w.contract.board);
    }
  }

  // ----------------------------------------------------------------- results

  /** Snapshot voting is bounded: for a proposal made before any group update of its block,
      whatever the group, the voters and the clock do afterwards, the tally stays within
      the total that was recorded with the proposal. */
  lemma SnapshotVotingBounded(
    genesis: World, api: string -> bool, events: seq<Event>,
    sender: Addr, funds: seq<Coin>, msgs: seq<CosmosMsg>, latest: Option<Expiration>, more: seq<Event>)
    requires Genesis(genesis)
    ensures var w := Run(genesis, api, events);
            var r := FlexPropose(w.contract, View(w), w.now, sender, funds, msgs, latest);
            |w.atStart| == w.now.height + 1 &&
            (w.group.members == w.atStart[w.now.height] && r.Ok? ==>
              var id := r.value.0.board.count;
              var v := Run(Apply(w, api, Call(sender, funds, Propose(msgs, latest))), api, more);
              id in v.contract.board.proposals && Bounded(v.contract.board.proposals[id]))
  {
    hide Inv, FlexPropose;
    GenesisInv(genesis);
    RunKeeps(genesis, api, events);
    var w := Run(genesis, api, events);
    InvLength(w);
    if w.group.members == w.atStart[w.now.height]
       && FlexPropose(w.contract, View(w), w.now, sender, funds, msgs, latest).Ok?
    {
      var u := Apply(w, api, Call(sender, funds, Propose(msgs, latest)));
      ApplyKeeps(w, api, Call(sender, funds, Propose(msgs, latest)));
      QuietProposal(w, api, sender, funds, msgs, latest);
      var id := u.contract.board.count;
      RunKeeps(u, api, more);
      RunForward(u, api, more);
      SamePotential(u, Run(u, api, more), id);
      TallyWithinPotential(Run(u, api, more), id);
    }
  }

  lemma InvLength(w: World)
    requires Inv(w)
    ensures |w.atStart| == w.now.height + 1
  {
  }

  lemma QuietProposal(w: World, api: string -> bool, sender: Addr, funds: seq<Coin>, msgs: seq<CosmosMsg>,
                      latest: Option<Expiration>)
    requires Inv(w) && w.group.members == w.atStart[w.now.height]
    requires FlexPropose(w.contract, View(w), w.now, sender, funds, msgs, latest).Ok?
    ensures var u := Apply(w, api, Call(sender, funds, Propose(msgs, latest)));
            var id := u.contract.board.count;
            Inv(u) && id in u.contract.board.proposals
            && PotentialOf(u, id) == u.contract.board.proposals[id].totalWeight
  {
    hide CurrentStatus, Consistent, LogMatches, OpenProposal;
    ApplyKeeps(w, api, Call(sender, funds, Propose(msgs, latest)));
    var s := w.contract;
    var expires := ChooseExpiry(latest, s.config.maxVotingPeriod, w.now).value;
    var draft := FlexDraft(s, View(w), w.now, sender, w.group.members[sender], msgs, expires);
    OpenKeeps(s.board, w.now, draft);
    QuietPotential(w.group.members, sender);
  }

  /** A later board and a longer history leave the potential of a proposal alone. */
  lemma SamePotential(u: World, v: World, id: nat)
    requires Inv(u) && Inv(v) && id in u.contract.board.proposals
    requires Forward(u.contract.board, v.contract.board) && u.atStart <= v.atStart
    ensures id in v.contract.board.proposals && PotentialOf(v, id) == PotentialOf(u, id)
    ensures v.contract.board.proposals[id].totalWeight == u.contract.board.proposals[id].totalWeight
  {
    hide Consistent, LogMatches;
    var p := u.contract.board.proposals[id];
    assert LaterVersion(p, v.contract.board.proposals[id]);
    assert FromSnapshot(BallotsOf(u.contract.board, id), p.proposer, u.atStart[p.startHeight]);
  }

  /** How far the tally of a proposal can go is settled when it is made: whatever happens
      afterwards, in the group or to its votes, its potential stays. */
  lemma PotentialStays(genesis: World, api: string -> bool, events: seq<Event>, more: seq<Event>, id: nat)
    requires Genesis(genesis)
    ensures var u := Run(genesis, api, events);
            var v := Run(u, api, more);
            Inv(u) && Inv(v) && (id in u.contract.board.proposals ==>
              id in v.contract.board.proposals && PotentialOf(v, id) == PotentialOf(u, id))
  {
    hide Inv, Forward;
    GenesisInv(genesis);
    RunKeeps(genesis, api, events);
    var u := Run(genesis, api, events);
    RunKeeps(u, api, more);
    RunForward(u, api, more);
    if id in u.contract.board.proposals {
      SamePotential(u, Run(u, api, more), id);
    }
  }

  /** The cached verdict is right for every proposal whose potential is within its recorded
      total: exactly what holds for the fixed multisig holds here. */
  lemma FlexVerdictIsRight(genesis: World, api: string -> bool, events: seq<Event>, id: nat, later: Block)
    requires Genesis(genesis) && Run(genesis, api, events).now.NotAfter(later)
    ensures var w := Run(genesis, api, events);
            Inv(w) && (id in w.contract.board.proposals
                       && PotentialOf(w, id) <= w.contract.board.proposals[id].totalWeight ==>
              var p := w.contract.board.proposals[id];
              && Tallied(p, BallotsOf(w.contract.board, id)) && p.votes.Sum() <= p.totalWeight
              && (p.status == Passed || p.status == Executed ==> IsPassed(p, later) == Ok(true))
              && (p.status == Rejected ==> IsPassed(p, later) == Ok(false))
              && (p.status == Rejected && !p.expires.IsExpired(w.now) ==>
                    forall u | Further(p.votes, u, p.totalWeight) :: IsPassed(p.(votes := u), later) == Ok(false))
              && (!p.expires.IsExpired(later) ==> CurrentStatus(p, later) == Ok(p.status)))
  {
    hide IsPassed, CurrentStatus, VerdictHolds, LogMatches, Snapshots;
    GenesisInv(genesis);
    RunKeeps(genesis, api, events);
    var w := Run(genesis, api, events);
    if id in w.contract.board.proposals && PotentialOf(w, id) <= w.contract.board.proposals[id].totalWeight {
      TallyWithinPotential(w, id);
      VerdictMeaning(w.contract.board.proposals[id], w.now, later);
    }
  }

  /** Room for one more snapshot vote. */
  lemma RoomForVote(w: World, id: nat, voter: Addr)
    requires Inv(w) && id in w.contract.board.proposals && voter !in BallotsOf(w.contract.board, id)
    ensures var p := w.contract.board.proposals[id];
            var power := View(w).IsVotingMember(voter, p.startHeight);
            power.Some? ==> p.votes.Sum() + power.value <= PotentialOf(w, id)
  {
    hide VerdictHolds, LogMatches;
    var b := w.contract.board;
    var p := b.proposals[id];
    var snapshot := w.atStart[p.startHeight];
    var ballots := BallotsOf(b, id);
    if View(w).IsVotingMember(voter, p.startHeight).Some? {
      assert FromSnapshot(ballots, p.proposer, snapshot) && Tallied(p, ballots);
      VotesSumIsWeight(p, ballots);
      var more := ballots[voter := Ballot(snapshot[voter], Yes)];
      WeightOfOneMore(ballots, voter, Ballot(snapshot[voter], Yes), EVERY_OPTION);
      assert FromSnapshot(more, p.proposer, snapshot);
      BallotsWithinPotential(more, p.proposer, snapshot);
    }
  }

  /** Over any run, messages are dispatched at most once and deposits returned at most once,
      to the proposer, for executed proposals always; and proposals only move forward. */
  lemma EverythingLeavesOnce(genesis: World, api: string -> bool, events: seq<Event>, more: seq<Event>)
    requires Genesis(genesis)
    ensures var w := Run(genesis, api, events);
            && LogMatches(w.contract.board.proposals, w.log)
            && Forward(w.contract.board, Run(w, api, more).contract.board)
  {
    GenesisInv(genesis);
    RunKeeps(genesis, api, events);
    RunForward(Run(genesis, api, events), api, more);
  }

  // ---------------------------------------------------------- rejected deposits

  /** The deposit of a proposal has been returned. */
  predicate Returned(log: seq<Effect>, id: nat) {
    exists e | e in log :: e.ReturnDeposit? && e.id == id
  }

  /** A proposal stored as rejected can be neither closed nor executed. */
  lemma RejectedIsFinal(s: FlexState, g: GroupView, block: Block, sender: Addr, id: nat)
    requires id in s.board.proposals && s.board.proposals[id].status == Rejected
    ensures FlexClose(s, block, id) == Err(WrongCloseStatus)
    ensures FlexExecute(s, g, block, sender, id) == Err(WrongExecuteStatus)
  {
  }

  /** So no call returns its deposit. */
  lemma CallReturnsNothing(s: FlexState, g: GroupView, block: Block, sender: Addr, funds: seq<Coin>, msg: Msg, id: nat)
    requires id in s.board.proposals && s.board.proposals[id].status == Rejected
    requires FlexHandle(s, g, block, sender, funds, msg).Ok?
    ensures !Returned(FlexHandle(s, g, block, sender, funds, msg).value.1, id)
  {
    hide OpenProposal, CastVote, CurrentStatus, ChooseExpiry;
    RejectedIsFinal(s, g, block, sender, id);
  }

  lemma {:induction false} RejectedStays(w: World, api: string -> bool, events: seq<Event>, id: nat)
    requires Inv(w) && id in w.contract.board.proposals && w.contract.board.proposals[id].status == Rejected
    ensures var v := Run(w, api, events);
            && id in v.contract.board.proposals && v.contract.board.proposals[id].status == Rejected
            && (Returned(v.log, id) <==> Returned(w.log, id))
    decreases |events|
  {
    hide Inv, Forward, FlexHandle, Returned;
    if events != [] {
      var v := Apply(w, api, events[0]);
      ApplyKeeps(w, api, events[0]);
      ApplyForward(w, api, events[0]);
      RejectedOnce(w.contract.board, v.contract.board, id);
      var e := events[0];
      if e.Call? {
        var r := FlexHandle(w.contract, View(w), w.now, e.sender, e.funds, e.msg);
        if r.Ok? {
          CallReturnsNothing(w.contract, View(w), w.now, e.sender, e.funds, e.msg, id);
          ReturnedIn(w.log, r.value.1, id);
        }
      }
      RejectedStays(v, api, events[1..], id);
    }
  }

  lemma RejectedOnce(b: Board, c: Board, id: nat)
    requires Forward(b, c) && id in b.proposals && b.proposals[id].status == Rejected
    ensures id in c.proposals && c.proposals[id].status == Rejected
  {
    assert LaterVersion(b.proposals[id], c.proposals[id]);
  }

  lemma ReturnedIn(log: seq<Effect>, more: seq<Effect>, id: nat)
    ensures Returned(log + more, id) <==> Returned(log, id) || Returned(more, id)
  {
    if Returned(log, id) {
      var e :| e in log && e.ReturnDeposit? && e.id == id;
      assert e in log + more;
    }
    if Returned(more, id) {
      var e :| e in more && e.ReturnDeposit? && e.id == id;
      assert e in log + more;
    }
  }

  /** A deposit is only returned for a proposal that is executed, or rejected. */
  lemma NotYetReturned(w: World, id: nat)
    requires Inv(w)
    requires id in w.contract.board.proposals ==> !Terminal(w.contract.board.proposals[id].status)
    ensures !Returned(w.log, id)
  {
    hide Consistent, Snapshots, Cw4Group.TotalIsSum;
    forall e | e in w.log
      ensures !(e.ReturnDeposit? && e.id == id)
    {
      assert Entry(w.contract.board.proposals, e);
    }
  }

  /** The deposit of a proposal that is closed is to be returned. */
  predicate RefundsFailure(p: Proposal) {
    p.deposit.Some? && p.deposit.value.refundFailedProposals
  }

  /** What rejection means for the deposit, over any run: when a call leaves a proposal
      rejected, its deposit is returned, with that call or in any continuation, if and only
      if the call is its closing and the deposit says that failed proposals are refunded.
      So a rejection by votes keeps the deposit for good: nothing can be called afterwards. */
  lemma RejectedRefundExactly(genesis: World, api: string -> bool, events: seq<Event>,
                              sender: Addr, funds: seq<Coin>, msg: Msg, id: nat, more: seq<Event>)
    requires Genesis(genesis)
    ensures var w := Run(genesis, api, events);
            var v := Apply(w, api, Call(sender, funds, msg));
            var b, c := w.contract.board, v.contract.board;
            id in c.proposals && c.proposals[id].status == Rejected
            && (id in b.proposals ==> b.proposals[id].status != Rejected) ==>
              var u := Run(v, api, more);
              && (Returned(u.log, id) <==> msg == Close(id) && RefundsFailure(c.proposals[id]))
              && (Returned(v.log, id) <==> Returned(u.log, id))
              && id in u.contract.board.proposals && u.contract.board.proposals[id].status == Rejected
  {
    hide Inv, Run, Forward, Returned, FlexHandle, RefundsFailure;
    GenesisInv(genesis);
    RunKeeps(genesis, api, events);
    var w := Run(genesis, api, events);
    var e := Call(sender, funds, msg);
    var v := Apply(w, api, e);
    var b, c := w.contract.board, v.contract.board;
    ApplyKeeps(w, api, e);
    if id in c.proposals && c.proposals[id].status == Rejected
       && (id in b.proposals ==> b.proposals[id].status != Rejected)
    {
      ApplyForward(w, api, e);
      if id in b.proposals {
        BecameRejected(b, c, id);
      }
      NotYetReturned(w, id);
      assert FlexHandle(w.contract, View(w), w.now, sender, funds, msg).Ok?;
      if msg == Close(id) {
        ClosingReturns(w.contract, View(w), w.now, sender, funds, id);
      } else {
        RejectingReturnsNothing(w.contract, View(w), w.now, sender, funds, msg, id);
      }
      ReturnedIn(w.log, FlexHandle(w.contract, View(w), w.now, sender, funds, msg).value.1, id);
      RejectedStays(v, api, more, id);
    }
  }

  lemma ClosingReturns(s: FlexState, g: GroupView, block: Block, sender: Addr, funds: seq<Coin>, id: nat)
    requires FlexHandle(s, g, block, sender, funds, Close(id)).Ok?
    ensures var r := FlexHandle(s, g, block, sender, funds, Close(id)).value;
            id in r.0.board.proposals && (Returned(r.1, id) <==> RefundsFailure(r.0.board.proposals[id]))
  {
    hide CurrentStatus;
    var r := FlexHandle(s, g, block, sender, funds, Close(id)).value;
    var p := s.board.proposals[id];
    if RefundsFailure(p) {
      assert ReturnDeposit(id, p.proposer, p.deposit.value) in r.1;
    }
  }

  lemma BecameRejected(b: Board, c: Board, id: nat)
    requires Forward(b, c) && id in b.proposals && id in c.proposals
    requires c.proposals[id].status == Rejected && b.proposals[id].status != Rejected
    ensures !Terminal(b.proposals[id].status)
  {
    assert LaterVersion(b.proposals[id], c.proposals[id]);
  }

  lemma RejectingReturnsNothing(s: FlexState, g: GroupView, block: Block, sender: Addr, funds: seq<Coin>, msg: Msg,
                                id: nat)
    requires msg != Close(id) && FlexHandle(s, g, block, sender, funds, msg).Ok?
    requires var c := FlexHandle(s, g, block, sender, funds, msg).value.0.board;
             id in c.proposals && c.proposals[id].status == Rejected
    ensures !Returned(FlexHandle(s, g, block, sender, funds, msg).value.1, id)
  {
    hide OpenProposal, CastVote, CurrentStatus, ChooseExpiry;
  }
}
