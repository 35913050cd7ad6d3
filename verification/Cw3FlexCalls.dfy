/** What every call of the flex multisig does, in every run: when it goes through, what it
    changes, and what it sends out, deposits included. */
module Cw3FlexCalls {
  import opened Prelude
  import opened Sums
  import opened Cw3Proposal
  import opened Cw3Board
  import opened Cw3History
  import opened Cw3Meaning
  import opened Cw3Flex
  import opened Cw3FlexTheorems
  import opened Cw3FlexTraps
  import Cw4Group

  /** A deposit in coins must come with the proposal, exactly, and alone. */
  predicate DepositPaid(deposit: Option<DepositInfo>, funds: seq<Coin>) {
    match deposit
    case Some(DepositInfo(amount, NativeDenom(name), _)) => amount > 0 && funds == [Coin(name, amount)]
    case _ => true
  }

  /** A deposit in cw20 tokens is taken from the proposer. */
  function DepositTaken(deposit: Option<DepositInfo>, proposer: Addr): seq<Effect> {
    match deposit
    case Some(DepositInfo(amount, Cw20Denom(_), _)) => if amount > 0 then [TakeDeposit(proposer, deposit.value)] else []
    case _ => []
  }

  /** Who may execute a proposal that has passed. */
  predicate MayCarryOut(config: FlexConfig, members: Members, sender: Addr) {
    match config.executor
    case None => true
    case Some(AnyMember) => sender in members
    case Some(Only(addr)) => sender == addr
  }

  /** The members with which the block of a proposal began, with what they weighed. */
  function Electors(w: World, id: nat): Members {
    if id in w.contract.board.proposals && w.contract.board.proposals[id].startHeight < |w.atStart|
    then w.atStart[w.contract.board.proposals[id].startHeight] else map[]
  }

  /** When each call goes through. */
  ghost predicate Accepts(w: World, sender: Addr, funds: seq<Coin>, msg: Msg) {
    var config, b := w.contract.config, w.contract.board;
    match msg
    case Propose(_, latest) =>
      && DepositPaid(config.proposalDeposit, funds) && sender in w.group.members && b.count < U64_MAX
      && config.maxVotingPeriod.Fits(w.now) && SameKind(latest, config.maxVotingPeriod)
      && (config.threshold.AbsoluteCount? ==> config.threshold.weight <= w.group.total)
    case CastBallot(id, vote) =>
      && TakesVoteOf(b, w.now, id, sender) && sender in Electors(w, id) && Electors(w, id)[sender] >= 1
      && !VoteTraps(b.proposals[id], vote, Electors(w, id)[sender])
    case Execute(id) => MayExecute(b, w.now, id) && MayCarryOut(config, w.group.members, sender)
    case Close(id) => MayClose(b, w.now, id)
    case MemberChangedHook(_) => sender == config.groupAddr
  }

  /** What a call that goes through sends out. */
  function Sent(w: World, sender: Addr, msg: Msg): seq<Effect>
    requires msg.Execute? || msg.Close? ==> msg.id in w.contract.board.proposals
  {
    match msg
    case Propose(_, _) => DepositTaken(w.contract.config.proposalDeposit, sender)
    case Execute(id) =>
      var p := w.contract.board.proposals[id];
      (if p.deposit.Some? then [ReturnDeposit(id, p.proposer, p.deposit.value)] else []) + [Dispatch(id, p.msgs)]
    case Close(id) =>
      var p := w.contract.board.proposals[id];
      if p.deposit.Some? && p.deposit.value.refundFailedProposals
      then [ReturnDeposit(id, p.proposer, p.deposit.value)] else []
    case _ => []
  }

  /** The world after a call that goes through. */
  ghost predicate Done(w: World, sender: Addr, msg: Msg, v: World) {
    var config, b, c := w.contract.config, w.contract.board, v.contract.board;
    && v == w.(contract := w.contract.(board := c), log := v.log)
    && (msg.Execute? || msg.Close? ==> msg.id in b.proposals)
    && v.log == w.log + Sent(w, sender, msg)
    && match msg
       case Propose(msgs, latest) =>
         && sender in w.group.members && c.count in c.proposals
         && var p := c.proposals[c.count];
            && Opened(b, c, w.now, p) && Deadline(latest, config.maxVotingPeriod, w.now, p.expires)
            && p.msgs == msgs && p.proposer == sender && p.votes.yes == w.group.members[sender]
            && p.threshold == config.threshold && p.totalWeight == w.group.total && p.deposit == config.proposalDeposit
       case CastBallot(id, vote) =>
         sender in Electors(w, id) && Recorded(b, c, w.now, id, sender, Electors(w, id)[sender], vote)
       case Execute(id) => Ended(b, c, id, Executed)
       case Close(id) => Ended(b, c, id, Rejected)
       case MemberChangedHook(_) => c == b
  }

  lemma DepositExactly(deposit: Option<DepositInfo>, funds: seq<Coin>, sender: Addr)
    ensures CheckNativeDepositPaid(deposit, funds).Ok? <==> DepositPaid(deposit, funds)
    ensures TakeDepositMessages(deposit, sender) == DepositTaken(deposit, sender)
  {
    if |funds| == 1 {
      assert funds == [funds[0]];
    }
  }

  lemma ProposeExactly(w: World, api: string -> bool, sender: Addr, funds: seq<Coin>, msgs: seq<CosmosMsg>,
                       latest: Option<Expiration>)
    requires Inv(w)
    ensures var msg := Propose(msgs, latest);
            var r := FlexHandle(w.contract, View(w), w.now, sender, funds, msg);
            && (r.Ok? <==> Accepts(w, sender, funds, msg))
            && (r.Ok? ==> Done(w, sender, msg, Apply(w, api, Call(sender, funds, msg))))
  {
    hide CurrentStatus, OpenProposal, ChooseExpiry, Verdict, Duration.Fits, SameKind, Deadline, LogMatches, Consistent,
         Snapshots, CheckNativeDepositPaid, TakeDepositMessages, DepositPaid, DepositTaken;
    var s := w.contract;
    DepositExactly(s.config.proposalDeposit, funds, sender);
    ExpiryExactly(latest, s.config.maxVotingPeriod, w.now);
    if sender in w.group.members && ChooseExpiry(latest, s.config.maxVotingPeriod, w.now).Ok? {
      MemberWithinTotal(w, sender);
      var draft := FlexDraft(s, View(w), w.now, sender, w.group.members[sender], msgs,
                             ChooseExpiry(latest, s.config.maxVotingPeriod, w.now).value);
      if StatusTraps(draft, w.now) {
        StatusTrapsExactly(draft, w.now);
        TrappedStaysUnopened(s.board, w.now, draft);
      } else {
        OpensExactly(s.board, w.now, draft);
      }
    }
  }

  lemma TrappedStaysUnopened(b: Board, now: Block, draft: Proposal)
    requires CurrentStatus(draft, now).Err?
    ensures OpenProposal(b, now, draft).Err?
  {
    hide CurrentStatus;
  }

  lemma VoteExactly(w: World, api: string -> bool, sender: Addr, funds: seq<Coin>, id: nat, vote: Vote)
    requires Inv(w)
    ensures var msg := CastBallot(id, vote);
            var r := FlexHandle(w.contract, View(w), w.now, sender, funds, msg);
            && (r.Ok? <==> Accepts(w, sender, funds, msg))
            && (r.Ok? ==> Done(w, sender, msg, Apply(w, api, Call(sender, funds, msg))))
  {
    hide CurrentStatus, CastVote, Recorded, LogMatches, Consistent, VoteTraps, FromSnapshot, Cw4Group.TotalIsSum;
    var b := w.contract.board;
    if Votable(b, w.now, id).Ok? {
      assert b.proposals[id].startHeight < |w.atStart|;
      if sender in Electors(w, id) {
        CastTraps(b, w.now, id, sender, Electors(w, id)[sender], vote);
        RecordsExactly(b, w.now, id, sender, Electors(w, id)[sender], vote);
      }
    }
  }

  lemma EndExactly(w: World, api: string -> bool, sender: Addr, funds: seq<Coin>, id: nat)
    requires Inv(w) && Cw3FlexTraps.Counted(w.contract.board.proposals)
    ensures var r := FlexHandle(w.contract, View(w), w.now, sender, funds, Execute(id));
            && (r.Ok? <==> Accepts(w, sender, funds, Execute(id)))
            && (r.Ok? ==> Done(w, sender, Execute(id), Apply(w, api, Call(sender, funds, Execute(id)))))
    ensures var r := FlexHandle(w.contract, View(w), w.now, sender, funds, Close(id));
            && (r.Ok? <==> Accepts(w, sender, funds, Close(id)))
            && (r.Ok? ==> Done(w, sender, Close(id), Apply(w, api, Call(sender, funds, Close(id)))))
  {
    hide CurrentStatus, ExecuteProposal, CloseProposal, MayExecute, MayClose, LogMatches, Snapshots, Consistent,
         Cw4Group.TotalIsSum;
    ExecutesExactly(w.contract.board, w.now, id);
    ClosesExactly(w.contract.board, w.now, id);
  }

  /** Every call of every run, exactly; one that does not go through changes nothing. */
  lemma CallExactly(genesis: World, api: string -> bool, events: seq<Event>, sender: Addr, funds: seq<Coin>, msg: Msg)
    requires Genesis(genesis)
    ensures var w := Run(genesis, api, events);
            var v := Apply(w, api, Call(sender, funds, msg));
            if Accepts(w, sender, funds, msg) then Done(w, sender, msg, v) else v == w
  {
    hide Inv, Run, Cw3FlexTraps.Counted, CastVote, OpenProposal, FlexPropose, FlexVote, FlexExecute, FlexClose;
    GenesisInv(genesis);
    RunKeeps(genesis, api, events);
    StartsCounted(genesis);
    RunKeepsCounted(genesis, api, events);
    AnyCallExactly(Run(genesis, api, events), api, sender, funds, msg);
  }

  lemma AnyCallExactly(w: World, api: string -> bool, sender: Addr, funds: seq<Coin>, msg: Msg)
    requires Inv(w) && Cw3FlexTraps.Counted(w.contract.board.proposals)
    ensures var r := FlexHandle(w.contract, View(w), w.now, sender, funds, msg);
            && (r.Ok? <==> Accepts(w, sender, funds, msg))
            && (r.Ok? ==> Done(w, sender, msg, Apply(w, api, Call(sender, funds, msg))))
  {
    hide Inv, Cw3FlexTraps.Counted, FlexPropose, FlexVote, FlexExecute, FlexClose, DepositPaid, DepositTaken,
         Duration.Fits, SameKind, TakesVoteOf, VoteTraps, MayExecute, MayClose, Opened, Recorded, Deadline;
    match msg
    case Propose(msgs, latest) => ProposeExactly(w, api, sender, funds, msgs, latest);
    case CastBallot(id, vote) => VoteExactly(w, api, sender, funds, id, vote);
    case Execute(id) => EndExactly(w, api, sender, funds, id);
    case Close(id) => EndExactly(w, api, sender, funds, id);
    case MemberChangedHook(_) =>
  }

  /** What a stored status means at this and every later block of any run, by the ballots, for
      every proposal whose possible tally is within its recorded total; and what passing
      means for any stored proposal. */
  lemma StatusMeans(genesis: World, api: string -> bool, events: seq<Event>, id: nat, later: Block)
    requires Genesis(genesis) && Run(genesis, api, events).now.NotAfter(later)
    ensures var w := Run(genesis, api, events);
            var b := w.contract.board;
            Inv(w) && (id in b.proposals ==>
              var p, ballots := b.proposals[id], BallotsOf(b, id);
              var carried := Carried(p.threshold, p.totalWeight, ballots, p.expires.IsExpired(later));
              && (IsPassed(p, later) == Ok(true) <==> carried)
              && (PotentialOf(w, id) <= p.totalWeight ==>
                    && (p.status == Passed || p.status == Executed ==> carried)
                    && (p.status == Rejected ==> !carried)
                    && (p.status == Open && !p.expires.IsExpired(later) ==> Verdict(p, ballots, later) == Open)))
  {
    hide Run, Genesis, CurrentStatus, IsPassed, Carried, Verdict, PotentialOf, LogMatches, Snapshots, VerdictHolds,
         Cw4Group.TotalIsSum;
    FlexVerdictIsRight(genesis, api, events, id, later);
    var w := Run(genesis, api, events);
    var b := w.contract.board;
    if id in b.proposals {
      var p := b.proposals[id];
      assert Tallied(p, BallotsOf(b, id));
      PassedExactly(p, BallotsOf(b, id), later);
      if PotentialOf(w, id) <= p.totalWeight && p.status == Open && !p.expires.IsExpired(later) {
        StatusTrapsExactly(p, later);
        StatusExactly(p, BallotsOf(b, id), later);
      }
    }
  }

  /** What an execution leaves in the log of every run, once and for all: the messages of
      the proposal, right after its deposit, if it has one, went back to its proposer; and
      neither of them a second time, before or after. */
  lemma ExecutedIsSettledOnce(genesis: World, api: string -> bool, events: seq<Event>, id: nat) returns (j: nat)
    requires Genesis(genesis)
    requires var w := Run(genesis, api, events);
             id in w.contract.board.proposals && w.contract.board.proposals[id].status == Executed
    ensures var w := Run(genesis, api, events);
            var p := w.contract.board.proposals[id];
            && j < |w.log| && w.log[j] == Dispatch(id, p.msgs)
            && (p.deposit.Some? ==> j > 0 && w.log[j - 1] == ReturnDeposit(id, p.proposer, p.deposit.value))
            && (forall k | 0 <= k < |w.log| && k != j :: !(w.log[k].Dispatch? && w.log[k].id == id))
            && (forall k | 0 <= k < |w.log| && !(p.deposit.Some? && k == j - 1) ::
                  !(w.log[k].ReturnDeposit? && w.log[k].id == id))
  {
    hide Run, Consistent, Snapshots;
    GenesisInv(genesis);
    RunKeeps(genesis, api, events);
    var w := Run(genesis, api, events);
    var p := w.contract.board.proposals[id];
    assert Settled(w.log, id, p);
    j :| j < |w.log| && w.log[j] == Dispatch(id, p.msgs)
         && (p.deposit.Some? ==> j > 0 && w.log[j - 1] == ReturnDeposit(id, p.proposer, p.deposit.value));
    forall k | 0 <= k < |w.log| && k != j
      ensures !(w.log[k].Dispatch? && w.log[k].id == id)
    {
      assert !Twice(w.log[k], w.log[j]) || !Twice(w.log[j], w.log[k]);
    }
    forall k | 0 <= k < |w.log| && !(p.deposit.Some? && k == j - 1)
      ensures !(w.log[k].ReturnDeposit? && w.log[k].id == id)
    {
      assert Entry(w.contract.board.proposals, w.log[k]);
      assert p.deposit.Some? ==> !Twice(w.log[k], w.log[j - 1]) || !Twice(w.log[j - 1], w.log[k]);
    }
  }

  /** A new contract, exactly. */
  lemma InstantiateExactly(g: GroupView, limits: Threshold -> bool, config: FlexConfig)
    ensures var r := InstantiateFlex(g, limits, config);
            && (r.Ok? <==> && limits(config.threshold)
                           && (match config.threshold
                               case AbsoluteCount(weight) => 0 < weight <= g.total
                               case AbsolutePercentage(p) => p > 0
                               case ThresholdQuorum(p, q) => p > 0 && q > 0)
                           && (config.proposalDeposit.Some? ==> config.proposalDeposit.value.amount > 0))
            && (r.Ok? ==> r.value == FlexState(config, Board(0, map[], map[])))
  {
  }
}
