/** The multisig whose voters are a group in another contract
    (contracts/cw3-flex-multisig/src/{contract,state}.rs and packages/cw4/src/helpers.rs),
    with deposits (packages/cw3/src/deposit.rs). */
module Cw3Flex {
  import opened Prelude
  import opened Cw3Rounding
  import opened Cw3Proposal
  import opened Cw3Board
  import Cw4Group

  type Members = Cw4Group.Members

  /** What the multisig can query of its group: the members and the total as they are now,
      and the members at the start of each block up to the current one. */
  datatype GroupView = GroupView(members: Members, total: Uint64, atStart: seq<Members>) {
    function IsMember(addr: Addr): Option<Uint64> {
      Cw4Group.Lookup(members, addr)
    }

    function MemberAtHeight(addr: Addr, height: nat): Option<Uint64> {
      Cw4Group.Lookup(if height < |atStart| then atStart[height] else members, addr)
    }

    /** Only members with a weight of at least one vote. */
    function IsVotingMember(addr: Addr, height: nat): Option<Uint64> {
      var weight := MemberAtHeight(addr, height);
      if weight.Some? && weight.value >= 1 then weight else None
    }
  }

  datatype Executor = AnyMember | Only(addr: Addr)

  datatype FlexConfig = FlexConfig(
    groupAddr: Addr,
    threshold: Threshold,
    maxVotingPeriod: Duration,
    executor: Option<Executor>,
    proposalDeposit: Option<DepositInfo>)

  datatype Msg =
    | Propose(msgs: seq<CosmosMsg>, latest: Option<Expiration>)
    | CastBallot(id: nat, vote: Vote)
    | Execute(id: nat)
    | Close(id: nat)
    | MemberChangedHook(diffs: seq<Cw4Group.MemberDiff>)

  datatype FlexState = FlexState(config: FlexConfig, board: Board)

  function MustPay(funds: seq<Coin>, denom: string): Result<Uint128> {
    if |funds| != 1 || funds[0].amount == 0 || funds[0].denom != denom then Err(InvalidDeposit)
    else Ok(funds[0].amount)
  }

  function CheckNativeDepositPaid(deposit: Option<DepositInfo>, funds: seq<Coin>): Result<()> {
    if deposit.None? || deposit.value.denom.Cw20Denom? then Ok(())
    else
      var paid :- MustPay(funds, deposit.value.denom.name);
      if paid == deposit.value.amount then Ok(()) else Err(InvalidDeposit)
  }

  function TakeDepositMessages(deposit: Option<DepositInfo>, depositor: Addr): seq<Effect> {
    if deposit.Some? && deposit.value.denom.Cw20Denom? && deposit.value.amount != 0
    then [TakeDeposit(depositor, deposit.value)] else []
  }

  /** `limits` is what `Threshold::validate` asks of percentages beyond not being zero. */
  function InstantiateFlex(g: GroupView, limits: Threshold -> bool, config: FlexConfig): Result<FlexState> {
    if !ValidThreshold(config.threshold, g.total) || !limits(config.threshold) then Err(InvalidThreshold)
    else if config.proposalDeposit.Some? && config.proposalDeposit.value.amount == 0 then Err(InvalidDeposit)
    else Ok(FlexState(config, EMPTY_BOARD))
  }

  function FlexDraft(s: FlexState, g: GroupView, block: Block, sender: Addr, power: Uint64,
                     msgs: seq<CosmosMsg>, expires: Expiration): Proposal {
    Proposal(block.height, expires, msgs, Open, s.config.threshold, g.total,
             Votes(power, 0, 0, 0), sender, s.config.proposalDeposit)
  }

  /** Members may propose, and so cast a yes vote, even with no weight. */
  function FlexPropose(s: FlexState, g: GroupView, block: Block, sender: Addr, funds: seq<Coin>,
                       msgs: seq<CosmosMsg>, latest: Option<Expiration>): Result<(FlexState, seq<Effect>)> {
    var _ :- CheckNativeDepositPaid(s.config.proposalDeposit, funds);
    var power := g.IsMember(sender);
    :- Need(power.Some?, Unauthorized);
    var expires :- ChooseExpiry(latest, s.config.maxVotingPeriod, block);
    var (board, _) :- OpenProposal(s.board, block, FlexDraft(s, g, block, sender, power.value, msgs, expires));
    Ok((s.(board := board), TakeDepositMessages(s.config.proposalDeposit, sender)))
  }

  /** Votes weigh what the voter weighed when the block of the proposal began. */
  function FlexVote(s: FlexState, g: GroupView, block: Block, sender: Addr, id: nat, vote: Vote)
    : Result<(FlexState, seq<Effect>)> {
    var p :- Votable(s.board, block, id);
    var power := g.IsVotingMember(sender, p.startHeight);
    :- Need(power.Some?, Unauthorized);
    var board :- CastVote(s.board, block, id, p, sender, power.value, vote);
    Ok((s.(board := board), []))
  }

  predicate Authorized(config: FlexConfig, g: GroupView, sender: Addr) {
    match config.executor
    case None => true
    case Some(AnyMember) => g.IsMember(sender).Some?
    case Some(Only(addr)) => addr == sender
  }

  function FlexExecute(s: FlexState, g: GroupView, block: Block, sender: Addr, id: nat)
    : Result<(FlexState, seq<Effect>)>
  {
    var p :- ExecuteProposal(s.board, block, id);
    :- Need(Authorized(s.config, g, sender), Unauthorized);
    Ok((s.(board := SaveProposal(s.board, id, p)), Executing(id, p)))
  }

  function FlexClose(s: FlexState, block: Block, id: nat): Result<(FlexState, seq<Effect>)> {
    var p :- CloseProposal(s.board, block, id);
    Ok((s.(board := SaveProposal(s.board, id, p)), Closing(id, p)))
  }

  function FlexHandle(s: FlexState, g: GroupView, block: Block, sender: Addr, funds: seq<Coin>, msg: Msg)
    : Result<(FlexState, seq<Effect>)>
  {
    match msg
    case Propose(msgs, latest) => FlexPropose(s, g, block, sender, funds, msgs, latest)
    case CastBallot(id, vote) => FlexVote(s, g, block, sender, id, vote)
    case Execute(id) => FlexExecute(s, g, block, sender, id)
    case Close(id) => FlexClose(s, block, id)
    case MemberChangedHook(_) =>
      // only the group may call it, and nothing happens
      :- Need(sender == s.config.groupAddr, Unauthorized);
      Ok((s, []))
  }

  // ------------------------------------------------------------- the contract

  class FlexMultisig {
    var config: FlexConfig
    var proposalCount: Uint64
    var proposals: map<nat, Proposal>
    var ballots: map<nat, Ballots>

    function Storage(): FlexState
      reads this
    {
      FlexState(config, Board(proposalCount, proposals, ballots))
    }

    constructor (config: FlexConfig)
      ensures Storage() == FlexState(config, EMPTY_BOARD)
    {
      this.config := config;
      proposalCount, proposals, ballots := 0, map[], map[];
    }

    method DoPropose(g: GroupView, block: Block, sender: Addr, funds: seq<Coin>,
                     msgs: seq<CosmosMsg>, latest: Option<Expiration>) returns (r: Result<seq<Effect>>)
      modifies this`proposalCount, this`proposals, this`ballots
      ensures match FlexPropose(old(Storage()), g, block, sender, funds, msgs, latest)
              case Ok((s, effects)) => r == Ok(effects) && Storage() == s
              case Err(e) => r == Err(e)
    {
      hide CurrentStatus;
      var paid := CheckNativeDepositPaid(config.proposalDeposit, funds);
      if paid.Err? {
        return Err(paid.error);
      }
      if sender !in g.members {
        return Err(Unauthorized);
      }
      var power := g.members[sender];
      var maxExpires := config.maxVotingPeriod.After(block);
      if maxExpires.Err? {
        return Err(maxExpires.error);
      }
      var expires := latest.UnwrapOr(maxExpires.value);
      if expires.LaterThan(maxExpires.value) {
        expires := maxExpires.value;
      } else if expires.Incomparable(maxExpires.value) {
        return Err(WrongExpiration);
      }
      var take := TakeDepositMessages(config.proposalDeposit, sender);
      var prop := Proposal(block.height, expires, msgs, Open, config.threshold, g.total,
                           Votes(power, 0, 0, 0), sender, config.proposalDeposit);
      var status := CurrentStatus(prop, block);
      if status.Err? {
        return Err(status.error);
      }
      prop := prop.(status := status.value);
      if proposalCount == U64_MAX {
        return Err(Panic);
      }
      proposalCount := proposalCount + 1;
      var id := proposalCount;
      proposals := proposals[id := prop];
      var cast := if id in ballots then ballots[id] else map[];
      ballots := ballots[id := cast[sender := Ballot(power, Yes)]];
      return Ok(take);
    }

    method DoVote(g: GroupView, block: Block, sender: Addr, id: nat, vote: Vote) returns (r: Result<seq<Effect>>)
      modifies this`proposals, this`ballots
      ensures match FlexVote(old(Storage()), g, block, sender, id, vote)
              case Ok((s, effects)) => r == Ok(effects) && Storage() == s
              case Err(e) => r == Err(e)
    {
      hide CurrentStatus, CastVote;
      if id !in proposals {
        return Err(NotFound);
      }
      var prop := proposals[id];
      if prop.status != Open && prop.status != Passed && prop.status != Rejected {
        return Err(NotOpen);
      }
      if prop.expires.IsExpired(block) {
        return Err(Expired);
      }
      var power := g.IsVotingMember(sender, prop.startHeight);
      if power.None? {
        return Err(Unauthorized);
      }
      var done := Cast(block, id, prop, sender, power.value, vote);
      r := if done.Ok? then Ok([]) else Err(done.error);
    }

    /** The second half of a vote: the ballot, the tally and the status. */
    method Cast(block: Block, id: nat, found: Proposal, sender: Addr, power: Uint64, vote: Vote) returns (r: Result<()>)
      modifies this`proposals, this`ballots
      ensures match CastVote(old(Storage()).board, block, id, found, sender, power, vote)
              case Ok(board) => r.Ok? && Storage() == old(Storage()).(board := board)
              case Err(e) => r == Err(e)
    {
      hide CurrentStatus, Votes.AddVote;
      var prop := found;
      var cast := if id in ballots then ballots[id] else map[];
      if sender in cast {
        return Err(AlreadyVoted);
      }
      ballots := ballots[id := cast[sender := Ballot(power, vote)]];
      var votes := prop.votes.AddVote(vote, power);
      if votes.Err? {
        return Err(votes.error);
      }
      prop := prop.(votes := votes.value);
      var status := CurrentStatus(prop, block);
      if status.Err? {
        return Err(status.error);
      }
      prop := prop.(status := status.value);
      proposals := proposals[id := prop];
      return Ok(());
    }

    method DoExecute(g: GroupView, block: Block, sender: Addr, id: nat) returns (r: Result<seq<Effect>>)
      modifies this`proposals
      ensures match FlexExecute(old(Storage()), g, block, sender, id)
              case Ok((s, effects)) => r == Ok(effects) && Storage() == s
              case Err(e) => r == Err(e)
    {
      hide CurrentStatus;
      if id !in proposals {
        return Err(NotFound);
      }
      var prop := proposals[id];
      var status := CurrentStatus(prop, block);
      if status.Err? {
        return Err(status.error);
      }
      prop := prop.(status := status.value);
      if prop.status != Passed {
        return Err(WrongExecuteStatus);
      }
      if !Authorized(config, g, sender) {
        return Err(Unauthorized);
      }
      prop := prop.(status := Executed);
      proposals := proposals[id := prop];
      var response: seq<Effect> := [];
      if prop.deposit.Some? {
        response := [ReturnDeposit(id, prop.proposer, prop.deposit.value)];
      }
      return Ok(response + [Dispatch(id, prop.msgs)]);
    }

    method DoClose(block: Block, id: nat) returns (r: Result<seq<Effect>>)
      modifies this`proposals
      ensures match FlexClose(old(Storage()), block, id)
              case Ok((s, effects)) => r == Ok(effects) && Storage() == s
              case Err(e) => r == Err(e)
    {
      hide CurrentStatus;
      if id !in proposals {
        return Err(NotFound);
      }
      var prop := proposals[id];
      if prop.status == Executed || prop.status == Rejected || prop.status == Passed {
        return Err(WrongCloseStatus);
      }
      var status := CurrentStatus(prop, block);
      if status.Err? {
        return Err(status.error);
      }
      if status.value == Passed {
        return Err(WrongCloseStatus);
      }
      if !prop.expires.IsExpired(block) {
        return Err(NotExpired);
      }
      prop := prop.(status := Rejected);
      proposals := proposals[id := prop];
      var response: seq<Effect> := [];
      if prop.deposit.Some? {
        if prop.deposit.value.refundFailedProposals {
          response := [ReturnDeposit(id, prop.proposer, prop.deposit.value)];
        }
      }
      return Ok(response);
    }

    /** A call to the contract; the chain takes back all writes of a call that fails. */
    method Call(g: GroupView, block: Block, sender: Addr, funds: seq<Coin>, msg: Msg)
      returns (r: Result<seq<Effect>>)
      modifies this`proposalCount, this`proposals, this`ballots
      ensures match FlexHandle(old(Storage()), g, block, sender, funds, msg)
              case Ok((s, effects)) => r == Ok(effects) && Storage() == s
              case Err(e) => r == Err(e) && Storage() == old(Storage())
    {
      hide FlexPropose, FlexVote, FlexExecute, FlexClose;
      var before := Storage().board;
      match msg {
        case Propose(msgs, latest) => r := DoPropose(g, block, sender, funds, msgs, latest);
        case CastBallot(id, vote) => r := DoVote(g, block, sender, id, vote);
        case Execute(id) => r := DoExecute(g, block, sender, id);
        case Close(id) => r := DoClose(block, id);
        case MemberChangedHook(_) => r := if sender != config.groupAddr then Err(Unauthorized) else Ok([]);
      }
      if r.Err? {
        proposalCount, proposals, ballots := before.count, before.proposals, before.ballots;
      }
    }
  }
}
