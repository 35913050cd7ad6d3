/** The multisig with a fixed set of voters (contracts/cw3-fixed-multisig/src/contract.rs):
    its handlers as functions, and the contract object that updates its storage in place. */
module Cw3Fixed {
  import opened Prelude
  import opened Sums
  import opened Cw3Rounding
  import opened Cw3Proposal
  import opened Cw3Board

  datatype Voter = Voter(addr: string, weight: Uint64)

  datatype Config = Config(threshold: Threshold, totalWeight: Uint64, maxVotingPeriod: Duration)

  datatype State = State(config: Config, voters: map<Addr, Uint64>, board: Board)

  // ------------------------------------------------------------ instantiation

  function TotalOf(voters: seq<Voter>): nat {
    if voters == [] then 0 else TotalOf(voters[..|voters| - 1]) + voters[|voters| - 1].weight
  }

  /** `VOTERS` after the loop of `instantiate`: a later entry replaces an earlier one. */
  function VotersOf(voters: seq<Voter>): map<Addr, Uint64> {
    if voters == [] then map[]
    else VotersOf(voters[..|voters| - 1])[voters[|voters| - 1].addr := voters[|voters| - 1].weight]
  }

  /** `limits` is what `Threshold::validate` asks of percentages beyond not being zero. */
  function Instantiate(api: string -> bool, limits: Threshold -> bool, voters: seq<Voter>, t: Threshold,
                       period: Duration): Result<State>
  {
    if voters == [] then Err(NoVoters)
    else if TotalOf(voters) > U64_MAX then Err(Panic)
    else if !ValidThreshold(t, TotalOf(voters)) || !limits(t) then Err(InvalidThreshold)
    else if exists i :: 0 <= i < |voters| && !api(voters[i].addr) then Err(InvalidAddress)
    else Ok(State(Config(t, TotalOf(voters), period), VotersOf(voters), EMPTY_BOARD))
  }

  // ----------------------------------------------------------------- handlers

  datatype Msg =
    | Propose(msgs: seq<CosmosMsg>, latest: Option<Expiration>)
    | CastBallot(id: nat, vote: Vote)
    | Execute(id: nat)
    | Close(id: nat)

  function Draft(s: State, block: Block, sender: Addr, power: Uint64, msgs: seq<CosmosMsg>, expires: Expiration)
    : Proposal
  {
    Proposal(block.height, expires, msgs, Open, s.config.threshold, s.config.totalWeight,
             Votes(power, 0, 0, 0), sender, None)
  }

  function VotePower(s: State, voter: Addr): Result<Uint64> {
    if voter in s.voters then Ok(s.voters[voter]) else Err(Unauthorized)
  }

  function ExecutePropose(s: State, block: Block, sender: Addr, msgs: seq<CosmosMsg>, latest: Option<Expiration>)
    : Result<State>
  {
    var power :- VotePower(s, sender);
    var expires :- ChooseExpiry(latest, s.config.maxVotingPeriod, block);
    var (board, _) :- OpenProposal(s.board, block, Draft(s, block, sender, power, msgs, expires));
    Ok(s.(board := board))
  }

  function ExecuteVote(s: State, block: Block, sender: Addr, id: nat, vote: Vote): Result<State> {
    var power :- VotePower(s, sender);
    :- Need(power >= 1, Unauthorized);
    var p :- Votable(s.board, block, id);
    var board :- CastVote(s.board, block, id, p, sender, power, vote);
    Ok(s.(board := board))
  }

  function ExecuteExecute(s: State, block: Block, id: nat): Result<(State, seq<Effect>)> {
    var p :- ExecuteProposal(s.board, block, id);
    Ok((s.(board := SaveProposal(s.board, id, p)), [Dispatch(id, p.msgs)]))
  }

  function ExecuteClose(s: State, block: Block, id: nat): Result<State> {
    var p :- CloseProposal(s.board, block, id);
    Ok(s.(board := SaveProposal(s.board, id, p)))
  }

  function Handle(s: State, block: Block, sender: Addr, msg: Msg): Result<(State, seq<Effect>)> {
    match msg
    case Propose(msgs, latest) =>
      var t :- ExecutePropose(s, block, sender, msgs, latest);
      Ok((t, []))
    case CastBallot(id, vote) =>
      var t :- ExecuteVote(s, block, sender, id, vote);
      Ok((t, []))
    case Execute(id) => ExecuteExecute(s, block, id)
    case Close(id) =>
      var t :- ExecuteClose(s, block, id);
      Ok((t, []))
  }

  // ------------------------------------------------------------- the contract

  method AddWeights(voters: seq<Voter>) returns (total: nat)
    ensures total == TotalOf(voters)
  {
    total := 0;
    for i := 0 to |voters|
      invariant total == TotalOf(voters[..i])
    {
      assert voters[..i + 1][..i] == voters[..i];
      total := total + voters[i].weight;
    }
    assert voters[..|voters|] == voters;
  }

  class FixedMultisig {
    const api: string -> bool
    const limits: Threshold -> bool
    var config: Config
    var voters: map<Addr, Uint64>
    var proposalCount: Uint64
    var proposals: map<nat, Proposal>
    var ballots: map<nat, Ballots>

    function Storage(): State
      reads this
    {
      State(config, voters, Board(proposalCount, proposals, ballots))
    }

    constructor (api: string -> bool, limits: Threshold -> bool)
      ensures this.api == api && this.limits == limits && Storage().voters == map[] && Storage().board == EMPTY_BOARD
    {
      this.api, this.limits := api, limits;
      config := Config(AbsoluteCount(0), 0, Height(0));
      voters, proposalCount, proposals, ballots := map[], 0, map[], map[];
    }

    method Setup(init: seq<Voter>, t: Threshold, period: Duration) returns (r: Result<()>)
      requires voters == map[] && Storage().board == EMPTY_BOARD
      modifies this
      ensures match Instantiate(api, limits, init, t, period)
              case Ok(s) => r.Ok? && Storage() == s
              case Err(e) => r == Err(e)
    {
      if init == [] {
        return Err(NoVoters);
      }
      var total := AddWeights(init);
      if total > U64_MAX {
        return Err(Panic);
      }
      if !ValidThreshold(t, total) || !limits(t) {
        return Err(InvalidThreshold);
      }
      config := Config(t, total, period);
      var added := AddVoters(init);
      if added.Fail? {
        return Err(added.error);
      }
      return Ok(());
    }

    method AddVoters(init: seq<Voter>) returns (c: Check)
      requires voters == map[]
      modifies this`voters
      ensures c == if exists i :: 0 <= i < |init| && !api(init[i].addr) then Fail(InvalidAddress) else Pass
      ensures c.Pass? ==> voters == VotersOf(init)
    {
      for i := 0 to |init|
        invariant voters == VotersOf(init[..i])
        invariant forall j | 0 <= j < i :: api(init[j].addr)
      {
        assert init[..i + 1][..i] == init[..i];
        if !api(init[i].addr) {
          return Fail(InvalidAddress);
        }
        voters := voters[init[i].addr := init[i].weight];
      }
      assert init[..|init|] == init;
      return Pass;
    }

    method NextId() returns (r: Result<Uint64>)
      modifies this`proposalCount
      ensures r == CheckedAdd64(old(proposalCount), 1, Panic)
      ensures proposalCount == if r.Ok? then r.value else old(proposalCount)
    {
      if proposalCount == U64_MAX {
        return Err(Panic);
      }
      proposalCount := proposalCount + 1;
      return Ok(proposalCount);
    }

    method DoPropose(block: Block, sender: Addr, msgs: seq<CosmosMsg>, latest: Option<Expiration>)
      returns (r: Result<()>)
      modifies this`proposalCount, this`proposals, this`ballots
      ensures match ExecutePropose(old(Storage()), block, sender, msgs, latest)
              case Ok(s) => r.Ok? && Storage() == s
              case Err(e) => r == Err(e)
    {
      hide CurrentStatus;
      if sender !in voters {
        return Err(Unauthorized);
      }
      var power := voters[sender];
      var maxExpires := config.maxVotingPeriod.After(block);
      if maxExpires.Err? {
        return Err(maxExpires.error);
      }
      var expires := latest.UnwrapOr(maxExpires.value);
      if expires.LaterThan(maxExpires.value) {
        expires := maxExpires.value;
      } else if expires.Incomparable(maxExpires.value) {
        return Err(WrongExpiration);
      }
      var prop := Proposal(block.height, expires, msgs, Open, config.threshold, config.totalWeight,
                           Votes(power, 0, 0, 0), sender, None);
      var status := CurrentStatus(prop, block);
      if status.Err? {
        return Err(status.error);
      }
      prop := prop.(status := status.value);
      var id := NextId();
      if id.Err? {
        return Err(id.error);
      }
      proposals := proposals[id.value := prop];
      var cast := if id.value in ballots then ballots[id.value] else map[];
      ballots := ballots[id.value := cast[sender := Ballot(power, Yes)]];
      return Ok(());
    }

    method DoVote(block: Block, sender: Addr, id: nat, vote: Vote) returns (r: Result<()>)
      modifies this`proposals, this`ballots
      ensures match ExecuteVote(old(Storage()), block, sender, id, vote)
              case Ok(s) => r.Ok? && Storage() == s
              case Err(e) => r == Err(e)
    {
      hide CurrentStatus, CastVote;
      if sender !in voters || voters[sender] < 1 {
        return Err(Unauthorized);
      }
      var power := voters[sender];
      if id !in proposals {
        return Err(NotFound);
      }
      var prop := proposals[id];
      if prop.status != Open && prop.status != Passed && prop.status != Rejected {
        return Err(NotOpen);
      }
      if prop.expires.IsExpired(block) {
        return Err(Expired);
      }
      r := Cast(block, id, prop, sender, power, vote);
    }

    /** The second half of a vote: the ballot, the tally and the status. */
    method Cast(block: Block, id: nat, found: Proposal, sender: Addr, power: Uint64, vote: Vote) returns (r: Result<()>)
      modifies this`proposals, this`ballots
      ensures match CastVote(old(Storage()).board, block, id, found, sender, power, vote)
              case Ok(board) => r.Ok? && Storage() == old(Storage()).(board := board)
              case Err(e) => r == Err(e)
    {
      hide CurrentStatus, Votes.AddVote;
      var prop := found;
      var cast := if id in ballots then ballots[id] else map[];
      if sender in cast {
        return Err(AlreadyVoted);
      }
      ballots := ballots[id := cast[sender := Ballot(power, vote)]];
      var votes := prop.votes.AddVote(vote, power);
      if votes.Err? {
        return Err(votes.error);
      }
      prop := prop.(votes := votes.value);
      var status := CurrentStatus(prop, block);
      if status.Err? {
        return Err(status.error);
      }
      prop := prop.(status := status.value);
      proposals := proposals[id := prop];
      return Ok(());
    }

    method DoExecute(block: Block, id: nat) returns (r: Result<seq<Effect>>)
      modifies this`proposals
      ensures match ExecuteExecute(old(Storage()), block, id)
              case Ok((s, effects)) => r == Ok(effects) && Storage() == s
              case Err(e) => r == Err(e)
    {
      hide CurrentStatus;
      if id !in proposals {
        return Err(NotFound);
      }
      var prop := proposals[id];
      var status := CurrentStatus(prop, block);
      if status.Err? {
        return Err(status.error);
      }
      prop := prop.(status := status.value);
      if prop.status != Passed {
        return Err(WrongExecuteStatus);
      }
      prop := prop.(status := Executed);
      proposals := proposals[id := prop];
      return Ok([Dispatch(id, prop.msgs)]);
    }

    method DoClose(block: Block, id: nat) returns (r: Result<()>)
      modifies this`proposals
      ensures match ExecuteClose(old(Storage()), block, id)
              case Ok(s) => r.Ok? && Storage() == s
              case Err(e) => r == Err(e)
    {
      hide CurrentStatus;
      if id !in proposals {
        return Err(NotFound);
      }
      var prop := proposals[id];
      if prop.status == Executed || prop.status == Rejected || prop.status == Passed {
        return Err(WrongCloseStatus);
      }
      var status := CurrentStatus(prop, block);
      if status.Err? {
        return Err(status.error);
      }
      if status.value == Passed {
        return Err(WrongCloseStatus);
      }
      if !prop.expires.IsExpired(block) {
        return Err(NotExpired);
      }
      prop := prop.(status := Rejected);
      proposals := proposals[id := prop];
      return Ok(());
    }

    /** A call to the contract; the chain takes back all writes of a call that fails. */
    method Call(block: Block, sender: Addr, msg: Msg) returns (r: Result<seq<Effect>>)
      modifies this`proposalCount, this`proposals, this`ballots
      ensures match Handle(old(Storage()), block, sender, msg)
              case Ok((s, effects)) => r == Ok(effects) && Storage() == s
              case Err(e) => r == Err(e) && Storage() == old(Storage())
    {
      hide ExecutePropose, ExecuteVote, ExecuteExecute, ExecuteClose;
      var before := Storage().board;
      match msg {
        case Propose(msgs, latest) =>
          var done := DoPropose(block, sender, msgs, latest);
          r := if done.Ok? then Ok([]) else Err(done.error);
        case CastBallot(id, vote) =>
          var done := DoVote(block, sender, id, vote);
          r := if done.Ok? then Ok([]) else Err(done.error);
        case Execute(id) =>
          r := DoExecute(block, id);
        case Close(id) =>
          var done := DoClose(block, id);
          r := if done.Ok? then Ok([]) else Err(done.error);
      }
      if r.Err? {
        proposalCount, proposals, ballots := before.count, before.proposals, before.ballots;
      }
    }
  }
}
