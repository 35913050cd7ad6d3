/** The handlers of the bridge contract as functions from the stored state
    (contracts/cw20-ics20/src/contract.rs and contracts/cw20-ics20/src/ibc.rs). The class
    `Ics20Contract.Bridge` updates its storage step by step and is proved to follow them. */
module Ics20Ibc {
  import opened Prelude
  import opened Ics20Denom
  import opened Ics20State

  const RECEIVE_ID: nat := 1337
  const ACK_FAILURE_ID: nat := 0xfa17

  datatype Ics20Packet = Ics20Packet(
    amount: Uint128, denom: string, receiver: string, sender: string, memo: Option<string>)

  /** The bytes of a packet, either the JSON of an `Ics20Packet` or something else. */
  datatype PacketData = Json(packet: Ics20Packet) | Malformed

  datatype IbcPacket = IbcPacket(data: PacketData, src: Endpoint, dest: Endpoint)

  datatype Ack = AckResult | AckError

  /** A payout that the contract dispatches, with a reply asked for on failure. */
  datatype SubMsg = SubMsg(send: Amount, recipient: string, id: nat, gasLimit: Option<Uint64>)

  datatype SendPacket = SendPacket(channel: string, packet: Ics20Packet, timeout: Uint64)

  datatype TransferMsg = TransferMsg(
    channel: string, remoteAddress: string, timeout: Option<Uint64>, memo: Option<string>)

  datatype ReceiveResponse = ReceiveResponse(ack: Ack, messages: seq<SubMsg>)

  function Decode(data: PacketData): Result<Ics20Packet> {
    if data.Json? then Ok(data.packet) else Err(MalformedData)
  }

  function Validate(packet: Ics20Packet): Check {
    Need(packet.amount <= U64_MAX, AmountOverflow)
  }

  function TransferPacket(msg: TransferMsg, amount: Amount, sender: Addr): Ics20Packet {
    Ics20Packet(amount.amount, amount.Denom(), msg.remoteAddress, sender, msg.memo)
  }

  /** May this amount be sent out: only cw20 tokens are restricted. */
  function CheckAllowed(s: State, api: string -> bool, amount: Amount): Result<()> {
    if amount.Native? then Ok(())
    else
      var addr :- AddrValidate(api, amount.address);
      if s.config.defaultGasLimit.None? && addr !in s.allowList then Err(NotOnAllowList) else Ok(())
  }

  function ExecuteTransfer(s: State, api: string -> bool, now: Uint64, msg: TransferMsg, amount: Amount, sender: Addr)
    : Result<(State, SendPacket)>
  {
    if amount.amount == 0 then Err(NoFunds)
    else
      :- Need(msg.channel in s.channelInfo, NoSuchChannel);
      var _ :- CheckAllowed(s, api, amount);
      var timeout :- PlusSeconds(now, msg.timeout.UnwrapOr(s.config.defaultTimeout));
      var packet := TransferPacket(msg, amount, sender);
      :- Validate(packet);
      var channelState :- Increase(s.channelState, Key(msg.channel, amount.Denom()), amount.amount);
      Ok((s.(channelState := channelState), SendPacket(msg.channel, packet, timeout)))
  }

  /** A cw20 token contract hands over `amount` tokens that `user` sent to the bridge. */
  function ExecuteReceive(
    s: State, api: string -> bool, now: Uint64, token: Addr, funds: bool,
    user: string, amount: Uint128, msg: Option<TransferMsg>): Result<(State, SendPacket)>
  {
    if funds then Err(NonPayable)
    else
      :- Need(msg.Some?, MalformedData);
      var sender :- AddrValidate(api, user);
      ExecuteTransfer(s, api, now, msg.value, Cw20(token, amount), sender)
  }

  function ExecuteAllow(s: State, api: string -> bool, sender: Addr, contract: string, gasLimit: Option<Uint64>)
    : Result<State>
  {
    if s.admin != Some(sender) then Err(Unauthorized)
    else
      var addr :- AddrValidate(api, contract);
      :- Need(!LowersGas(s.allowList, addr, gasLimit), CannotLowerGas);
      Ok(s.(allowList := s.allowList[addr := AllowInfo(gasLimit)]))
  }

  /** The address is validated before the caller is. */
  function ExecuteUpdateAdmin(s: State, api: string -> bool, sender: Addr, admin: string): Result<State> {
    if !api(admin) then Err(InvalidAddress)
    else
      :- Need(s.admin == Some(sender), Unauthorized);
      Ok(s.(admin := Some(admin)))
  }

  /** A token that is allowed from the start. */
  datatype AllowMsg = AllowMsg(contract: string, gasLimit: Option<Uint64>)

  /** The initial allow list, later entries winning. */
  function AllowAll(api: string -> bool, allowList: map<Addr, AllowInfo>, allows: seq<AllowMsg>)
    : Result<map<Addr, AllowInfo>>
    decreases |allows|
  {
    if allows == [] then Ok(allowList)
    else
      var addr :- AddrValidate(api, allows[0].contract);
      AllowAll(api, allowList[addr := AllowInfo(allows[0].gasLimit)], allows[1..])
  }

  function Instantiate(api: string -> bool, config: Config, gov: string, allows: seq<AllowMsg>): Result<State> {
    var admin :- AddrValidate(api, gov);
    var allowList :- AllowAll(api, map[], allows);
    Ok(State(Some(admin), config, map[], map[], allowList, None))
  }

  predicate LowersGas(allowList: map<Addr, AllowInfo>, addr: Addr, gasLimit: Option<Uint64>) {
    addr in allowList && gasLimit.Some? &&
    (allowList[addr].gasLimit.None? || gasLimit.value < allowList[addr].gasLimit.value)
  }

  /** The part of `migrate` that every version runs: a default gas limit can be set, never unset. */
  function Migrate(s: State, defaultGasLimit: Option<Uint64>): State {
    if defaultGasLimit.Some? then s.(config := s.config.(defaultGasLimit := defaultGasLimit)) else s
  }

  function CheckGasLimit(s: State, api: string -> bool, amount: Amount): Result<Option<Uint64>> {
    if amount.Native? then Ok(None)
    else
      var addr :- AddrValidate(api, amount.address);
      if addr in s.allowList then Ok(s.allowList[addr].gasLimit)
      else if s.config.defaultGasLimit.Some? then Ok(s.config.defaultGasLimit)
      else Err(NotOnAllowList)
  }

  /** The work of `ibc_packet_receive`. The state is returned on an error too: it is not
      rolled back, because the caller turns the error into an acknowledgement. */
  function DoIbcPacketReceive(s: State, api: string -> bool, packet: IbcPacket): (State, Result<ReceiveResponse>) {
    match Decode(packet.data)
    case Err(e) => (s, Err(e))
    case Ok(msg) =>
      match ParseVoucherDenom(msg.denom, packet.src)
      case Err(e) => (s, Err(e))
      case Ok(denom) =>
        var channel := packet.dest.channelId;
        match Reduce(s.channelState, Key(channel, denom), msg.amount)
        case Err(e) => (s, Err(e))
        case Ok(channelState) =>
          var written := s.(channelState := channelState, replyArgs := Some(ReplyArgs(channel, denom, msg.amount)));
          var send := Amount.FromParts(denom, msg.amount);
          match CheckGasLimit(written, api, send)
          case Err(e) => (written, Err(e))
          case Ok(gasLimit) =>
            (written, Ok(ReceiveResponse(AckResult, [SubMsg(send, msg.receiver, RECEIVE_ID, gasLimit)])))
  }

  function IbcPacketReceive(s: State, api: string -> bool, packet: IbcPacket): (State, ReceiveResponse) {
    var (written, result) := DoIbcPacketReceive(s, api, packet);
    (written, if result.Ok? then result.value else ReceiveResponse(AckError, []))
  }

  function OnPacketFailure(s: State, api: string -> bool, packet: IbcPacket): Result<(State, SubMsg)> {
    var msg :- Decode(packet.data);
    var channelState :- Reduce(s.channelState, Key(packet.src.channelId, msg.denom), msg.amount);
    var send := Amount.FromParts(msg.denom, msg.amount);
    var gasLimit :- CheckGasLimit(s, api, send);
    Ok((s.(channelState := channelState), SubMsg(send, msg.sender, ACK_FAILURE_ID, gasLimit)))
  }

  /** The reply to a payout: `None` keeps the acknowledgement already given. */
  function Reply(s: State, id: nat, success: bool): Result<(State, Option<Ack>)> {
    if id == RECEIVE_ID then
      if success then Ok((s, None))
      else
        :- Need(s.replyArgs.Some?, NotFound);
        var args := s.replyArgs.value;
        var channelState :- UndoReduce(s.channelState, Key(args.channel, args.denom), args.amount);
        Ok((s.(channelState := channelState), Some(AckError)))
    else if id == ACK_FAILURE_ID then Ok((s, if success then None else Some(AckError)))
    else Err(UnknownReplyId)
  }
}
