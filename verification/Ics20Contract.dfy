/** The bridge contract as it runs: one object whose fields are the storage items, updated
    in place by the handlers (contracts/cw20-ics20/src/{state,contract,ibc}.rs). */
module Ics20Contract {
  import opened Prelude
  import opened Ics20Denom
  import opened Ics20State
  import opened Ics20Ibc

  datatype ExecuteMsg =
    | Receive(user: string, amount: Uint128, inner: Option<TransferMsg>)
    | Transfer(transfer: TransferMsg)
    | Allow(contract: string, gasLimit: Option<Uint64>)
    | UpdateAdmin(newAdmin: string)

  /** The call as the chain reports it: who calls, and the coins attached. */
  datatype MessageInfo = MessageInfo(sender: Addr, funds: seq<Coin>)

  function Handle(s: State, api: string -> bool, now: Uint64, info: MessageInfo, msg: ExecuteMsg)
    : Result<(State, Option<SendPacket>)>
  {
    match msg
    case Receive(user, amount, inner) =>
      var (t, sent) :- ExecuteReceive(s, api, now, info.sender, info.funds != [], user, amount, inner);
      Ok((t, Some(sent)))
    case Transfer(transfer) =>
      :- Need(|info.funds| == 1, NoFunds);
      var coin := Native(info.funds[0].denom, info.funds[0].amount);
      var (t, sent) :- ExecuteTransfer(s, api, now, transfer, coin, info.sender);
      Ok((t, Some(sent)))
    case Allow(contract, gasLimit) =>
      var t :- ExecuteAllow(s, api, info.sender, contract, gasLimit);
      Ok((t, None))
    case UpdateAdmin(newAdmin) =>
      var t :- ExecuteUpdateAdmin(s, api, info.sender, newAdmin);
      Ok((t, None))
  }

  class Bridge {
    const api: string -> bool
    var admin: Option<Addr>
    var config: Config
    var channelInfo: map<string, Endpoint>
    var channelState: Channels
    var allowList: map<Addr, AllowInfo>
    var replyArgs: Option<ReplyArgs>

    function Storage(): State
      reads this
    {
      State(admin, config, channelInfo, channelState, allowList, replyArgs)
    }

    constructor (api: string -> bool)
      ensures this.api == api && Storage() == State(None, Config(0, None), map[], map[], map[], None)
    {
      this.api := api;
      admin, config := None, Config(0, None);
      channelInfo, channelState, allowList, replyArgs := map[], map[], map[], None;
    }

    method Setup(init: Config, gov: string, allows: seq<AllowMsg>) returns (r: Result<()>)
      requires Storage() == State(None, Config(0, None), map[], map[], map[], None)
      modifies this
      ensures match Instantiate(api, init, gov, allows)
              case Ok(s) => r.Ok? && Storage() == s
              case Err(e) => r == Err(e)
    {
      config := init;
      if !api(gov) {
        return Err(InvalidAddress);
      }
      admin := Some(gov);
      r := AddAllows(allows);
    }

    method AddAllows(allows: seq<AllowMsg>) returns (r: Result<()>)
      modifies this`allowList
      ensures match AllowAll(api, old(allowList), allows)
              case Ok(all) => r.Ok? && allowList == all
              case Err(e) => r == Err(e)
    {
      ghost var all := AllowAll(api, allowList, allows);
      for i := 0 to |allows|
        invariant AllowAll(api, allowList, allows[i..]) == all
      {
        assert allows[i..][0] == allows[i] && allows[i..][1..] == allows[i + 1..];
        if !api(allows[i].contract) {
          return Err(InvalidAddress);
        }
        allowList := allowList[allows[i].contract := AllowInfo(allows[i].gasLimit)];
      }
      return Ok(());
    }

    method IncreaseChannelBalance(channel: string, denom: string, amount: Uint128) returns (r: Result<()>)
      modifies this`channelState
      ensures match Increase(old(channelState), Key(channel, denom), amount)
              case Ok(cs) => r.Ok? && channelState == cs
              case Err(e) => r == Err(e) && channelState == old(channelState)
    {
      var key := Key(channel, denom);
      var st := if key in channelState then channelState[key] else ChannelState(0, 0);
      if st.outstanding + amount > U128_MAX || st.totalSent + amount > U128_MAX {
        return Err(Panic);
      }
      st := st.(outstanding := st.outstanding + amount);
      st := st.(totalSent := st.totalSent + amount);
      channelState := channelState[key := st];
      return Ok(());
    }

    method ReduceChannelBalance(channel: string, denom: string, amount: Uint128) returns (r: Result<()>)
      modifies this`channelState
      ensures match Reduce(old(channelState), Key(channel, denom), amount)
              case Ok(cs) => r.Ok? && channelState == cs
              case Err(e) => r == Err(e) && channelState == old(channelState)
    {
      var key := Key(channel, denom);
      if key !in channelState {
        return Err(InsufficientFunds);
      }
      var cur := channelState[key];
      if cur.outstanding < amount {
        return Err(InsufficientFunds);
      }
      cur := cur.(outstanding := cur.outstanding - amount);
      channelState := channelState[key := cur];
      return Ok(());
    }

    method UndoReduceChannelBalance(channel: string, denom: string, amount: Uint128) returns (r: Result<()>)
      modifies this`channelState
      ensures match UndoReduce(old(channelState), Key(channel, denom), amount)
              case Ok(cs) => r.Ok? && channelState == cs
              case Err(e) => r == Err(e) && channelState == old(channelState)
    {
      var key := Key(channel, denom);
      var st := if key in channelState then channelState[key] else ChannelState(0, 0);
      if st.outstanding + amount > U128_MAX {
        return Err(Panic);
      }
      channelState := channelState[key := st.(outstanding := st.outstanding + amount)];
      return Ok(());
    }

    method DoTransfer(now: Uint64, msg: TransferMsg, amount: Amount, sender: Addr) returns (r: Result<SendPacket>)
      modifies this`channelState
      ensures match ExecuteTransfer(old(Storage()), api, now, msg, amount, sender)
              case Ok((s, sent)) => r == Ok(sent) && Storage() == s
              case Err(e) => r == Err(e)
    {
      if amount.amount == 0 {
        return Err(NoFunds);
      }
      if msg.channel !in channelInfo {
        return Err(NoSuchChannel);
      }
      if amount.Cw20? {
        if !api(amount.address) {
          return Err(InvalidAddress);
        }
        if config.defaultGasLimit.None? && amount.address !in allowList {
          return Err(NotOnAllowList);
        }
      }
      var delta := if msg.timeout.Some? then msg.timeout.value else config.defaultTimeout;
      var timeout := PlusSeconds(now, delta);
      if timeout.Err? {
        return Err(timeout.error);
      }
      var packet := Ics20Packet(amount.amount, amount.Denom(), msg.remoteAddress, sender, msg.memo);
      if packet.amount > U64_MAX {
        return Err(AmountOverflow);
      }
      var increased := IncreaseChannelBalance(msg.channel, amount.Denom(), amount.amount);
      if increased.Err? {
        return Err(increased.error);
      }
      return Ok(SendPacket(msg.channel, packet, timeout.value));
    }

    method DoReceive(now: Uint64, info: MessageInfo, user: string, amount: Uint128, inner: Option<TransferMsg>)
      returns (r: Result<SendPacket>)
      modifies this`channelState
      ensures match ExecuteReceive(old(Storage()), api, now, info.sender, info.funds != [], user, amount, inner)
              case Ok((s, sent)) => r == Ok(sent) && Storage() == s
              case Err(e) => r == Err(e)
    {
      if info.funds != [] {
        return Err(NonPayable);
      }
      if inner.None? {
        return Err(MalformedData);
      }
      if !api(user) {
        return Err(InvalidAddress);
      }
      r := DoTransfer(now, inner.value, Cw20(info.sender, amount), user);
    }

    method DoAllow(sender: Addr, contract: string, gasLimit: Option<Uint64>) returns (r: Result<()>)
      modifies this`allowList
      ensures match ExecuteAllow(old(Storage()), api, sender, contract, gasLimit)
              case Ok(s) => r.Ok? && Storage() == s
              case Err(e) => r == Err(e)
    {
      if admin != Some(sender) {
        return Err(Unauthorized);
      }
      if !api(contract) {
        return Err(InvalidAddress);
      }
      if contract in allowList {
        match (allowList[contract].gasLimit, gasLimit) {
          case (None, Some(_)) => return Err(CannotLowerGas);
          case (Some(before), Some(after)) =>
            if after < before {
              return Err(CannotLowerGas);
            }
          case _ =>
        }
      }
      allowList := allowList[contract := AllowInfo(gasLimit)];
      return Ok(());
    }

    /** A call to the contract; the chain takes back all writes of a call that fails. */
    method Execute(now: Uint64, info: MessageInfo, msg: ExecuteMsg) returns (r: Result<Option<SendPacket>>)
      modifies this
      ensures match Handle(old(Storage()), api, now, info, msg)
              case Ok((s, sent)) => r == Ok(sent) && Storage() == s
              case Err(e) => r == Err(e) && Storage() == old(Storage())
    {
      var before := Storage();
      match msg {
        case Receive(user, amount, inner) =>
          var sent := DoReceive(now, info, user, amount, inner);
          r := if sent.Ok? then Ok(Some(sent.value)) else Err(sent.error);
        case Transfer(transfer) =>
          if |info.funds| != 1 {
            return Err(NoFunds);
          }
          var coin := Native(info.funds[0].denom, info.funds[0].amount);
          var sent := DoTransfer(now, transfer, coin, info.sender);
          r := if sent.Ok? then Ok(Some(sent.value)) else Err(sent.error);
        case Allow(contract, gasLimit) =>
          var done := DoAllow(info.sender, contract, gasLimit);
          r := if done.Ok? then Ok(None) else Err(done.error);
        case UpdateAdmin(newAdmin) =>
          if !api(newAdmin) {
            return Err(InvalidAddress);
          }
          if admin != Some(info.sender) {
            return Err(Unauthorized);
          }
          admin := Some(newAdmin);
          r := Ok(None);
      }
      if r.Err? {
        Restore(before);
      }
    }

    method Restore(s: State)
      modifies this
      ensures Storage() == s
    {
      admin, config, channelInfo := s.admin, s.config, s.channelInfo;
      channelState, allowList, replyArgs := s.channelState, s.allowList, s.replyArgs;
    }

    method DoMigrate(defaultGasLimit: Option<Uint64>)
      modifies this`config
      ensures Storage() == Migrate(old(Storage()), defaultGasLimit)
    {
      if defaultGasLimit.Some? {
        config := config.(defaultGasLimit := defaultGasLimit);
      }
    }

    /** No rollback here: what was written before an error stays written. */
    method DoIbcReceive(packet: IbcPacket) returns (r: Result<ReceiveResponse>)
      modifies this`channelState, this`replyArgs
      ensures (Storage(), r) == DoIbcPacketReceive(old(Storage()), api, packet)
    {
      if packet.data.Malformed? {
        return Err(MalformedData);
      }
      var msg := packet.data.packet;
      var channel := packet.dest.channelId;
      var denom := ParseVoucherDenom(msg.denom, packet.src);
      if denom.Err? {
        return Err(denom.error);
      }
      var reduced := ReduceChannelBalance(channel, denom.value, msg.amount);
      if reduced.Err? {
        return Err(reduced.error);
      }
      replyArgs := Some(ReplyArgs(channel, denom.value, msg.amount));
      var toSend := Amount.FromParts(denom.value, msg.amount);
      var gasLimit := CheckGasLimit(Storage(), api, toSend);
      if gasLimit.Err? {
        return Err(gasLimit.error);
      }
      return Ok(ReceiveResponse(AckResult, [SubMsg(toSend, msg.receiver, RECEIVE_ID, gasLimit.value)]));
    }

    method IbcReceive(packet: IbcPacket) returns (r: ReceiveResponse)
      modifies this`channelState, this`replyArgs
      ensures (Storage(), r) == IbcPacketReceive(old(Storage()), api, packet)
    {
      var result := DoIbcReceive(packet);
      r := if result.Ok? then result.value else ReceiveResponse(AckError, []);
    }

    /** An error acknowledgement or a timeout of a packet that this chain sent. */
    method PacketFailure(packet: IbcPacket) returns (r: Result<SubMsg>)
      modifies this
      ensures match OnPacketFailure(old(Storage()), api, packet)
              case Ok((s, refund)) => r == Ok(refund) && Storage() == s
              case Err(e) => r == Err(e) && Storage() == old(Storage())
    {
      var before := Storage();
      if packet.data.Malformed? {
        return Err(MalformedData);
      }
      var msg := packet.data.packet;
      var reduced := ReduceChannelBalance(packet.src.channelId, msg.denom, msg.amount);
      if reduced.Err? {
        return Err(reduced.error);
      }
      var toSend := Amount.FromParts(msg.denom, msg.amount);
      var gasLimit := CheckGasLimit(Storage(), api, toSend);
      if gasLimit.Err? {
        Restore(before);
        return Err(gasLimit.error);
      }
      return Ok(SubMsg(toSend, msg.sender, ACK_FAILURE_ID, gasLimit.value));
    }

    method HandleReply(id: nat, success: bool) returns (r: Result<Option<Ack>>)
      modifies this`channelState
      ensures match Reply(old(Storage()), id, success)
              case Ok((s, ack)) => r == Ok(ack) && Storage() == s
              case Err(e) => r == Err(e) && Storage() == old(Storage())
    {
      if id == RECEIVE_ID {
        if success {
          return Ok(None);
        }
        if replyArgs.None? {
          return Err(NotFound);
        }
        var args := replyArgs.value;
        var undone := UndoReduceChannelBalance(args.channel, args.denom, args.amount);
        if undone.Err? {
          return Err(undone.error);
        }
        return Ok(Some(AckError));
      } else if id == ACK_FAILURE_ID {
        return Ok(if success then None else Some(AckError));
      } else {
        return Err(UnknownReplyId);
      }
    }

    /** A received packet whose payout fails: the writes of the payout are rolled back by
        the chain, the reply runs, and the remote chain gets an error acknowledgement. The
        channel balances are then exactly what they were before the packet arrived. */
    method ReceiveAndFailPayout(packet: IbcPacket) returns (ack: Ack)
      requires IbcPacketReceive(Storage(), api, packet).1.messages != []
      modifies this`channelState, this`replyArgs
      ensures ack == AckError
      ensures channelState == old(channelState)
    {
      var response := IbcReceive(packet);
      UndoInvertsReduce(old(channelState),
                        Key(replyArgs.value.channel, replyArgs.value.denom), replyArgs.value.amount);
      var reply := HandleReply(response.messages[0].id, false);
      ack := reply.value.value;
    }
  }
}
