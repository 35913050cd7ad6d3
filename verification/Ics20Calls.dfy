/** What the calls of the bridge do, told from the state before: when each goes through, the
    packet that a transfer sends, what a payout carries, and who may change what. Nothing
    here is said in terms of the handlers. */
module Ics20Calls {
  import opened Prelude
  import opened Ics20Denom
  import opened Ics20State
  import opened Ics20Ibc
  import opened Ics20Contract

  function KeyOf(channel: string, token: Token): Key {
    Key(channel, match token
                 case Bank(denom) => denom
                 case Contract(address) => "cw20:" + address)
  }

  function SentThrough(cs: Channels, key: Key): nat {
    if key in cs then cs[key].totalSent else 0
  }

  /** How long a transfer may take, in seconds. */
  function SecondsFor(s: State, msg: TransferMsg): Uint64 {
    match msg.timeout
    case Some(seconds) => seconds
    case None => s.config.defaultTimeout
  }

  /** A transfer of this amount of a token can be sent. */
  predicate CanSend(s: State, api: string -> bool, now: Uint64, msg: TransferMsg, token: Token, amount: Uint128) {
    && 0 < amount <= 0xFFFF_FFFF_FFFF_FFFF
    && msg.channel in s.channelInfo
    && (token.Contract? ==>
          api(token.address) && (token.address in s.allowList || s.config.defaultGasLimit.Some?))
    && now + SecondsFor(s, msg) * 1_000_000_000 <= 0xFFFF_FFFF_FFFF_FFFF
    && Outstanding(s.channelState, KeyOf(msg.channel, token)) + amount <= U128_MAX
    && SentThrough(s.channelState, KeyOf(msg.channel, token)) + amount <= U128_MAX
  }

  /** The packet of a transfer: to the channel asked for, with the token, the amount, both
      ends and the memo of the call, to be delivered within the seconds asked for. */
  predicate SendsFor(s: State, now: Uint64, user: Addr, msg: TransferMsg, token: Token, amount: Uint128,
                     sent: SendPacket) {
    && sent.channel == msg.channel
    && sent.timeout == now + SecondsFor(s, msg) * 1_000_000_000
    && sent.packet.amount == amount && sent.packet.denom == KeyOf(msg.channel, token).denom
    && sent.packet.sender == user && sent.packet.receiver == msg.remoteAddress && sent.packet.memo == msg.memo
  }

  /** A transfer writes nothing but its own balance entry. */
  predicate Booked(s: State, t: State, key: Key, amount: Uint128) {
    && Outstanding(s.channelState, key) + amount <= U128_MAX && SentThrough(s.channelState, key) + amount <= U128_MAX
    && t == s.(channelState := s.channelState[key := ChannelState(Outstanding(s.channelState, key) + amount,
                                                                  SentThrough(s.channelState, key) + amount)])
  }

  function TokenSent(amount: Amount): Token {
    match amount
    case Native(denom, _) => Bank(denom)
    case Cw20(address, _) => Contract(address)
  }

  lemma TransferExactly(s: State, api: string -> bool, now: Uint64, msg: TransferMsg, amount: Amount, user: Addr)
    ensures var r := ExecuteTransfer(s, api, now, msg, amount, user);
            var token := TokenSent(amount);
            && (r.Ok? <==> CanSend(s, api, now, msg, token, amount.amount))
            && (r.Ok? ==> SendsFor(s, now, user, msg, token, amount.amount, r.value.1)
                          && Booked(s, r.value.0, KeyOf(msg.channel, token), amount.amount))
  {
  }

  /** Every call of the bridge: when it goes through, what it leaves, and what it sends. */
  predicate Accepts(s: State, api: string -> bool, now: Uint64, info: MessageInfo, msg: ExecuteMsg) {
    match msg
    case Transfer(transfer) =>
      |info.funds| == 1
      && CanSend(s, api, now, transfer, Bank(info.funds[0].denom), info.funds[0].amount)
    case Receive(user, amount, inner) =>
      info.funds == [] && inner.Some? && api(user)
      && CanSend(s, api, now, inner.value, Contract(info.sender), amount)
    case Allow(contract, gasLimit) =>
      && s.admin == Some(info.sender) && api(contract)
      && (contract in s.allowList && gasLimit.Some? ==>
            s.allowList[contract].gasLimit.Some? && s.allowList[contract].gasLimit.value <= gasLimit.value)
    case UpdateAdmin(newAdmin) => s.admin == Some(info.sender) && api(newAdmin)
  }

  predicate Done(s: State, now: Uint64, info: MessageInfo, msg: ExecuteMsg, t: State, sent: Option<SendPacket>) {
    match msg
    case Transfer(transfer) =>
      && |info.funds| == 1 && sent.Some?
      && var coin := info.funds[0];
         && SendsFor(s, now, info.sender, transfer, Bank(coin.denom), coin.amount, sent.value)
         && Booked(s, t, KeyOf(transfer.channel, Bank(coin.denom)), coin.amount)
    case Receive(user, amount, inner) =>
      && inner.Some? && sent.Some?
      && SendsFor(s, now, user, inner.value, Contract(info.sender), amount, sent.value)
      && Booked(s, t, KeyOf(inner.value.channel, Contract(info.sender)), amount)
    case Allow(contract, gasLimit) => sent == None && t == s.(allowList := s.allowList[contract := AllowInfo(gasLimit)])
    case UpdateAdmin(newAdmin) => sent == None && t == s.(admin := Some(newAdmin))
  }

  lemma CallExactly(s: State, api: string -> bool, now: Uint64, info: MessageInfo, msg: ExecuteMsg)
    ensures var r := Handle(s, api, now, info, msg);
            && (r.Ok? <==> Accepts(s, api, now, info, msg))
            && (r.Ok? ==> Done(s, now, info, msg, r.value.0, r.value.1))
  {
    hide ExecuteTransfer, CanSend, SendsFor, Booked;
    match msg
    case Transfer(transfer) =>
      if |info.funds| == 1 {
        var coin := info.funds[0];
        TransferExactly(s, api, now, transfer, Native(coin.denom, coin.amount), info.sender);
      }
    case Receive(user, amount, inner) =>
      if inner.Some? {
        TransferExactly(s, api, now, inner.value, Cw20(info.sender, amount), user);
      }
    case _ =>
  }

  // ------------------------------------------------------------------ payouts

  /** The gas that a payout of a token may use: nothing is set for coins; for a contract on
      the allow list its own setting counts, also if that is no limit, else the default. */
  predicate GasFor(s: State, token: Token, gasLimit: Option<Uint64>) {
    match token
    case Bank(_) => gasLimit == None
    case Contract(address) =>
      if address in s.allowList then gasLimit == s.allowList[address].gasLimit
      else gasLimit.Some? && gasLimit == s.config.defaultGasLimit
  }

  /** A packet that asks for a payout gets one, to its receiver, of exactly its amount of the
      token that its denomination names; and nothing else is sent out. */
  lemma ReceiptPaysExactly(s: State, api: string -> bool, packet: IbcPacket)
    ensures var response := IbcPacketReceive(s, api, packet).1;
            && (response.messages == [] <==> response.ack == AckError)
            && (response.messages != [] ==>
                  && |response.messages| == 1 && packet.data.Json?
                  && var sub := response.messages[0];
                     && sub.send.amount == packet.data.packet.amount && sub.recipient == packet.data.packet.receiver
                     && GasFor(s, TokenSent(sub.send), sub.gasLimit)
                     && packet.data.packet.denom == packet.src.portId + "/" + packet.src.channelId + "/"
                                                    + KeyOf("", TokenSent(sub.send)).denom)
  {
    hide ParseVoucherDenom, Reduce;
    if packet.data.Json? && ParseVoucherDenom(packet.data.packet.denom, packet.src).Ok? {
      var denom := ParseVoucherDenom(packet.data.packet.denom, packet.src).value;
      ParseVoucherExactly(packet.data.packet.denom, packet.src, denom);
      DenomOfFromParts(denom, packet.data.packet.amount);
    }
  }

  /** So does a refund, to the sender of the packet. */
  lemma RefundPaysExactly(s: State, api: string -> bool, packet: IbcPacket)
    ensures var r := OnPacketFailure(s, api, packet);
            r.Ok? ==>
              && packet.data.Json?
              && var sub := r.value.1;
                 && sub.send.amount == packet.data.packet.amount && sub.recipient == packet.data.packet.sender
                 && packet.data.packet.denom == KeyOf("", TokenSent(sub.send)).denom
                 && GasFor(s, TokenSent(sub.send), sub.gasLimit)
  {
    if packet.data.Json? {
      DenomOfFromParts(packet.data.packet.denom, packet.data.packet.amount);
    }
  }

  /** What a reply does: nothing for a payout that succeeded; for a refund that failed it only
      answers with an error; for a receipt that failed it also gives the amount back to the
      balance that it was taken from. No other reply is understood. */
  lemma ReplyExactly(s: State, id: nat, success: bool)
    ensures var r := Reply(s, id, success);
            if id == 1337 && !success then
              && (r.Ok? <==> s.replyArgs.Some?
                             && Outstanding(s.channelState, Key(s.replyArgs.value.channel, s.replyArgs.value.denom))
                                + s.replyArgs.value.amount <= U128_MAX)
              && (r.Ok? ==>
                    var args := s.replyArgs.value;
                    var key := Key(args.channel, args.denom);
                    var undone := ChannelState(Outstanding(s.channelState, key) + args.amount,
                                               SentThrough(s.channelState, key));
                    && r.value.0 == s.(channelState := s.channelState[key := undone])
                    && r.value.1 == Some(AckError))
            else if id == 1337 || id == 0xfa17 then r == Ok((s, if success then None else Some(AckError)))
            else r.Err?
  {
  }

  // ------------------------------------------------------------ configuration

  /** The place of the last entry for a contract, if there is one. */
  predicate LastFor(allows: seq<AllowMsg>, contract: Addr, i: nat) {
    i < |allows| && allows[i].contract == contract
    && forall j | i < j < |allows| :: allows[j].contract != contract
  }

  lemma {:induction false} AllowAllExactly(api: string -> bool, list: map<Addr, AllowInfo>, allows: seq<AllowMsg>)
    ensures var r := AllowAll(api, list, allows);
            && (r.Ok? <==> forall i | 0 <= i < |allows| :: api(allows[i].contract))
            && (r.Ok? ==>
                  && (forall i: nat | i < |allows| && LastFor(allows, allows[i].contract, i) ::
                        allows[i].contract in r.value && r.value[allows[i].contract].gasLimit == allows[i].gasLimit)
                  && (forall a: Addr | forall i | 0 <= i < |allows| :: allows[i].contract != a ::
                        (a in r.value <==> a in list) && (a in list ==> r.value[a] == list[a])))
    decreases |allows|
  {
    if allows != [] {
      var rest := allows[1..];
      assert forall i | 0 <= i < |rest| :: rest[i] == allows[i + 1];
      if api(allows[0].contract) {
        AllowAllExactly(api, list[allows[0].contract := AllowInfo(allows[0].gasLimit)], rest);
        var r := AllowAll(api, list, allows);
        if r.Ok? {
          forall i: nat | i < |allows| && LastFor(allows, allows[i].contract, i)
            ensures allows[i].contract in r.value && r.value[allows[i].contract].gasLimit == allows[i].gasLimit
          {
            if i > 0 {
              assert LastFor(rest, rest[i - 1].contract, i - 1);
            } else {
              assert forall j | 0 <= j < |rest| :: rest[j].contract != allows[0].contract;
            }
          }
          forall a: Addr | forall i | 0 <= i < |allows| :: allows[i].contract != a
            ensures (a in r.value <==> a in list) && (a in list ==> r.value[a] == list[a])
          {
            assert allows[0].contract != a;
            assert forall i | 0 <= i < |rest| :: rest[i].contract != a;
          }
        }
      }
    }
  }

  /** A new bridge: its governor is the admin, its configuration the one given, its allow
      list what was listed, later entries winning, and no channel and no balance is known. */
  lemma InstantiateExactly(api: string -> bool, config: Config, gov: string, allows: seq<AllowMsg>)
    ensures var r := Instantiate(api, config, gov, allows);
            && (r.Ok? <==> api(gov) && forall i | 0 <= i < |allows| :: api(allows[i].contract))
            && (r.Ok? ==>
                  var s := r.value;
                  && s == State(Some(gov), config, map[], map[], s.allowList, None)
                  && (forall a: Addr :: a in s.allowList <==> exists i | 0 <= i < |allows| :: allows[i].contract == a)
                  && (forall i: nat | i < |allows| && LastFor(allows, allows[i].contract, i) ::
                        allows[i].contract in s.allowList
                        && s.allowList[allows[i].contract].gasLimit == allows[i].gasLimit))
  {
    hide AllowAll;
    AllowAllExactly(api, map[], allows);
    var r := AllowAll(api, map[], allows);
    if r.Ok? {
      forall a: Addr | exists i | 0 <= i < |allows| :: allows[i].contract == a
        ensures a in r.value
      {
        var i := LastOf(allows, a);
        assert allows[i].contract == a && LastFor(allows, allows[i].contract, i);
      }
      forall a: Addr | a in r.value
        ensures exists i | 0 <= i < |allows| :: allows[i].contract == a
      {
      }
    }
  }

  lemma {:induction false} LastOf(allows: seq<AllowMsg>, a: Addr) returns (i: nat)
    requires exists i | 0 <= i < |allows| :: allows[i].contract == a
    ensures LastFor(allows, a, i)
    decreases |allows|
  {
    var n := |allows| - 1;
    if allows[n].contract == a {
      i := n;
    } else {
      var k :| 0 <= k < |allows| && allows[k].contract == a;
      assert allows[..n][k] == allows[k];
      i := LastOf(allows[..n], a);
      assert forall j | i < j < n :: allows[..n][j] == allows[j];
    }
  }

  /** A migration sets the default gas limit that it names, and nothing else. */
  lemma MigrateExactly(s: State, gasLimit: Option<Uint64>)
    ensures var t := Migrate(s, gasLimit);
            && t == s.(config := t.config) && t.config.defaultTimeout == s.config.defaultTimeout
            && t.config.defaultGasLimit == (if gasLimit == None then s.config.defaultGasLimit else gasLimit)
  {
  }
}
