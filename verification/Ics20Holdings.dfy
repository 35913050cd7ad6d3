/** What the bridge really holds, to the last token: what the channels may still claim, what
    it had from the start, what it was given outside of any transfer, and the refunds that
    could not be paid. */
module Ics20Holdings {
  import opened Prelude
  import opened Ics20Denom
  import opened Ics20State
  import opened Ics20Ibc
  import opened Ics20World
  import opened Ics20Safety
  import opened Ics20Theorems

  /** What one operation gives the bridge without a transfer. */
  function Gift(c: Chain, w: World, op: LocalOp, denom: string): nat {
    match op
    case MoveTokens(token, from, to, amount) =>
      if token == TokenOf(denom) && from != c.bridge && to == c.bridge && amount <= Balance(w.ledger, token, from)
      then amount else 0
    case CreditTokens(token, account, amount) =>
      if token == TokenOf(denom) && account == c.bridge then amount else 0
    case _ => 0
  }

  function Gifts(c: Chain, w: World, ops: seq<LocalOp>, denom: string): nat
    decreases |ops|
  {
    if ops == [] then 0 else Gift(c, w, ops[0], denom) + Gifts(c, ApplyLocal(c, w, ops[0]), ops[1..], denom)
  }

  /** Gifts nested in a payout, and the payout itself if it goes to the bridge. */
  function PayoutGifts(c: Chain, w: World, sub: SubMsg, payout: Payout, denom: string): nat {
    match payout
    case Fails => 0
    case Pays(before, after) =>
      var w1 := RunLocal(c, w, before);
      match Transfer(c, w1.ledger, sub.send.Token(), c.bridge, sub.recipient, sub.send.amount)
      case Err(_) => 0
      case Ok(ledger) =>
        Gifts(c, w, before, denom) + Gifts(c, w1.(ledger := ledger), after, denom)
        + (if sub.recipient == c.bridge && sub.send.Denom() == denom then sub.send.amount else 0)
  }

  function ReceiptGifts(c: Chain, w: World, packet: IbcPacket, payout: Payout, denom: string): nat {
    var (local, response) := IbcPacketReceive(w.local, c.api, packet);
    if response.messages == [] then 0
    else PayoutGifts(c, w.(local := local), response.messages[0], payout, denom)
  }

  function RefundGifts(c: Chain, w: World, packet: IbcPacket, payout: Payout, denom: string): nat {
    match OnPacketFailure(w.local, c.api, packet)
    case Err(_) => 0
    case Ok((local, sub)) => PayoutGifts(c, w.(local := local), sub, payout, denom)
  }

  /** What one event gives the bridge without a transfer. */
  function Given(c: Chain, w: World, e: Event, denom: string): nat {
    match e
    case Local(op) => Gift(c, w, op, denom)
    case RelayAck(i, payout) =>
      if At(w, i, AckedErr) then RefundGifts(c, w, SentPacket(w, w.flights[i]), payout, denom) else 0
    case RelayTimeout(i, payout) =>
      if At(w, i, Outbound) then RefundGifts(c, w, SentPacket(w, w.flights[i]), payout, denom) else 0
    case LocalReceive(i, payout) =>
      if At(w, i, Inbound) then ReceiptGifts(c, w, ReturnPacket(w, w.flights[i]), payout, denom) else 0
    case ForgedReceive(packet, payout) => ReceiptGifts(c, w, packet, payout, denom)
    case _ => 0
  }

  /** A refund that is taken off its balance though its payout fails. */
  function UnpaidRefund(w: World, f: Flight, payout: Payout, denom: string): nat {
    if payout.Fails? && f.key.denom == denom && Reduce(w.local.channelState, f.key, f.amount).Ok? then f.amount else 0
  }

  function Unpaid(w: World, e: Event, denom: string): nat {
    match e
    case RelayAck(i, payout) => if At(w, i, AckedErr) then UnpaidRefund(w, w.flights[i], payout, denom) else 0
    case RelayTimeout(i, payout) => if At(w, i, Outbound) then UnpaidRefund(w, w.flights[i], payout, denom) else 0
    case _ => 0
  }

  function AllGiven(c: Chain, w: World, events: seq<Event>, denom: string): nat
    decreases |events|
  {
    if events == [] then 0 else Given(c, w, events[0], denom) + AllGiven(c, Apply(c, w, events[0]), events[1..], denom)
  }

  function AllUnpaid(c: Chain, w: World, events: seq<Event>, denom: string): nat
    decreases |events|
  {
    if events == [] then 0 else Unpaid(w, events[0], denom) + AllUnpaid(c, Apply(c, w, events[0]), events[1..], denom)
  }

  // ---------------------------------------------------------- local activity

  lemma OpSlack(c: Chain, w: World, op: LocalOp, denom: string)
    requires Sound(c, w) && !c.Lies(TokenOf(denom))
    ensures Slack(c, ApplyLocal(c, w, op), denom) == Slack(c, w, denom) + Gift(c, w, op, denom)
  {
    hide Sound, Extends, Escrow, ExecuteTransfer;
    match op
    case SendNative(now, user, coin, msg) =>
      if !(CW20_PREFIX <= coin.denom) && user != c.bridge {
        DepositKeeps(c, w, now, msg, Native(coin.denom, coin.amount), user);
      }
    case SendCw20(now, user, contract, value, inner) =>
      if (user != c.bridge || c.Lies(Contract(contract))) && inner.Some? && c.api(user) {
        DepositKeeps(c, w, now, inner.value, Cw20(contract, value), user);
      }
    case _ =>
  }

  lemma {:induction false} OpsSlack(c: Chain, w: World, ops: seq<LocalOp>, denom: string)
    requires Sound(c, w) && !c.Lies(TokenOf(denom))
    ensures Slack(c, RunLocal(c, w, ops), denom) == Slack(c, w, denom) + Gifts(c, w, ops, denom)
    decreases |ops|
  {
    hide Sound, Slack, ApplyLocal, Gift;
    if ops != [] {
      OpSlack(c, w, ops[0], denom);
      ApplyLocalKeeps(c, w, ops[0]);
      OpsSlack(c, ApplyLocal(c, w, ops[0]), ops[1..], denom);
    }
  }

  // ------------------------------------------------- payouts and transactions

  /** Tokens that leave the bridge, unless they go back to it. */
  lemma TransferSlack(c: Chain, w: World, send: Amount, to: Addr, denom: string)
    requires !c.Lies(TokenOf(denom)) && send.Token() == TokenOf(send.Denom())
    ensures var moved := Transfer(c, w.ledger, send.Token(), c.bridge, to, send.amount);
            moved.Ok? ==>
              Slack(c, w.(ledger := moved.value), denom) == Slack(c, w, denom)
                - (if send.Denom() == denom && to != c.bridge then send.amount else 0)
  {
    hide Escrow;
    TokenOfInjective(denom, send.Denom());
  }

  lemma DispatchSlack(c: Chain, w: World, sub: SubMsg, payout: Payout, denom: string)
    requires Sound(c, w) && !c.Lies(TokenOf(denom))
    requires sub.send.Token() == TokenOf(sub.send.Denom())
    ensures var (v, paid) := Dispatch(c, w, sub, payout);
            Slack(c, v, denom) == Slack(c, w, denom) + PayoutGifts(c, w, sub, payout, denom)
              - (if paid && denom == sub.send.Denom() then sub.send.amount else 0)
  {
    hide Slack, ApplyLocal, Gift, Transfer;
    if payout.Pays? {
      var w1 := RunLocal(c, w, payout.before);
      RunLocalKeeps(c, w, payout.before);
      OpsSlack(c, w, payout.before, denom);
      TransferSlack(c, w1, sub.send, sub.recipient, denom);
      var moved := Transfer(c, w1.ledger, sub.send.Token(), c.bridge, sub.recipient, sub.send.amount);
      if moved.Ok? {
        OpsSlack(c, w1.(ledger := moved.value), payout.after, denom);
      }
    }
  }

  /** A receive transaction leaves the bridge what was given to it, and nothing else changes
      between its holdings and what the channels may claim. */
  lemma ReceiveTxSlack(c: Chain, w: World, packet: IbcPacket, payout: Payout, denom: string)
    requires Sound(c, w) && Solvent(c, w) && !c.Lies(TokenOf(denom))
    ensures var r := ReceiveTx(c, w, packet, payout);
            r.Ok? && Slack(c, r.value.0, denom) == Slack(c, w, denom) + ReceiptGifts(c, w, packet, payout, denom)
  {
    ReceiveTxShape(c, w, packet, payout);
    if Covered(w, packet) {
      var key, amount := ClaimedKey(packet), packet.data.packet.amount;
      var w1 := Claimed(w, packet);
      var sub := IbcPacketReceive(w.local, c.api, packet).1.messages[0];
      ReduceKeeps(c, w, key, amount, w1.local.replyArgs);
      DenomOfFromParts(key.denom, amount);
      SolventAt(c, w, key.denom);
      DispatchKeeps(c, w1, sub, payout);
      DispatchSlack(c, w1, sub, payout, denom);
    }
  }

  /** Packets that claim no voucher of this chain pay nothing. */
  lemma ForeignGivesNothing(c: Chain, w: World, packet: IbcPacket, payout: Payout, denom: string)
    requires !ClaimsVoucher(packet)
    ensures ReceiptGifts(c, w, packet, payout, denom) == 0
  {
  }

  lemma SolventAt(c: Chain, w: World, denom: string)
    requires Solvent(c, w)
    ensures !c.Lies(TokenOf(denom)) ==> Slack(c, w, denom) >= 0
  {
  }

  lemma FailureTxSlack(c: Chain, w: World, f: Flight, payout: Payout, denom: string)
    requires Sound(c, w) && Solvent(c, w) && !c.Lies(TokenOf(denom))
    ensures var packet := SentPacket(w, f);
            var r := FailureTx(c, w, packet, payout);
            Slack(c, if r.Ok? then r.value else w, denom) ==
              Slack(c, w, denom) + RefundGifts(c, w, packet, payout, denom) + UnpaidRefund(w, f, payout, denom)
  {
    hide OnPacketFailure, FailureTx, Dispatch, PayoutGifts, Slack, Sound, Solvent;
    var packet := SentPacket(w, f);
    var w1, sub := FailureTxShape(c, w, packet, payout);
    if Reduce(w.local.channelState, f.key, f.amount).Ok? {
      ReduceKeeps(c, w, f.key, f.amount, w.local.replyArgs);
      assert w1.local == w.local.(channelState := w1.local.channelState, replyArgs := w.local.replyArgs);
      DenomOfFromParts(f.key.denom, f.amount);
      SolventAt(c, w, f.key.denom);
      DispatchKeeps(c, w1, sub, payout);
      DispatchSlack(c, w1, sub, payout, denom);
    }
  }

  // -------------------------------------------------------------------- runs

  lemma StepSlack(c: Chain, w: World, e: Event, denom: string)
    requires Sound(c, w) && Solvent(c, w) && !c.Lies(TokenOf(denom))
    ensures Slack(c, Apply(c, w, e), denom) == Slack(c, w, denom) + Given(c, w, e, denom) + Unpaid(w, e, denom)
  {
    hide Sound, Solvent, Escrow, ApplyLocal, FailureTx, ReceiveTx, RefundGifts, ReceiptGifts, UnpaidRefund, Gift,
         SentPacket, ReturnPacket, ParseVoucherDenom;
    match e
    case Local(op) => OpSlack(c, w, op, denom);
    case RelayAck(i, payout) =>
      if At(w, i, AckedErr) {
        FailureTxSlack(c, w, w.flights[i], payout, denom);
      }
    case RelayTimeout(i, payout) =>
      if At(w, i, Outbound) {
        FailureTxSlack(c, w, w.flights[i], payout, denom);
      }
    case LocalReceive(i, payout) =>
      if At(w, i, Inbound) {
        var _, _ := ReceiveTxKeeps(c, w, ReturnPacket(w, w.flights[i]), payout);
        ReceiveTxSlack(c, w, ReturnPacket(w, w.flights[i]), payout, denom);
      }
    case ForeignReceive(channel, data, payout) =>
      var packet := IbcPacket(data, RemoteOf(w, channel), Endpoint("", channel));
      if !ClaimsVoucher(packet) {
        ForeignGivesNothing(c, w, packet, payout, denom);
        ReceiveTxSlack(c, w, packet, payout, denom);
      }
    case ForgedReceive(packet, payout) => ReceiveTxSlack(c, w, packet, payout, denom);
    case _ =>
  }

  lemma {:induction false} RunSlack(c: Chain, w: World, events: seq<Event>, denom: string)
    requires Sound(c, w) && Solvent(c, w) && !c.Lies(TokenOf(denom))
    ensures Slack(c, Run(c, w, events), denom) ==
            Slack(c, w, denom) + AllGiven(c, w, events, denom) + AllUnpaid(c, w, events, denom)
    decreases |events|
  {
    hide Sound, Solvent, Slack, Apply, Given, Unpaid;
    if events != [] {
      StepSlack(c, w, events[0], denom);
      ApplyKeepsSolvent(c, w, events[0]);
      RunSlack(c, Apply(c, w, events[0]), events[1..], denom);
    }
  }

  /** The holdings of the bridge, exactly, in every run and for every denomination whose
      token does not lie: what all channels may still claim, what it held before it was
      instantiated, what it was given without a transfer, and every refund that failed and
      stays with the bridge, owed to nobody. */
  lemma HoldingsExactly(c: Chain, genesis: World, events: seq<Event>, denom: string)
    requires Genesis(genesis) && !c.Lies(TokenOf(denom))
    ensures var w := Run(c, genesis, events);
            Balance(w.ledger, TokenOf(denom), c.bridge) ==
              Escrow(w.local.channelState, denom) + Balance(genesis.ledger, TokenOf(denom), c.bridge)
              + AllGiven(c, genesis, events, denom) + AllUnpaid(c, genesis, events, denom)
  {
    hide Run, AllGiven, AllUnpaid, Sound, Solvent;
    GenesisIsSafe(c, genesis);
    RunSlack(c, genesis, events, denom);
    assert Shares(genesis.local.channelState, denom) == map[];
  }

  /** The exception is real: once there is a default gas limit, any contract that reports a
      deposit without moving anything raises a balance that is backed by nothing. */
  lemma LyingTokenIsUnbacked(c: Chain, genesis: World, liar: Addr, user: Addr, channel: string, remote: Endpoint,
                             amount: Uint128)
    requires Genesis(genesis) && genesis.local.config.defaultGasLimit.Some?
    requires liar in c.liars && c.api(liar) && c.api(user) && 0 < amount <= U64_MAX
    ensures var report := SendCw20(0, user, liar, amount, Some(TransferMsg(channel, "", Some(0), None)));
            var w := Run(c, genesis, [Connect(channel, remote), Local(report)]);
            Escrow(w.local.channelState, CW20_PREFIX + liar) == amount && w.ledger == genesis.ledger
  {
    var report := SendCw20(0, user, liar, amount, Some(TransferMsg(channel, "", Some(0), None)));
    var connected := Apply(c, genesis, Connect(channel, remote));
    var w := Apply(c, connected, Local(report));
    assert [Connect(channel, remote), Local(report)][1..] == [Local(report)];
    assert Run(c, genesis, [Connect(channel, remote), Local(report)]) == Run(c, connected, [Local(report)]) == w;
    var key := Key(channel, CW20_PREFIX + liar);
    assert w.local.channelState == map[][key := ChannelState(amount, amount)];
    EscrowUpdate(map[], key, ChannelState(amount, amount), key.denom);
    assert Shares(map[], key.denom) == map[];
  }

  /** The world after the first transfer of a fresh bridge. */
  lemma FirstTransfer(c: Chain, genesis: World, user: Addr, coin: Coin, channel: string, remote: Endpoint)
    returns (w: World)
    requires Genesis(genesis) && user != c.bridge && !(CW20_PREFIX <= coin.denom)
    requires 0 < coin.amount <= U64_MAX && coin.amount <= Balance(genesis.ledger, Bank(coin.denom), user)
    ensures w == Apply(c, Apply(c, genesis, Connect(channel, remote)),
                       Local(SendNative(0, user, coin, TransferMsg(channel, "", Some(0), None))))
    ensures var key := Key(channel, coin.denom);
            && w.local.channelState == map[key := ChannelState(coin.amount, coin.amount)]
            && w.flights == map[genesis.next := Flight(key, coin.amount, user, "", Outbound)]
    ensures Move(genesis.ledger, Bank(coin.denom), user, c.bridge, coin.amount) == Ok(w.ledger)
  {
    var connected := Apply(c, genesis, Connect(channel, remote));
    w := Apply(c, connected, Local(SendNative(0, user, coin, TransferMsg(channel, "", Some(0), None))));
  }

  /** A native refund whose payout fails is only taken off its balance. */
  lemma FailedRefund(c: Chain, w: World, i: nat)
    requires i in w.flights && !(CW20_PREFIX <= w.flights[i].key.denom)
    requires Reduce(w.local.channelState, w.flights[i].key, w.flights[i].amount).Ok?
    ensures var reduced := Reduce(w.local.channelState, w.flights[i].key, w.flights[i].amount).value;
            ReturnFunds(c, w, i, Fails) == w.(local := w.local.(channelState := reduced), flights := w.flights - {i})
  {
    hide Reduce;
  }

  /** An unpaid refund: the transfer times out and its refund fails, the bridge keeps the
      coins, the user is without them, and no channel has a claim on them any more. */
  lemma UnpaidRefundStays(c: Chain, genesis: World, user: Addr, coin: Coin, channel: string, remote: Endpoint)
    requires Genesis(genesis) && user != c.bridge && !(CW20_PREFIX <= coin.denom)
    requires 0 < coin.amount <= U64_MAX && coin.amount <= Balance(genesis.ledger, Bank(coin.denom), user)
    ensures var transfer := SendNative(0, user, coin, TransferMsg(channel, "", Some(0), None));
            var w := Run(c, genesis, [Connect(channel, remote), Local(transfer), RelayTimeout(genesis.next, Fails)]);
            && w.flights == map[] && Escrow(w.local.channelState, coin.denom) == 0
            && Move(genesis.ledger, Bank(coin.denom), user, c.bridge, coin.amount) == Ok(w.ledger)
  {
    hide Move, Balance, ReturnFunds, ApplyLocal, Connected;
    var connect := Connect(channel, remote);
    var transfer := Local(SendNative(0, user, coin, TransferMsg(channel, "", Some(0), None)));
    var timeout := RelayTimeout(genesis.next, Fails);
    assert [connect, transfer, timeout][1..] == [transfer, timeout] && [transfer, timeout][1..] == [timeout];
    var sent := FirstTransfer(c, genesis, user, coin, channel, remote);
    assert Run(c, genesis, [connect, transfer, timeout]) == Run(c, sent, [timeout]) == Apply(c, sent, timeout) by {
      hide Apply;
    }
    FailedRefund(c, sent, genesis.next);
    var w := Apply(c, sent, timeout);
    var key := Key(channel, coin.denom);
    assert w.local.channelState == map[][key := ChannelState(0, coin.amount)];
    EscrowUpdate(map[], key, ChannelState(0, coin.amount), key.denom);
    assert Shares(map[], key.denom) == map[];
  }
}
