/** The main results about the bridge, over every run from a fresh instantiation. */
module Ics20Theorems {
  import opened Prelude
  import opened Sums
  import opened Ics20Denom
  import opened Ics20State
  import opened Ics20Ibc
  import opened Ics20World
  import opened Ics20Safety

  lemma GenesisIsSafe(c: Chain, w: World)
    requires Genesis(w)
    ensures Sound(c, w) && Solvent(c, w)
    ensures forall key: Key :: Gap(w, key) == 0
  {
    forall denom: string | !c.Lies(TokenOf(denom))
      ensures Slack(c, w, denom) >= 0
    {
      assert Shares(w.local.channelState, denom) == map[];
    }
    forall key: Key
      ensures Gap(w, key) == 0
    {
      assert Dues(w.flights, key) == map[];
    }
  }

  lemma {:induction false} RunKeepsSolvent(c: Chain, w: World, events: seq<Event>)
    requires Sound(c, w) && Solvent(c, w)
    ensures Sound(c, Run(c, w, events)) && Solvent(c, Run(c, w, events))
    decreases |events|
  {
    if events != [] {
      ApplyKeepsSolvent(c, w, events[0]);
      RunKeepsSolvent(c, Apply(c, w, events[0]), events[1..]);
    }
  }

  lemma {:induction false} RunKeepsGap(c: Chain, w: World, events: seq<Event>, key: Key)
    requires Sound(c, w) && Solvent(c, w) && HonestRun(c, w, events, key.channel)
    ensures Gap(Run(c, w, events), key) == Gap(w, key)
    decreases |events|
  {
    hide Sound, Solvent, Gap, Apply, Honest;
    if events != [] {
      ApplyKeepsSolvent(c, w, events[0]);
      HonestStepKeepsGap(c, w, events[0], key);
      RunKeepsGap(c, Apply(c, w, events[0]), events[1..], key);
    }
  }

  /** Solvency and isolation: whatever the remote chains do, and whatever any set of lying
      token contracts does, in every run and for every other denomination the bridge really
      holds at least what all channels together may still claim; and no channel has more
      outstanding than was ever sent through it. */
  lemma AlwaysSolvent(c: Chain, genesis: World, events: seq<Event>, denom: string)
    requires Genesis(genesis)
    ensures var w := Run(c, genesis, events);
            && (!c.Lies(TokenOf(denom)) ==>
                  Escrow(w.local.channelState, denom) <= Balance(w.ledger, TokenOf(denom), c.bridge))
            && forall k | k in w.local.channelState ::
                 w.local.channelState[k].outstanding <= w.local.channelState[k].totalSent
  {
    GenesisIsSafe(c, genesis);
    RunKeepsSolvent(c, genesis, events);
    assert !c.Lies(TokenOf(denom)) ==> Slack(c, Run(c, genesis, events), denom) >= 0;
  }

  /** Conservation between the two chains: if the remote chain of a channel mints and burns
      as ICS-20 says, each balance of that channel is exactly the vouchers on that chain plus
      the transfers that are still on their way in either direction; whatever the chains at
      the ends of other channels do. */
  lemma TwoChainConservation(c: Chain, genesis: World, events: seq<Event>, key: Key)
    requires Genesis(genesis) && HonestRun(c, genesis, events, key.channel)
    ensures var w := Run(c, genesis, events);
            Outstanding(w.local.channelState, key) == Get(w.vouchers, key) + Owed(w.flights, key)
  {
    GenesisIsSafe(c, genesis);
    RunKeepsGap(c, genesis, events, key);
    assert Gap(genesis, key) == 0;
  }

  /** An error acknowledgement, from the handler or from the reply, of any packet at any
      point of any run: the channel balances, the ledger and everything else but the
      reply arguments are as they were. */
  lemma ErrorAckChangesNothing(c: Chain, genesis: World, events: seq<Event>, packet: IbcPacket, payout: Payout)
    requires Genesis(genesis)
    ensures var w := Run(c, genesis, events);
            var r := ReceiveTx(c, w, packet, payout);
            r.Ok? && (r.value.1 == AckError ==>
              r.value.0 == w.(local := w.local.(replyArgs := r.value.0.local.replyArgs)))
  {
    GenesisIsSafe(c, genesis);
    RunKeepsSolvent(c, genesis, events);
    var _, _ := ReceiveTxKeeps(c, Run(c, genesis, events), packet, payout);
  }

  /** A voucher that comes back can always be redeemed: if its endpoint is not blurred by
      slashes and the payout itself does not fail, it is answered with success, and the
      payout finds the funds. (A return of nothing needs a balance entry to return to.) */
  lemma RedemptionNeverRefused(c: Chain, genesis: World, events: seq<Event>, i: nat, payout: Payout)
    requires Genesis(genesis)
    ensures var w := Run(c, genesis, events);
            At(w, i, Inbound) && HonestRun(c, genesis, events, w.flights[i].key.channel) ==>
              var f := w.flights[i];
              var remote := RemoteOf(w, f.key.channel);
              var r := ReceiveTx(c, w, ReturnPacket(w, f), payout);
              r.Ok? && (r.value.1 == AckResult <==>
                          payout.Pays? && '/' !in remote.portId && '/' !in remote.channelId
                          && (f.amount > 0 || f.key in w.local.channelState))
  {
    GenesisIsSafe(c, genesis);
    RunKeepsSolvent(c, genesis, events);
    var w := Run(c, genesis, events);
    if At(w, i, Inbound) && HonestRun(c, genesis, events, w.flights[i].key.channel) {
      var f := w.flights[i];
      var _, _ := ReceiveTxKeeps(c, w, ReturnPacket(w, f), payout);
      ReturnClaimsItsKey(w, f);
      TwoChainConservation(c, genesis, events, f.key);
      OwedAtLeast(w.flights, i, f.key);
    }
  }

  /** A refund is never refused: an error acknowledgement or a timeout of any transfer
      that was sent is always processed, for any outcome of the refund payout. */
  lemma RefundNeverRefused(c: Chain, genesis: World, events: seq<Event>, i: nat, payout: Payout)
    requires Genesis(genesis)
    ensures var w := Run(c, genesis, events);
            (At(w, i, Outbound) || At(w, i, AckedErr)) && HonestRun(c, genesis, events, w.flights[i].key.channel) ==>
              var f := w.flights[i];
              var r := FailureTx(c, w, SentPacket(w, f), payout);
              r.Ok? && Gap(r.value, f.key) == 0 - f.amount
  {
    GenesisIsSafe(c, genesis);
    RunKeepsSolvent(c, genesis, events);
    var w := Run(c, genesis, events);
    if (At(w, i, Outbound) || At(w, i, AckedErr)) && HonestRun(c, genesis, events, w.flights[i].key.channel) {
      var f := w.flights[i];
      FailureTxKeeps(c, w, SentPacket(w, f), payout);
      TwoChainConservation(c, genesis, events, f.key);
      OwedAtLeast(w.flights, i, f.key);
    }
  }

  /** What a channel still holds, the bridge has and can pay. */
  lemma HeldIsPayable(c: Chain, w: World, key: Key, to: Addr, amount: nat)
    requires Solvent(c, w) && key in w.local.channelState && amount <= w.local.channelState[key].outstanding
    ensures Transfer(c, w.ledger, TokenOf(key.denom), c.bridge, to, amount).Ok?
  {
    assert !c.Lies(TokenOf(key.denom)) ==> Slack(c, w, key.denom) >= 0;
    EscrowAtLeast(w.local.channelState, key);
  }

  /** A payout with nothing nested in it just moves the tokens, if they are there. */
  lemma PlainPayout(c: Chain, w: World, sub: SubMsg)
    ensures var moved := Transfer(c, w.ledger, sub.send.Token(), c.bridge, sub.recipient, sub.send.amount);
            Dispatch(c, w, sub, Pays([], [])) == if moved.Ok? then (w.(ledger := moved.value), true) else (w, false)
  {
    hide Transfer;
  }

  lemma RefundPays(c: Chain, w: World, f: Flight)
    requires Sound(c, w) && Solvent(c, w) && Reduce(w.local.channelState, f.key, f.amount).Ok?
    ensures var moved := Transfer(c, w.ledger, TokenOf(f.key.denom), c.bridge, f.sender, f.amount);
            var r := FailureTx(c, w, SentPacket(w, f), Pays([], []));
            moved.Ok? && r.Ok? && r.value.ledger == moved.value
  {
    HeldIsPayable(c, w, f.key, f.sender, f.amount);
    hide Solvent, Transfer, Dispatch, FailureTx;
    var w1, sub := FailureTxShape(c, w, SentPacket(w, f), Pays([], []));
    PlainPayout(c, w1, sub);
    DenomOfFromParts(f.key.denom, f.amount);
  }

  /** A refund that is paid goes to the user who sent the transfer: the bridge has the
      tokens, and moves exactly the amount of the transfer, unless the token lies. */
  lemma RefundPaysSender(c: Chain, genesis: World, events: seq<Event>, i: nat)
    requires Genesis(genesis)
    ensures var w := Run(c, genesis, events);
            (At(w, i, Outbound) || At(w, i, AckedErr)) && HonestRun(c, genesis, events, w.flights[i].key.channel) ==>
              var f := w.flights[i];
              var moved := Transfer(c, w.ledger, TokenOf(f.key.denom), c.bridge, f.sender, f.amount);
              var r := FailureTx(c, w, SentPacket(w, f), Pays([], []));
              moved.Ok? && r.Ok? && r.value.ledger == moved.value
  {
    hide Sound, Solvent, FailureTx, Genesis, Run, HonestRun, Transfer;
    GenesisIsSafe(c, genesis);
    RunKeepsSolvent(c, genesis, events);
    var w := Run(c, genesis, events);
    if (At(w, i, Outbound) || At(w, i, AckedErr)) && HonestRun(c, genesis, events, w.flights[i].key.channel) {
      TwoChainConservation(c, genesis, events, w.flights[i].key);
      OwedIsCovered(c, w, i);
      RefundPays(c, w, w.flights[i]);
    }
  }

  /** What a pending flight claims is there to be taken off its balance. */
  lemma OwedIsCovered(c: Chain, w: World, i: nat)
    requires Sound(c, w) && (At(w, i, Outbound) || At(w, i, AckedErr) || At(w, i, Inbound))
    requires var key := w.flights[i].key;
             Outstanding(w.local.channelState, key) == Get(w.vouchers, key) + Owed(w.flights, key)
    ensures var f := w.flights[i];
            && (Reduce(w.local.channelState, f.key, f.amount).Ok? <==> f.amount > 0 || f.key in w.local.channelState)
            && (!At(w, i, Inbound) ==> f.amount > 0)
  {
    hide Owed;
    OwedAtLeast(w.flights, i, w.flights[i].key);
  }

  lemma RedemptionPays(c: Chain, w: World, f: Flight)
    requires Sound(c, w) && Solvent(c, w) && Reduce(w.local.channelState, f.key, f.amount).Ok?
    requires ClaimsVoucher(ReturnPacket(w, f))
    ensures var moved := Transfer(c, w.ledger, TokenOf(f.key.denom), c.bridge, f.receiver, f.amount);
            var r := ReceiveTx(c, w, ReturnPacket(w, f), Pays([], []));
            moved.Ok? && r.Ok? && r.value.1 == AckResult && r.value.0.ledger == moved.value
  {
    HeldIsPayable(c, w, f.key, f.receiver, f.amount);
    ReturnClaimsItsKey(w, f);
    hide Solvent, Sound, Transfer, ReceiveTx, Dispatch, ParseVoucherDenom, IbcPacketReceive, Voucher;
    var packet := ReturnPacket(w, f);
    ReceiveTxShape(c, w, packet, Pays([], []));
    var sub := IbcPacketReceive(w.local, c.api, packet).1.messages[0];
    PlainPayout(c, Claimed(w, packet), sub);
    PayoutTo(c.api, w.local, packet);
    DenomOfFromParts(f.key.denom, f.amount);
  }

  lemma PayoutTo(api: string -> bool, s: State, packet: IbcPacket)
    ensures var sent := IbcPacketReceive(s, api, packet).1.messages;
            sent != [] ==> packet.data.Json? && sent[0].recipient == packet.data.packet.receiver
  {
  }

  /** A voucher that is redeemed pays its receiver exactly its amount, unless the token lies. */
  lemma RedemptionPaysReceiver(c: Chain, genesis: World, events: seq<Event>, i: nat)
    requires Genesis(genesis)
    ensures var w := Run(c, genesis, events);
            At(w, i, Inbound) && HonestRun(c, genesis, events, w.flights[i].key.channel)
            && w.flights[i].amount > 0 && ClaimsVoucher(ReturnPacket(w, w.flights[i])) ==>
              var f := w.flights[i];
              var moved := Transfer(c, w.ledger, TokenOf(f.key.denom), c.bridge, f.receiver, f.amount);
              var r := ReceiveTx(c, w, ReturnPacket(w, f), Pays([], []));
              moved.Ok? && r.Ok? && r.value.1 == AckResult && r.value.0.ledger == moved.value
  {
    hide Sound, Solvent, ReceiveTx, Genesis, Run, HonestRun, Transfer, ClaimsVoucher;
    GenesisIsSafe(c, genesis);
    RunKeepsSolvent(c, genesis, events);
    var w := Run(c, genesis, events);
    if At(w, i, Inbound) && HonestRun(c, genesis, events, w.flights[i].key.channel) && w.flights[i].amount > 0
       && ClaimsVoucher(ReturnPacket(w, w.flights[i]))
    {
      TwoChainConservation(c, genesis, events, w.flights[i].key);
      OwedIsCovered(c, w, i);
      RedemptionPays(c, w, w.flights[i]);
    }
  }

  // ------------------------------------------- what the reachability is needed for

  /** In an arbitrary state the receive handler alone, which turns its errors into
      acknowledgements, can leave a balance lowered under an error acknowledgement:
      exactly when the packet claims a positive amount that is there, of a denomination
      that the allow list does not let out. */
  lemma SwallowedErrorLosesExactly(s: State, api: string -> bool, packet: IbcPacket)
    ensures var (t, response) := IbcPacketReceive(s, api, packet);
            response.ack == AckError && t.channelState != s.channelState
            <==>
            && ClaimsVoucher(packet) && packet.data.packet.amount > 0
            && ClaimedKey(packet) in s.channelState
            && packet.data.packet.amount <= s.channelState[ClaimedKey(packet)].outstanding
            && CheckGasLimit(s, api, Amount.FromParts(ClaimedKey(packet).denom, packet.data.packet.amount)).Err?
  {
    if ClaimsVoucher(packet) && Reduce(s.channelState, ClaimedKey(packet), packet.data.packet.amount).Ok? {
      var key, amount := ClaimedKey(packet), packet.data.packet.amount;
      var reduced := Reduce(s.channelState, key, amount).value;
      assert reduced[key].outstanding == s.channelState[key].outstanding - amount;
      if amount == 0 {
        assert reduced == s.channelState;
      }
    }
  }

  /** Such a state, which no run reaches: any balance of any cw20 token that is neither on
      the allow list nor covered by a default gas limit, in any channel. */
  lemma SwallowedErrorExample(s: State, api: string -> bool, token: Addr, remote: Endpoint, channel: string,
                              amount: Uint128)
    requires s.config.defaultGasLimit.None? && token !in s.allowList && amount > 0
    requires '/' !in remote.portId && '/' !in remote.channelId
    requires s.channelState == map[Key(channel, CW20_PREFIX + token) := ChannelState(amount, amount)]
    ensures var key := Key(channel, CW20_PREFIX + token);
            var data := Json(Ics20Packet(amount, Voucher(remote, key.denom), "", "", None));
            var packet := IbcPacket(data, remote, Endpoint("", channel));
            var (t, response) := IbcPacketReceive(s, api, packet);
            response.ack == AckError && Outstanding(t.channelState, key) == 0 < Outstanding(s.channelState, key)
  {
    var denom := CW20_PREFIX + token;
    ParseVoucherExactly(Voucher(remote, denom), remote, denom);
    FromPartsOfDenom(Cw20(token, amount));
    assert Amount.FromParts(denom, amount) == Cw20(token, amount);
  }
}
