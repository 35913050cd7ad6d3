/** Safety of the bridge over all runs: solvency against any remote chain, conservation
    between the two chains with a remote chain that mints and burns, and error
    acknowledgements that leave the channel balances alone. */
module Ics20Safety {
  import opened Prelude
  import opened Sums
  import opened Ics20Denom
  import opened Ics20State
  import opened Ics20Ibc
  import opened Ics20World

  // ---------------------------------------------------------------- measures

  /** What a flight still owes to the channel balance of `key`: it is neither a voucher
      on the remote chain nor paid out on the local one. */
  function Due(f: Flight, key: Key): nat {
    if f.key == key && (f.stage.Outbound? || f.stage.AckedErr? || f.stage.Inbound? || f.stage.ReturnedErr?)
    then f.amount else 0
  }

  function Dues(flights: map<nat, Flight>, key: Key): map<nat, nat> {
    map i | i in flights :: Due(flights[i], key)
  }

  ghost function Owed(flights: map<nat, Flight>, key: Key): nat {
    Sum(Dues(flights, key))
  }

  /** Zero when the channel balance is backed one to one on the other side. */
  ghost function Gap(w: World, key: Key): int {
    Outstanding(w.local.channelState, key) - Get(w.vouchers, key) - Owed(w.flights, key)
  }

  function Share(k: Key, st: ChannelState, denom: string): nat {
    if k.denom == denom then st.outstanding else 0
  }

  function Shares(cs: Channels, denom: string): map<Key, nat> {
    map k | k in cs :: Share(k, cs[k], denom)
  }

  /** All that the channels together may still claim of one denomination. */
  ghost function Escrow(cs: Channels, denom: string): nat {
    Sum(Shares(cs, denom))
  }

  /** Real holdings of the bridge above what the channels may claim. */
  ghost function Slack(c: Chain, w: World, denom: string): int {
    Balance(w.ledger, TokenOf(denom), c.bridge) - Escrow(w.local.channelState, denom)
  }

  // -------------------------------------------------------------- invariants

  /** Payouts of this denomination are not held up by the allow list. */
  predicate Payable(c: Chain, s: State, denom: string) {
    CheckGasLimit(s, c.api, Amount.FromParts(denom, 0)).Ok?
  }

  predicate StateSound(c: Chain, s: State) {
    && (forall k | k in s.channelState :: s.channelState[k].outstanding <= s.channelState[k].totalSent)
    && (forall k | k in s.channelState :: Payable(c, s, k.denom))
  }

  predicate FlightsSound(flights: map<nat, Flight>, next: nat) {
    && (forall i | i in flights :: i < next)
    && (forall i | i in flights ::
          flights[i].stage.Outbound? || flights[i].stage.AckedErr? ==> flights[i].amount > 0)
  }

  predicate Sound(c: Chain, w: World) {
    StateSound(c, w.local) && FlightsSound(w.flights, w.next)
  }

  ghost predicate Solvent(c: Chain, w: World) {
    forall denom: string | !c.Lies(TokenOf(denom)) :: Slack(c, w, denom) >= 0
  }

  /** What any local activity does at most: it may add flights and deposits, never take
      anything away from an older flight or from the backing of a balance. */
  ghost predicate Extends(c: Chain, w: World, v: World) {
    && (forall key: Key :: Gap(v, key) == Gap(w, key))
    && (forall denom: string | !c.Lies(TokenOf(denom)) :: Slack(c, v, denom) >= Slack(c, w, denom))
    && (forall i | i in w.flights :: i in v.flights && v.flights[i] == w.flights[i])
    && v.vouchers == w.vouchers
    && v.local.replyArgs == w.local.replyArgs
    && v.local.channelInfo == w.local.channelInfo
  }

  // ------------------------------------------------------- sums under updates

  lemma OwedUpdate(flights: map<nat, Flight>, i: nat, f: Flight, key: Key)
    ensures Owed(flights[i := f], key) ==
            Owed(flights, key) + Due(f, key) - (if i in flights then Due(flights[i], key) else 0)
  {
    assert Dues(flights[i := f], key) == Dues(flights, key)[i := Due(f, key)];
    SumUpdate(Dues(flights, key), i, Due(f, key));
  }

  lemma OwedRemove(flights: map<nat, Flight>, i: nat, key: Key)
    requires i in flights
    ensures Owed(flights - {i}, key) == Owed(flights, key) - Due(flights[i], key)
  {
    assert Dues(flights - {i}, key) == Dues(flights, key) - {i};
    SumRemove(Dues(flights, key), i);
  }

  lemma OwedAtLeast(flights: map<nat, Flight>, i: nat, key: Key)
    requires i in flights
    ensures Due(flights[i], key) <= Owed(flights, key)
  {
    SumAtLeast(Dues(flights, key), i);
  }

  lemma EscrowUpdate(cs: Channels, key: Key, st: ChannelState, denom: string)
    ensures Escrow(cs[key := st], denom) ==
            Escrow(cs, denom) + (if key.denom == denom then st.outstanding - Outstanding(cs, key) else 0)
  {
    assert Shares(cs[key := st], denom) == Shares(cs, denom)[key := Share(key, st, denom)];
    SumUpdate(Shares(cs, denom), key, Share(key, st, denom));
  }

  lemma EscrowAtLeast(cs: Channels, key: Key)
    ensures Outstanding(cs, key) <= Escrow(cs, key.denom)
  {
    SumAtLeast(Shares(cs, key.denom), key);
  }

  // --------------------------------------------------------- local activity

  lemma ExtendsTransitive(c: Chain, u: World, v: World, w: World)
    requires Extends(c, u, v) && Extends(c, v, w)
    ensures Extends(c, u, w)
  {
    forall key: Key
      ensures Gap(w, key) == Gap(u, key)
    {
      assert Gap(v, key) == Gap(u, key);
    }
    forall denom: string | !c.Lies(TokenOf(denom))
      ensures Slack(c, w, denom) >= Slack(c, u, denom)
    {
      assert Slack(c, v, denom) >= Slack(c, u, denom);
    }
  }

  /** A transfer that the bridge accepts is in a denomination that can be paid out again. */
  lemma AcceptedIsPayable(c: Chain, s: State, now: Uint64, msg: TransferMsg, amount: Amount, sender: Addr)
    requires ExecuteTransfer(s, c.api, now, msg, amount, sender).Ok?
    requires amount.Native? ==> !(CW20_PREFIX <= amount.denom)
    ensures Payable(c, s, amount.Denom())
  {
    FromPartsOfDenom(amount);
    assert Amount.FromParts(amount.Denom(), 0) == amount.(amount := 0);
  }

  /** What a deposit changes, when it changes anything. */
  lemma DepositShape(c: Chain, w: World, now: Uint64, msg: TransferMsg, amount: Amount, user: Addr)
    returns (st: ChannelState, f: Flight)
    requires amount.Native? ==> !(CW20_PREFIX <= amount.denom)
    requires user != c.bridge || c.Lies(amount.Token())
    ensures var v := Deposit(c, w, amount.Token(), user, ExecuteTransfer(w.local, c.api, now, msg, amount, user));
            v != w ==>
              && f.amount == amount.amount > 0 && f.stage == Outbound
              && f.key == Key(msg.channel, amount.Denom()) && f.sender == user && f.receiver == msg.remoteAddress
              && TokenOf(f.key.denom) == amount.Token() && Payable(c, w.local, f.key.denom)
              && st.outstanding == Outstanding(w.local.channelState, f.key) + f.amount
              && st.totalSent ==
                   (if f.key in w.local.channelState then w.local.channelState[f.key].totalSent else 0) + f.amount
              && (forall token | !c.Lies(token) :: Balance(v.ledger, token, c.bridge) ==
                    Balance(w.ledger, token, c.bridge) + (if token == amount.Token() then f.amount else 0))
              && v == w.(local := w.local.(channelState := w.local.channelState[f.key := st]),
                         ledger := v.ledger, next := w.next + 1, flights := w.flights[w.next := f])
  {
    var sent := ExecuteTransfer(w.local, c.api, now, msg, amount, user);
    var v := Deposit(c, w, amount.Token(), user, sent);
    st, f := ChannelState(0, 0), Flight(Key("", ""), 0, "", "", Outbound);
    if v != w {
      f := v.flights[w.next];
      st := v.local.channelState[f.key];
      FromPartsOfDenom(amount);
      AcceptedIsPayable(c, w.local, now, msg, amount, user);
    }
  }

  /** A deposit raises one channel balance, one flight and the holdings by the same amount. */
  lemma DepositMeasures(c: Chain, w: World, v: World, st: ChannelState, f: Flight)
    requires w.next !in w.flights && f.stage == Outbound
    requires st.outstanding == Outstanding(w.local.channelState, f.key) + f.amount
    requires v.local == w.local.(channelState := w.local.channelState[f.key := st])
    requires v.vouchers == w.vouchers && v.flights == w.flights[w.next := f]
    requires forall token | !c.Lies(token) :: Balance(v.ledger, token, c.bridge) ==
               Balance(w.ledger, token, c.bridge) + (if token == TokenOf(f.key.denom) then f.amount else 0)
    ensures Extends(c, w, v)
    ensures forall denom: string | !c.Lies(TokenOf(denom)) :: Slack(c, v, denom) == Slack(c, w, denom)
  {
    forall k: Key
      ensures Gap(v, k) == Gap(w, k)
    {
      OwedUpdate(w.flights, w.next, f, k);
    }
    forall denom: string | !c.Lies(TokenOf(denom))
      ensures Slack(c, v, denom) == Slack(c, w, denom)
    {
      EscrowUpdate(w.local.channelState, f.key, st, denom);
      TokenOfInjective(denom, f.key.denom);
    }
  }

  lemma DepositKeeps(c: Chain, w: World, now: Uint64, msg: TransferMsg, amount: Amount, user: Addr)
    requires Sound(c, w) && (user != c.bridge || c.Lies(amount.Token()))
    requires amount.Native? ==> !(CW20_PREFIX <= amount.denom)
    ensures var v := Deposit(c, w, amount.Token(), user, ExecuteTransfer(w.local, c.api, now, msg, amount, user));
            && Sound(c, v) && Extends(c, w, v)
            && forall denom: string | !c.Lies(TokenOf(denom)) :: Slack(c, v, denom) == Slack(c, w, denom)
  {
    var st, f := DepositShape(c, w, now, msg, amount, user);
    var v := Deposit(c, w, amount.Token(), user, ExecuteTransfer(w.local, c.api, now, msg, amount, user));
    if v != w {
      DepositMeasures(c, w, v, st, f);
      forall k | k in v.local.channelState
        ensures Payable(c, v.local, k.denom)
      {
        assert Payable(c, w.local, k.denom);
      }
    }
  }

  /** The allow list and the default gas limit only ever grow, so what is payable stays so. */
  lemma AllowKeepsPayable(c: Chain, s: State, sender: Addr, contract: Addr, gasLimit: Option<Uint64>, denom: string)
    requires Payable(c, s, denom)
    ensures ExecuteAllow(s, c.api, sender, contract, gasLimit).Ok?
            ==> Payable(c, ExecuteAllow(s, c.api, sender, contract, gasLimit).value, denom)
    ensures Payable(c, Migrate(s, gasLimit), denom)
  {
  }

  lemma AdminKeeps(c: Chain, w: World, op: LocalOp)
    requires Sound(c, w) && (op.AllowToken? || op.ChangeAdmin? || op.SetDefaultGas?)
    ensures Sound(c, ApplyLocal(c, w, op)) && Extends(c, w, ApplyLocal(c, w, op))
  {
    hide Payable;
    var v := ApplyLocal(c, w, op);
    forall k | k in v.local.channelState
      ensures Payable(c, v.local, k.denom)
    {
      AdminKeepsPayable(c, w, op, k.denom);
    }
    SameBooks(c, w, v);
  }

  lemma AdminKeepsPayable(c: Chain, w: World, op: LocalOp, denom: string)
    requires Payable(c, w.local, denom) && (op.AllowToken? || op.ChangeAdmin? || op.SetDefaultGas?)
    ensures Payable(c, ApplyLocal(c, w, op).local, denom)
  {
    match op
    case AllowToken(sender, contract, gasLimit) => AllowKeepsPayable(c, w.local, sender, contract, gasLimit, denom);
    case SetDefaultGas(gasLimit) => AllowKeepsPayable(c, w.local, "", "", gasLimit, denom);
    case ChangeAdmin(_, _) =>
  }

  /** No measure looks at the configuration, the admin or the allow list. */
  lemma SameBooks(c: Chain, w: World, v: World)
    requires v == w.(local := v.local)
    requires v.local.channelState == w.local.channelState && v.local.channelInfo == w.local.channelInfo
    requires v.local.replyArgs == w.local.replyArgs
    ensures Extends(c, w, v)
  {
    hide Owed, Escrow;
  }

  lemma LedgerKeeps(c: Chain, w: World, op: LocalOp)
    requires Sound(c, w) && (op.MoveTokens? || op.CreditTokens? || op.RewriteTokens?)
    ensures Sound(c, ApplyLocal(c, w, op)) && Extends(c, w, ApplyLocal(c, w, op))
  {
    var v := ApplyLocal(c, w, op);
    assert forall token | !c.Lies(token) :: Balance(v.ledger, token, c.bridge) >= Balance(w.ledger, token, c.bridge);
  }

  lemma ApplyLocalKeeps(c: Chain, w: World, op: LocalOp)
    requires Sound(c, w)
    ensures Sound(c, ApplyLocal(c, w, op)) && Extends(c, w, ApplyLocal(c, w, op))
  {
    match op
    case SendNative(now, user, coin, msg) =>
      if !(CW20_PREFIX <= coin.denom) && user != c.bridge {
        DepositKeeps(c, w, now, msg, Native(coin.denom, coin.amount), user);
      }
    case SendCw20(now, user, contract, value, inner) =>
      if (user != c.bridge || c.Lies(Contract(contract))) && inner.Some? && c.api(user) {
        DepositKeeps(c, w, now, inner.value, Cw20(contract, value), user);
      }
    case AllowToken(_, _, _) => AdminKeeps(c, w, op);
    case ChangeAdmin(_, _) => AdminKeeps(c, w, op);
    case SetDefaultGas(_) => AdminKeeps(c, w, op);
    case MoveTokens(_, _, _, _) => LedgerKeeps(c, w, op);
    case CreditTokens(_, _, _) => LedgerKeeps(c, w, op);
    case RewriteTokens(_, _, _) => LedgerKeeps(c, w, op);
  }

  lemma {:induction false} RunLocalKeeps(c: Chain, w: World, ops: seq<LocalOp>)
    requires Sound(c, w)
    ensures Sound(c, RunLocal(c, w, ops)) && Extends(c, w, RunLocal(c, w, ops))
    decreases |ops|
  {
    if ops != [] {
      var v := ApplyLocal(c, w, ops[0]);
      ApplyLocalKeeps(c, w, ops[0]);
      RunLocalKeeps(c, v, ops[1..]);
      ExtendsTransitive(c, w, v, RunLocal(c, v, ops[1..]));
    }
  }

  // ------------------------------------------------- payouts and transactions

  /** A payout of tokens that the bridge holds above its escrow: it never fails for lack of
      funds, takes exactly the amount, and whatever is nested in it keeps the rest. */
  lemma DispatchKeeps(c: Chain, w: World, sub: SubMsg, payout: Payout)
    requires Sound(c, w)
    requires sub.send.Token() == TokenOf(sub.send.Denom())
    requires !c.Lies(sub.send.Token()) ==> Slack(c, w, sub.send.Denom()) >= sub.send.amount
    ensures var (v, paid) := Dispatch(c, w, sub, payout);
            && paid == payout.Pays?
            && (!paid ==> v == w)
            && Sound(c, v)
            && (forall key: Key :: Gap(v, key) == Gap(w, key))
            && (forall denom: string | !c.Lies(TokenOf(denom)) :: Slack(c, v, denom) >=
                  Slack(c, w, denom) - (if paid && denom == sub.send.Denom() then sub.send.amount else 0))
            && (forall i | i in w.flights :: i in v.flights && v.flights[i] == w.flights[i])
            && v.vouchers == w.vouchers
            && v.local.replyArgs == w.local.replyArgs
            && v.local.channelInfo == w.local.channelInfo
  {
    if payout.Pays? {
      var w1 := RunLocal(c, w, payout.before);
      RunLocalKeeps(c, w, payout.before);
      var d := sub.send.Denom();
      assert !c.Lies(TokenOf(d)) ==> Slack(c, w1, d) >= Slack(c, w, d);
      assert !c.Lies(TokenOf(d)) ==> sub.send.amount <= Balance(w1.ledger, TokenOf(d), c.bridge);
      var moved := Transfer(c, w1.ledger, sub.send.Token(), c.bridge, sub.recipient, sub.send.amount);
      assert moved.Ok?;
      var w2 := w1.(ledger := moved.value);
      forall denom: string | !c.Lies(TokenOf(denom))
        ensures Slack(c, w2, denom) >= Slack(c, w1, denom) - (if denom == d then sub.send.amount else 0)
      {
        TokenOfInjective(denom, d);
      }
      forall key: Key
        ensures Gap(w2, key) == Gap(w1, key)
      {
      }
      var w3 := RunLocal(c, w2, payout.after);
      RunLocalKeeps(c, w2, payout.after);
      forall key: Key
        ensures Gap(w3, key) == Gap(w, key)
      {
        assert Gap(w1, key) == Gap(w, key) && Gap(w3, key) == Gap(w2, key);
      }
      forall denom: string | !c.Lies(TokenOf(denom))
        ensures Slack(c, w3, denom) >= Slack(c, w, denom) - (if denom == d then sub.send.amount else 0)
      {
        assert Slack(c, w1, denom) >= Slack(c, w, denom) && Slack(c, w3, denom) >= Slack(c, w2, denom);
      }
    }
  }

  /** Lowering one channel balance, the first write of both incoming handlers. */
  lemma ReduceKeeps(c: Chain, w: World, key: Key, amount: Uint128, replyArgs: Option<ReplyArgs>)
    requires Sound(c, w) && Reduce(w.local.channelState, key, amount).Ok?
    ensures var cs := Reduce(w.local.channelState, key, amount).value;
            var v := w.(local := w.local.(channelState := cs, replyArgs := replyArgs));
            && Sound(c, v)
            && (forall k: Key :: Gap(v, k) == Gap(w, k) - (if k == key then amount else 0))
            && (forall denom: string | !c.Lies(TokenOf(denom)) :: Slack(c, v, denom) ==
                  Slack(c, w, denom) + (if denom == key.denom then amount else 0))
  {
    var cs := w.local.channelState;
    var st := Reduce(cs, key, amount).value[key];
    forall denom: string | !c.Lies(TokenOf(denom))
      ensures Escrow(cs[key := st], denom) == Escrow(cs, denom) - (if denom == key.denom then amount else 0)
    {
      EscrowUpdate(cs, key, st, denom);
    }
  }

  /** The key that a packet from the remote chain asks to be paid from. */
  function ClaimedKey(packet: IbcPacket): Key
    requires packet.data.Json? && ParseVoucherDenom(packet.data.packet.denom, packet.src).Ok?
  {
    Key(packet.dest.channelId, ParseVoucherDenom(packet.data.packet.denom, packet.src).value)
  }

  predicate ClaimsVoucher(packet: IbcPacket) {
    packet.data.Json? && ParseVoucherDenom(packet.data.packet.denom, packet.src).Ok?
  }

  /** What the packet claims is there to be reduced. */
  predicate Covered(w: World, packet: IbcPacket) {
    ClaimsVoucher(packet)
    && Reduce(w.local.channelState, ClaimedKey(packet), packet.data.packet.amount).Ok?
  }

  /** The world after the first two writes of the receive handler. */
  function Claimed(w: World, packet: IbcPacket): World
    requires Covered(w, packet)
  {
    var key, amount := ClaimedKey(packet), packet.data.packet.amount;
    w.(local := w.local.(
         channelState := Reduce(w.local.channelState, key, amount).value,
         replyArgs := Some(ReplyArgs(key.channel, key.denom, amount))))
  }

  /** The world with nothing but the reply arguments of the packet written. */
  function Noted(w: World, packet: IbcPacket): World
    requires Covered(w, packet)
  {
    w.(local := w.local.(replyArgs := Claimed(w, packet).local.replyArgs))
  }

  /** The receive transaction, branch by branch, where every stored denomination is payable. */
  lemma ReceiveTxShape(c: Chain, w: World, packet: IbcPacket, payout: Payout)
    requires Sound(c, w)
    ensures !Covered(w, packet) ==> ReceiveTx(c, w, packet, payout) == Ok((w, AckError))
    ensures Covered(w, packet) ==>
              var w1 := Claimed(w, packet);
              var sub := IbcPacketReceive(w.local, c.api, packet).1.messages;
              && |sub| == 1
              && sub[0].send == Amount.FromParts(ClaimedKey(packet).denom, packet.data.packet.amount)
              && var (w2, paid) := Dispatch(c, w1, sub[0], payout);
                 (paid ==> ReceiveTx(c, w, packet, payout) == Ok((w2, AckResult)))
                 && (w2 == w1 && !paid ==>
                       ReceiveTx(c, w, packet, payout) == Ok((Noted(w, packet), AckError)))
  {
    if Covered(w, packet) {
      var key, amount := ClaimedKey(packet), packet.data.packet.amount;
      DenomOfFromParts(key.denom, amount);
      assert Payable(c, w.local, key.denom);
      UndoInvertsReduce(w.local.channelState, key, amount);
      var w1 := Claimed(w, packet);
      assert IbcPacketReceive(w.local, c.api, packet).0 == w1.local;
      assert w1.(local := w1.local.(channelState := w.local.channelState)) == Noted(w, packet);
    } else {
      assert IbcPacketReceive(w.local, c.api, packet) == (w.local, ReceiveResponse(AckError, []));
    }
  }

  /** Received packets in a sound and solvent world, whoever sent them. The transaction
      goes through; it is answered with an error exactly when the packet claims nothing
      that the channel holds, or when the payout fails; then nothing but the reply
      arguments has changed. Otherwise exactly the claimed amount left the channel. */
  lemma ReceiveTxKeeps(c: Chain, w: World, packet: IbcPacket, payout: Payout) returns (v: World, ack: Ack)
    requires Sound(c, w) && Solvent(c, w)
    ensures ReceiveTx(c, w, packet, payout) == Ok((v, ack))
    ensures ack == AckResult <==> Covered(w, packet) && payout.Pays?
    ensures ack == AckError ==> v == w.(local := w.local.(replyArgs := v.local.replyArgs))
    ensures Sound(c, v) && Solvent(c, v)
    ensures forall i | i in w.flights :: i in v.flights && v.flights[i] == w.flights[i]
    ensures v.vouchers == w.vouchers && v.local.channelInfo == w.local.channelInfo
    ensures forall key: Key :: Gap(v, key) == Gap(w, key) -
              (if ack == AckResult && key == ClaimedKey(packet) then packet.data.packet.amount else 0)
  {
    ReceiveTxShape(c, w, packet, payout);
    v, ack := ReceiveTx(c, w, packet, payout).value.0, ReceiveTx(c, w, packet, payout).value.1;
    if Covered(w, packet) {
      var key, amount := ClaimedKey(packet), packet.data.packet.amount;
      var w1 := Claimed(w, packet);
      var sub := IbcPacketReceive(w.local, c.api, packet).1.messages[0];
      ReduceKeeps(c, w, key, amount, w1.local.replyArgs);
      DenomOfFromParts(key.denom, amount);
      assert !c.Lies(TokenOf(key.denom)) ==> Slack(c, w, key.denom) >= 0;
      DispatchKeeps(c, w1, sub, payout);
      if payout.Pays? {
        PaidKeepsSolvent(c, w, w1, v, key, amount);
      } else {
        SameMeasures(c, w, v);
      }
    }
  }

  /** What a reduction frees, a payout may take. */
  lemma PaidKeepsSolvent(c: Chain, w: World, w1: World, v: World, key: Key, amount: nat)
    requires Solvent(c, w)
    requires forall denom: string | !c.Lies(TokenOf(denom)) ::
               Slack(c, w1, denom) == Slack(c, w, denom) + (if denom == key.denom then amount else 0)
    requires forall denom: string | !c.Lies(TokenOf(denom)) ::
               Slack(c, v, denom) >= Slack(c, w1, denom) - (if denom == key.denom then amount else 0)
    ensures Solvent(c, v)
  {
    forall denom: string | !c.Lies(TokenOf(denom))
      ensures Slack(c, v, denom) >= 0
    {
      assert Slack(c, w, denom) >= 0;
      assert Slack(c, w1, denom) == Slack(c, w, denom) + (if denom == key.denom then amount else 0);
    }
  }

  /** Reply arguments do not matter to any measure. */
  lemma SameMeasures(c: Chain, w: World, v: World)
    requires Sound(c, w) && Solvent(c, w)
    requires v == w.(local := w.local.(replyArgs := v.local.replyArgs))
    ensures Sound(c, v) && Solvent(c, v)
    ensures forall key: Key :: Gap(v, key) == Gap(w, key)
  {
    forall denom: string | !c.Lies(TokenOf(denom))
      ensures Slack(c, v, denom) >= 0
    {
      assert Slack(c, w, denom) >= 0;
    }
  }

  /** The refund transaction, branch by branch, where every stored denomination is payable. */
  lemma FailureTxShape(c: Chain, w: World, packet: IbcPacket, payout: Payout)
    returns (w1: World, sub: SubMsg)
    requires Sound(c, w) && packet.data.Json?
    ensures var key := Key(packet.src.channelId, packet.data.packet.denom);
            var amount := packet.data.packet.amount;
            var reduced := Reduce(w.local.channelState, key, amount);
            && (reduced.Err? ==> OnPacketFailure(w.local, c.api, packet).Err? && FailureTx(c, w, packet, payout).Err?)
            && (reduced.Ok? ==>
                  && OnPacketFailure(w.local, c.api, packet) == Ok((w1.local, sub))
                  && w1 == w.(local := w.local.(channelState := reduced.value))
                  && sub.send == Amount.FromParts(key.denom, amount) && sub.recipient == packet.data.packet.sender
                  && FailureTx(c, w, packet, payout) == Ok(Dispatch(c, w1, sub, payout).0))
  {
    var key := Key(packet.src.channelId, packet.data.packet.denom);
    var amount := packet.data.packet.amount;
    w1, sub := w, SubMsg(Native("", 0), "", 0, None);
    if Reduce(w.local.channelState, key, amount).Ok? {
      DenomOfFromParts(key.denom, amount);
      assert Payable(c, w.local, key.denom);
      var failure := OnPacketFailure(w.local, c.api, packet).value;
      w1, sub := w.(local := failure.0), failure.1;
    }
  }

  /** Error acknowledgements and timeouts of sent packets in a sound and solvent world.
      The transaction goes through exactly when the channel still holds the amount, and
      then exactly that amount left the channel, whether or not the refund was paid. */
  lemma FailureTxKeeps(c: Chain, w: World, packet: IbcPacket, payout: Payout)
    requires Sound(c, w) && Solvent(c, w) && packet.data.Json?
    ensures var key := Key(packet.src.channelId, packet.data.packet.denom);
            var amount := packet.data.packet.amount;
            var r := FailureTx(c, w, packet, payout);
            && (r.Ok? <==> Reduce(w.local.channelState, key, amount).Ok?)
            && (r.Ok? ==>
                  var v := r.value;
                  && Sound(c, v) && Solvent(c, v)
                  && (forall i | i in w.flights :: i in v.flights && v.flights[i] == w.flights[i])
                  && v.vouchers == w.vouchers
                  && v.local.channelInfo == w.local.channelInfo
                  && (forall k: Key :: Gap(v, k) == Gap(w, k) - (if k == key then amount else 0)))
  {
    var key := Key(packet.src.channelId, packet.data.packet.denom);
    var amount := packet.data.packet.amount;
    var w1, sub := FailureTxShape(c, w, packet, payout);
    if Reduce(w.local.channelState, key, amount).Ok? {
      ReduceKeeps(c, w, key, amount, w.local.replyArgs);
      assert w1.local == w.local.(channelState := w1.local.channelState, replyArgs := w.local.replyArgs);
      DenomOfFromParts(key.denom, amount);
      assert !c.Lies(TokenOf(key.denom)) ==> Slack(c, w, key.denom) >= 0;
      DispatchKeeps(c, w1, sub, payout);
      var v := Dispatch(c, w1, sub, payout).0;
      forall denom: string | !c.Lies(TokenOf(denom))
        ensures Slack(c, v, denom) >= Slack(c, w1, denom) - (if denom == key.denom then amount else 0)
      {
      }
      PaidKeepsSolvent(c, w, w1, v, key, amount);
    }
  }

  // ------------------------------------------------------------------- steps

  /** Changing flights and vouchers only. */
  lemma Reflag(c: Chain, w: World, v: World)
    requires Sound(c, w) && Solvent(c, w)
    requires v.local == w.local && v.ledger == w.ledger && FlightsSound(v.flights, v.next)
    ensures Sound(c, v) && Solvent(c, v)
  {
    forall denom: string | !c.Lies(TokenOf(denom))
      ensures Slack(c, v, denom) >= 0
    {
      assert Slack(c, w, denom) >= 0;
    }
  }

  /** The events that touch neither the contract nor the local ledger. */
  predicate RemoteOnly(e: Event) {
    e.RemoteReceive? || e.RemoteReturn? || e.RelayReturnAck? || e.RelayReturnTimeout? || e.ForgedAck?
  }

  lemma RemoteKeepsSolvent(c: Chain, w: World, e: Event)
    requires Sound(c, w) && Solvent(c, w) && RemoteOnly(e)
    ensures Sound(c, Apply(c, w, e)) && Solvent(c, Apply(c, w, e))
  {
    hide Solvent, StateSound;
    Reflag(c, w, Apply(c, w, e));
  }

  lemma LocalKeepsSolvent(c: Chain, w: World, op: LocalOp)
    requires Sound(c, w) && Solvent(c, w)
    ensures Sound(c, ApplyLocal(c, w, op)) && Solvent(c, ApplyLocal(c, w, op))
  {
    ApplyLocalKeeps(c, w, op);
    forall denom: string | !c.Lies(TokenOf(denom))
      ensures Slack(c, ApplyLocal(c, w, op), denom) >= 0
    {
      assert Slack(c, w, denom) >= 0;
    }
  }

  lemma ConnectKeepsSolvent(c: Chain, w: World, channel: string, remote: Endpoint)
    requires Sound(c, w) && Solvent(c, w)
    ensures Sound(c, Connected(w, channel, remote)) && Solvent(c, Connected(w, channel, remote))
  {
    var v := Connected(w, channel, remote);
    forall k | k in v.local.channelState
      ensures Payable(c, v.local, k.denom)
    {
      assert Payable(c, w.local, k.denom);
    }
    forall denom: string | !c.Lies(TokenOf(denom))
      ensures Slack(c, v, denom) >= 0
    {
      assert Slack(c, w, denom) >= 0;
    }
  }

  lemma ReturnFundsKeeps(c: Chain, w: World, i: nat, payout: Payout)
    requires Sound(c, w) && Solvent(c, w) && i in w.flights
    ensures Sound(c, ReturnFunds(c, w, i, payout)) && Solvent(c, ReturnFunds(c, w, i, payout))
  {
    var packet := SentPacket(w, w.flights[i]);
    FailureTxKeeps(c, w, packet, payout);
    if FailureTx(c, w, packet, payout).Ok? {
      Reflag(c, FailureTx(c, w, packet, payout).value, ReturnFunds(c, w, i, payout));
    }
  }

  lemma RedeemedKeepsSolvent(c: Chain, w: World, i: nat, payout: Payout)
    requires Sound(c, w) && Solvent(c, w) && i in w.flights
    ensures Sound(c, Redeemed(c, w, i, payout)) && Solvent(c, Redeemed(c, w, i, payout))
  {
    var packet := ReturnPacket(w, w.flights[i]);
    var v, ack := ReceiveTxKeeps(c, w, packet, payout);
    Reflag(c, v, Answering(w, i, Ok((v, ack))));
  }

  lemma DeliverKeepsSolvent(c: Chain, w: World, packet: IbcPacket, payout: Payout)
    requires Sound(c, w) && Solvent(c, w)
    ensures Sound(c, Deliver(c, w, packet, payout)) && Solvent(c, Deliver(c, w, packet, payout))
  {
    var _, _ := ReceiveTxKeeps(c, w, packet, payout);
  }

  lemma SettleKeepsSolvent(c: Chain, w: World, i: nat)
    requires Sound(c, w) && Solvent(c, w)
    ensures Sound(c, Settle(w, i)) && Solvent(c, Settle(w, i))
  {
    Reflag(c, w, Settle(w, i));
  }

  lemma ApplyKeepsSolvent(c: Chain, w: World, e: Event)
    requires Sound(c, w) && Solvent(c, w)
    ensures Sound(c, Apply(c, w, e)) && Solvent(c, Apply(c, w, e))
  {
    hide Sound, Solvent, ApplyLocal, Connected, ReturnFunds, Redeemed, Deliver, Settle;
    match e
    case Local(op) => LocalKeepsSolvent(c, w, op);
    case Connect(channel, remote) => ConnectKeepsSolvent(c, w, channel, remote);
    case RelayAck(i, payout) =>
      if At(w, i, AckedErr) {
        ReturnFundsKeeps(c, w, i, payout);
      } else if At(w, i, AckedOk) {
        SettleKeepsSolvent(c, w, i);
      }
    case RelayTimeout(i, payout) =>
      if At(w, i, Outbound) {
        ReturnFundsKeeps(c, w, i, payout);
      }
    case LocalReceive(i, payout) =>
      if At(w, i, Inbound) {
        RedeemedKeepsSolvent(c, w, i, payout);
      }
    case ForeignReceive(channel, data, payout) =>
      DeliverKeepsSolvent(c, w, IbcPacket(data, RemoteOf(w, channel), Endpoint("", channel)), payout);
    case ForgedReceive(packet, payout) => DeliverKeepsSolvent(c, w, packet, payout);
    case _ => RemoteKeepsSolvent(c, w, e);
  }

  // ------------------------------------------------------------ conservation

  lemma RestageGap(w: World, i: nat, stage: Stage, key: Key)
    requires i in w.flights
    ensures Gap(Restage(w, i, stage), key) ==
            Gap(w, key) + Due(w.flights[i], key) - Due(w.flights[i].(stage := stage), key)
  {
    OwedUpdate(w.flights, i, w.flights[i].(stage := stage), key);
  }

  lemma SettleGap(w: World, i: nat, key: Key)
    requires i in w.flights
    ensures Gap(Settle(w, i), key) == Gap(w, key) + Due(w.flights[i], key)
  {
    OwedRemove(w.flights, i, key);
  }

  lemma AnsweredGap(w: World, i: nat, accept: bool, key: Key)
    requires At(w, i, Outbound)
    ensures Gap(Answered(w, i, accept), key) == Gap(w, key)
  {
    RestageGap(w, i, if accept then AckedOk else AckedErr, key);
  }

  lemma BurnedGap(w: World, f: Flight, key: Key)
    requires f.stage == Inbound && f.amount <= Get(w.vouchers, f.key) && w.next !in w.flights
    ensures Gap(Burned(w, f), key) == Gap(w, key)
  {
    OwedUpdate(w.flights, w.next, f, key);
  }

  lemma RemintedGap(w: World, i: nat, key: Key)
    requires At(w, i, Inbound) || At(w, i, ReturnedErr)
    ensures Gap(Reminted(w, i), key) == Gap(w, key)
  {
    SettleGap(Mint(w, w.flights[i].key, w.flights[i].amount), i, key);
  }

  lemma ReturnFundsGap(c: Chain, w: World, i: nat, payout: Payout, key: Key)
    requires Sound(c, w) && Solvent(c, w) && (At(w, i, AckedErr) || At(w, i, Outbound))
    ensures Gap(ReturnFunds(c, w, i, payout), key) == Gap(w, key)
  {
    var packet := SentPacket(w, w.flights[i]);
    FailureTxKeeps(c, w, packet, payout);
    var r := FailureTx(c, w, packet, payout);
    if r.Ok? {
      SettleGap(r.value, i, key);
    }
  }

  /** A return packet claims the balance of its own flight. */
  lemma ReturnClaimsItsKey(w: World, f: Flight)
    ensures var packet := ReturnPacket(w, f);
            && (ClaimsVoucher(packet) <==>
                  '/' !in RemoteOf(w, f.key.channel).portId && '/' !in RemoteOf(w, f.key.channel).channelId)
            && (ClaimsVoucher(packet) ==> ClaimedKey(packet) == f.key)
  {
    var packet := ReturnPacket(w, f);
    var voucher := packet.data.packet.denom;
    ParseVoucherExactly(voucher, packet.src, f.key.denom);
    if ClaimsVoucher(packet) {
      ParseVoucherExactly(voucher, packet.src, ClaimedKey(packet).denom);
      SameVoucher(packet.src, ClaimedKey(packet).denom, f.key.denom);
    }
  }

  lemma AnsweringGap(w: World, i: nat, v: World, ack: Ack, key: Key)
    requires At(w, i, Inbound) && i in v.flights && v.flights[i] == w.flights[i]
    requires Gap(v, key) == Gap(w, key) -
               (if ack == AckResult && key == w.flights[i].key then w.flights[i].amount else 0)
    ensures Gap(Answering(w, i, Ok((v, ack))), key) == Gap(w, key)
  {
    RestageGap(v, i, if ack == AckResult then ReturnedOk else ReturnedErr, key);
  }

  lemma RedeemedGap(c: Chain, w: World, i: nat, payout: Payout, key: Key)
    requires Sound(c, w) && Solvent(c, w) && At(w, i, Inbound)
    ensures Gap(Redeemed(c, w, i, payout), key) == Gap(w, key)
  {
    var packet := ReturnPacket(w, w.flights[i]);
    var v, ack := ReceiveTxKeeps(c, w, packet, payout);
    ReturnClaimsItsKey(w, w.flights[i]);
    AnsweringGap(w, i, v, ack, key);
  }

  /** A delivered packet takes nothing from a key that it does not claim. */
  lemma DeliverGap(c: Chain, w: World, packet: IbcPacket, payout: Payout, key: Key)
    requires Sound(c, w) && Solvent(c, w)
    requires ClaimsVoucher(packet) ==> ClaimedKey(packet) != key
    ensures Gap(Deliver(c, w, packet, payout), key) == Gap(w, key)
  {
    hide Sound, Solvent, Gap;
    var _, _ := ReceiveTxKeeps(c, w, packet, payout);
  }

  lemma LocalGap(c: Chain, w: World, op: LocalOp, key: Key)
    requires Sound(c, w)
    ensures Gap(ApplyLocal(c, w, op), key) == Gap(w, key)
  {
    hide Sound, Gap, ApplyLocal;
    ApplyLocalKeeps(c, w, op);
  }

  lemma ConnectGap(w: World, channel: string, remote: Endpoint, key: Key)
    ensures Gap(Connected(w, channel, remote), key) == Gap(w, key)
  {
  }

  lemma BurnGap(c: Chain, w: World, f: Flight, key: Key)
    requires Sound(c, w) && f.stage == Inbound && f.amount <= Get(w.vouchers, f.key)
    ensures Gap(Burned(w, f), key) == Gap(w, key)
  {
    BurnedGap(w, f, key);
  }

  /** No step that is honest on its channel opens or closes the gap between a channel balance
      and its backing by vouchers and by transfers that are still on their way. */
  lemma HonestStepKeepsGap(c: Chain, w: World, e: Event, key: Key)
    requires Sound(c, w) && Solvent(c, w) && Honest(w, e, key.channel)
    ensures Gap(Apply(c, w, e), key) == Gap(w, key)
  {
    hide Sound, Solvent, Gap, ApplyLocal, Connected, Answered, Settle, ReturnFunds, Burned, Redeemed, Reminted, Deliver,
         Restage;
    match e
    case Local(op) => LocalGap(c, w, op, key);
    case Connect(channel, remote) => ConnectGap(w, channel, remote, key);
    case RemoteReceive(i, accept) =>
      if At(w, i, Outbound) {
        AnsweredGap(w, i, accept, key);
      }
    case RelayAck(i, payout) =>
      if At(w, i, AckedOk) {
        SettleGap(w, i, key);
      } else if At(w, i, AckedErr) {
        ReturnFundsGap(c, w, i, payout, key);
      }
    case RelayTimeout(i, payout) =>
      if At(w, i, Outbound) {
        ReturnFundsGap(c, w, i, payout, key);
      }
    case RemoteReturn(k, amount, sender, receiver) =>
      if amount <= Get(w.vouchers, k) {
        BurnGap(c, w, Flight(k, amount, sender, receiver, Inbound), key);
      }
    case LocalReceive(i, payout) =>
      if At(w, i, Inbound) {
        RedeemedGap(c, w, i, payout, key);
      }
    case RelayReturnAck(i) =>
      if At(w, i, ReturnedOk) {
        SettleGap(w, i, key);
      } else if At(w, i, ReturnedErr) {
        RemintedGap(w, i, key);
      }
    case RelayReturnTimeout(i) =>
      if At(w, i, Inbound) {
        RemintedGap(w, i, key);
      }
    case ForeignReceive(channel, data, payout) =>
      if !(data.Json? && ParseVoucherDenom(data.packet.denom, RemoteOf(w, channel)).Ok?) {
        DeliverGap(c, w, IbcPacket(data, RemoteOf(w, channel), Endpoint("", channel)), payout, key);
      }
    case ForgedReceive(packet, payout) => DeliverGap(c, w, packet, payout, key);
    case ForgedAck(i, accept) =>
      if At(w, i, Outbound) {
        RestageGap(w, i, if accept then AckedOk else AckedErr, key);
      }
  }

  /** One endpoint never gives the same voucher name to two denominations. */
  lemma SameVoucher(remote: Endpoint, d: string, e: string)
    requires Voucher(remote, d) == Voucher(remote, e)
    ensures d == e
  {
    var n := |remote.portId + "/" + remote.channelId + "/"|;
    assert Voucher(remote, d)[n..] == d && Voucher(remote, e)[n..] == e;
  }
}
