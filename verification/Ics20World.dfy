/** Two chains and a relayer around the bridge contract (ICS-20 Fungible Token Transfer,
    Technical Specification, section "Packet relay"): the local ledger of bank coins and
    cw20 tokens, some of which may lie, the voucher supply of the remote chain, and the packets and
    acknowledgements between them. A run is a sequence of events; every choice that users,
    relayers, payouts and the remote chain can make is in the event. */
module Ics20World {
  import opened Prelude
  import opened Sums
  import opened Ics20Denom
  import opened Ics20State
  import opened Ics20Ibc

  /** Where a transfer is on its way. The first three were sent by the local chain, the
      others are vouchers that the remote chain burned and sent back. */
  datatype Stage = Outbound | AckedOk | AckedErr | Inbound | ReturnedOk | ReturnedErr

  datatype Flight = Flight(key: Key, amount: Uint128, sender: string, receiver: string, stage: Stage)

  type Ledger = map<(Token, Addr), nat>

  datatype World = World(
    local: State,
    ledger: Ledger,
    vouchers: map<Key, nat>,
    flights: map<nat, Flight>,
    next: nat)

  /** What is fixed during a run: the address of the bridge, the address check, and the
      contracts that are no honest tokens. */
  datatype Chain = Chain(bridge: Addr, api: string -> bool, liars: set<Addr>) {
    predicate Lies(token: Token) {
      token.Contract? && token.address in liars
    }
  }

  /** What anybody may do on the local chain in one transaction, or inside a payout. */
  datatype LocalOp =
    | SendNative(now: Uint64, user: Addr, coin: Coin, msg: TransferMsg)
    | SendCw20(now: Uint64, user: Addr, contract: Addr, value: Uint128, inner: Option<TransferMsg>)
    | AllowToken(sender: Addr, contract: Addr, gasLimit: Option<Uint64>)
    | ChangeAdmin(sender: Addr, admin: string)
    | SetDefaultGas(gasLimit: Option<Uint64>)
    | MoveTokens(token: Token, from: Addr, to: Addr, amount: nat)
    | CreditTokens(token: Token, account: Addr, amount: nat)
    | RewriteTokens(contract: Addr, account: Addr, amount: nat)

  /** A payout submessage fails, or succeeds with other operations nested before and after
      the movement of the tokens. */
  datatype Payout = Fails | Pays(before: seq<LocalOp>, after: seq<LocalOp>)

  datatype Event =
    | Local(op: LocalOp)
    | Connect(channel: string, remote: Endpoint)
    // the remote chain and the relayer, following the protocol
    | RemoteReceive(flight: nat, accept: bool)
    | RelayAck(flight: nat, payout: Payout)
    | RelayTimeout(flight: nat, payout: Payout)
    | RemoteReturn(key: Key, amount: Uint128, sender: string, receiver: string)
    | LocalReceive(flight: nat, payout: Payout)
    | RelayReturnAck(flight: nat)
    | RelayReturnTimeout(flight: nat)
    | ForeignReceive(channel: string, data: PacketData, payout: Payout)
    // a remote chain that does not follow the protocol
    | ForgedReceive(packet: IbcPacket, payout: Payout)
    | ForgedAck(flight: nat, accept: bool)

  /** An event in which the remote chain at the end of this channel, if it has a part in it,
      mints and burns vouchers as ICS-20 says. Other channels may lead to any other chain. */
  predicate Honest(w: World, e: Event, channel: string) {
    match e
    case ForgedReceive(packet, _) => packet.dest.channelId != channel
    case ForgedAck(i, _) => i in w.flights ==> w.flights[i].key.channel != channel
    case _ => true
  }

  function Balance(ledger: Ledger, token: Token, account: Addr): nat {
    if (token, account) in ledger then ledger[(token, account)] else 0
  }

  function Credit(ledger: Ledger, token: Token, account: Addr, amount: nat): Ledger {
    ledger[(token, account) := Balance(ledger, token, account) + amount]
  }

  function Debit(ledger: Ledger, token: Token, account: Addr, amount: nat): Ledger
    requires amount <= Balance(ledger, token, account)
  {
    ledger[(token, account) := Balance(ledger, token, account) - amount]
  }

  /** An honest token moves exactly what is there. */
  function Move(ledger: Ledger, token: Token, from: Addr, to: Addr, amount: nat): Result<Ledger> {
    if amount <= Balance(ledger, token, from)
    then Ok(Credit(Debit(ledger, token, from, amount), token, to, amount))
    else Err(Overflow)
  }

  /** A lying token answers with success and moves nothing. */
  function Transfer(c: Chain, ledger: Ledger, token: Token, from: Addr, to: Addr, amount: nat): Result<Ledger> {
    if c.Lies(token) then Ok(ledger) else Move(ledger, token, from, to, amount)
  }

  /** Handing tokens to the bridge together with a transfer that the bridge accepted. */
  function Deposit(c: Chain, w: World, token: Token, user: Addr, sent: Result<(State, SendPacket)>): World {
    if sent.Err? then w
    else
      var (local, out) := sent.value;
      match Transfer(c, w.ledger, token, user, c.bridge, out.packet.amount)
      case Err(_) => w
      case Ok(ledger) =>
        var p := out.packet;
        w.(local := local, ledger := ledger, next := w.next + 1,
           flights := w.flights[w.next := Flight(Key(out.channel, p.denom), p.amount, p.sender, p.receiver, Outbound)])
  }

  function ApplyLocal(c: Chain, w: World, op: LocalOp): World {
    match op
    case SendNative(now, user, coin, msg) =>
      // bank denominations do not begin with the cw20 prefix; the bridge only acts through payouts
      if CW20_PREFIX <= coin.denom || user == c.bridge then w
      else
        var amount := Native(coin.denom, coin.amount);
        Deposit(c, w, amount.Token(), user, ExecuteTransfer(w.local, c.api, now, msg, amount, user))
    case SendCw20(now, user, contract, value, inner) =>
      // a lying contract reports a deposit of whomever it likes
      if user == c.bridge && !c.Lies(Contract(contract)) then w
      else Deposit(c, w, Contract(contract), user,
                   ExecuteReceive(w.local, c.api, now, contract, false, user, value, inner))
    case AllowToken(sender, contract, gasLimit) =>
      var r := ExecuteAllow(w.local, c.api, sender, contract, gasLimit);
      if r.Ok? then w.(local := r.value) else w
    case ChangeAdmin(sender, admin) =>
      var r := ExecuteUpdateAdmin(w.local, c.api, sender, admin);
      if r.Ok? then w.(local := r.value) else w
    case SetDefaultGas(gasLimit) => w.(local := Migrate(w.local, gasLimit))
    case MoveTokens(token, from, to, amount) =>
      if from == c.bridge then w
      else
        var r := Move(w.ledger, token, from, to, amount);
        if r.Ok? then w.(ledger := r.value) else w
    case CreditTokens(token, account, amount) => w.(ledger := Credit(w.ledger, token, account, amount))
    case RewriteTokens(contract, account, amount) =>
      if c.Lies(Contract(contract)) then w.(ledger := w.ledger[(Contract(contract), account) := amount]) else w
  }

  function RunLocal(c: Chain, w: World, ops: seq<LocalOp>): World
    decreases |ops|
  {
    if ops == [] then w else RunLocal(c, ApplyLocal(c, w, ops[0]), ops[1..])
  }

  /** The payout of a submessage; `false` when it failed, and then nothing has changed. */
  function Dispatch(c: Chain, w: World, sub: SubMsg, payout: Payout): (World, bool) {
    match payout
    case Fails => (w, false)
    case Pays(before, after) =>
      var w1 := RunLocal(c, w, before);
      match Transfer(c, w1.ledger, sub.send.Token(), c.bridge, sub.recipient, sub.send.amount)
      case Err(_) => (w, false)
      case Ok(ledger) => (RunLocal(c, w1.(ledger := ledger), after), true)
  }

  /** The whole transaction of a received packet: handler, payout and reply. */
  function ReceiveTx(c: Chain, w: World, packet: IbcPacket, payout: Payout): Result<(World, Ack)> {
    var (local, response) := IbcPacketReceive(w.local, c.api, packet);
    var w1 := w.(local := local);
    if response.messages == [] then Ok((w1, response.ack))
    else
      var sub := response.messages[0];
      var (w2, paid) := Dispatch(c, w1, sub, payout);
      var (after, ack) :- if paid then Ok((w2.local, None)) else Reply(w2.local, sub.id, false);
      Ok((w2.(local := after), ack.UnwrapOr(response.ack)))
  }

  /** The whole transaction of an error acknowledgement or a timeout. */
  function FailureTx(c: Chain, w: World, packet: IbcPacket, payout: Payout): Result<World> {
    var (local, sub) :- OnPacketFailure(w.local, c.api, packet);
    var (w2, paid) := Dispatch(c, w.(local := local), sub, payout);
    var (after, _) :- if paid then Ok((w2.local, None)) else Reply(w2.local, sub.id, false);
    Ok(w2.(local := after))
  }

  predicate At(w: World, i: nat, stage: Stage) {
    i in w.flights && w.flights[i].stage == stage
  }

  function Restage(w: World, i: nat, stage: Stage): World
    requires i in w.flights
  {
    w.(flights := w.flights[i := w.flights[i].(stage := stage)])
  }

  function Settle(w: World, i: nat): World {
    w.(flights := w.flights - {i})
  }

  function Mint(w: World, key: Key, amount: nat): World {
    w.(vouchers := w.vouchers[key := Get(w.vouchers, key) + amount])
  }

  function RemoteOf(w: World, channel: string): Endpoint {
    if channel in w.local.channelInfo then w.local.channelInfo[channel] else Endpoint("", "")
  }

  /** The packet that the local chain sent for an outbound flight. */
  function SentPacket(w: World, f: Flight): IbcPacket {
    IbcPacket(Json(Ics20Packet(f.amount, f.key.denom, f.receiver, f.sender, None)),
              Endpoint("", f.key.channel), RemoteOf(w, f.key.channel))
  }

  /** The packet that the remote chain sent for a returning voucher. */
  function ReturnPacket(w: World, f: Flight): IbcPacket {
    var remote := RemoteOf(w, f.key.channel);
    IbcPacket(Json(Ics20Packet(f.amount, Voucher(remote, f.key.denom), f.receiver, f.sender, None)),
              remote, Endpoint("", f.key.channel))
  }

  /** The remote chain answers a transfer: it mints vouchers, or refuses. */
  function Answered(w: World, i: nat, accept: bool): World
    requires i in w.flights
  {
    if accept then Mint(Restage(w, i, AckedOk), w.flights[i].key, w.flights[i].amount)
    else Restage(w, i, AckedErr)
  }

  /** The remote chain burns vouchers and sends them home. */
  function Burned(w: World, f: Flight): World
    requires f.amount <= Get(w.vouchers, f.key)
  {
    w.(vouchers := w.vouchers[f.key := Get(w.vouchers, f.key) - f.amount],
       next := w.next + 1, flights := w.flights[w.next := f])
  }

  /** The remote chain mints again what it had burned for a return that failed. */
  function Reminted(w: World, i: nat): World
    requires i in w.flights
  {
    Settle(Mint(w, w.flights[i].key, w.flights[i].amount), i)
  }

  /** A returning voucher arrives at the bridge. */
  function Redeemed(c: Chain, w: World, i: nat, payout: Payout): World
    requires i in w.flights
  {
    Answering(w, i, ReceiveTx(c, w, ReturnPacket(w, w.flights[i]), payout))
  }

  /** The acknowledgement of a finished receive transaction is written for the flight. */
  function Answering(w: World, i: nat, r: Result<(World, Ack)>): World {
    if r.Err? || i !in r.value.0.flights then w
    else Restage(r.value.0, i, if r.value.1 == AckResult then ReturnedOk else ReturnedErr)
  }

  /** A transfer comes back refused or expired. */
  function ReturnFunds(c: Chain, w: World, i: nat, payout: Payout): World
    requires i in w.flights
  {
    var r := FailureTx(c, w, SentPacket(w, w.flights[i]), payout);
    if r.Ok? then Settle(r.value, i) else w
  }

  function Deliver(c: Chain, w: World, packet: IbcPacket, payout: Payout): World {
    var r := ReceiveTx(c, w, packet, payout);
    if r.Ok? then r.value.0 else w
  }

  function Connected(w: World, channel: string, remote: Endpoint): World {
    if channel in w.local.channelInfo then w
    else w.(local := w.local.(channelInfo := w.local.channelInfo[channel := remote]))
  }

  function Apply(c: Chain, w: World, e: Event): World {
    match e
    case Local(op) => ApplyLocal(c, w, op)
    case Connect(channel, remote) => Connected(w, channel, remote)
    case RemoteReceive(i, accept) =>
      if At(w, i, Outbound) then Answered(w, i, accept) else w
    case RelayAck(i, payout) =>
      if At(w, i, AckedOk) then Settle(w, i)
      else if At(w, i, AckedErr) then ReturnFunds(c, w, i, payout)
      else w
    case RelayTimeout(i, payout) =>
      if At(w, i, Outbound) then ReturnFunds(c, w, i, payout) else w
    case RemoteReturn(key, amount, sender, receiver) =>
      if amount <= Get(w.vouchers, key) then Burned(w, Flight(key, amount, sender, receiver, Inbound)) else w
    case LocalReceive(i, payout) =>
      if At(w, i, Inbound) then Redeemed(c, w, i, payout) else w
    case RelayReturnAck(i) =>
      if At(w, i, ReturnedOk) then Settle(w, i)
      else if At(w, i, ReturnedErr) then Reminted(w, i)
      else w
    case RelayReturnTimeout(i) =>
      if At(w, i, Inbound) then Reminted(w, i) else w
    case ForeignReceive(channel, data, payout) =>
      // a token of the remote chain, or bytes that are no ICS-20 packet
      if data.Json? && ParseVoucherDenom(data.packet.denom, RemoteOf(w, channel)).Ok? then w
      else Deliver(c, w, IbcPacket(data, RemoteOf(w, channel), Endpoint("", channel)), payout)
    case ForgedReceive(packet, payout) => Deliver(c, w, packet, payout)
    case ForgedAck(i, accept) =>
      if At(w, i, Outbound) then Restage(w, i, if accept then AckedOk else AckedErr) else w
  }

  function Run(c: Chain, w: World, events: seq<Event>): World
    decreases |events|
  {
    if events == [] then w else Run(c, Apply(c, w, events[0]), events[1..])
  }

  /** The remote chain at the end of this channel is honest all along the run. */
  predicate HonestRun(c: Chain, w: World, events: seq<Event>, channel: string)
    decreases |events|
  {
    events == []
    || (Honest(w, events[0], channel) && HonestRun(c, Apply(c, w, events[0]), events[1..], channel))
  }

  /** A fresh instantiation, on any ledger. */
  predicate Genesis(w: World) {
    w.local.channelInfo == map[] && w.local.channelState == map[] && w.local.replyArgs == None &&
    w.vouchers == map[] && w.flights == map[]
  }
}
