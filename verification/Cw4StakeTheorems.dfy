/** Runs of the staking contract: tokens are conserved, nothing is paid before its waiting
    period is over, and weights are derived from stakes. */
module Cw4StakeTheorems {
  import opened Prelude
  import opened Sums
  import opened Cw4Stake
  import Cw4Group

  /** One unbonding, as it happened. */
  datatype Unbonding = Unbonding(amount: Uint128, at: Block)

  /** The contract, with a full account of what every address paid in and got out. */
  datatype World = World(
    contract: State,
    now: Block,
    paidIn: map<Addr, nat>,
    paidOut: map<Addr, nat>,
    unbonded: map<Addr, seq<Unbonding>>)

  datatype Event = Call(sender: Addr, msg: Msg) | Tick(later: Block)

  function History(w: World, a: Addr): seq<Unbonding> {
    if a in w.unbonded then w.unbonded[a] else []
  }

  function Worth(coins: seq<Coin>, name: string): nat {
    if coins == [] then 0 else (if coins[0].denom == name then coins[0].amount else 0) + Worth(coins[1..], name)
  }

  /** What really came in of the token that is staked. */
  function Received(denom: Denom, funds: Balance): nat {
    match (denom, funds)
    case (NativeDenom(name), Native(coins)) => Worth(coins, name)
    case (Cw20Denom(token), Cw20(address, amount)) => if address == token then amount else 0
    case (_, _) => 0
  }

  /** The funds are one coin of the token that is staked, or come from its contract. */
  predicate Pays(denom: Denom, funds: Balance) {
    match (denom, funds)
    case (NativeDenom(name), Native(coins)) => |coins| == 1 && coins[0].denom == name
    case (Cw20Denom(token), Cw20(address, _)) => address == token
    case (_, _) => false
  }

  /** Only the token that is staked is taken, and all of it counts. */
  lemma PaymentExactly(config: Config, funds: Balance)
    ensures var r := Payment(config, funds);
            && (r.Ok? <==> Pays(config.denom, funds))
            && (r.Ok? ==> r.value == Received(config.denom, funds))
            && r != Err(Panic)
  {
    if funds.Native? && |funds.coins| == 1 {
      assert funds.coins[1..] == [] && Worth(funds.coins[1..], funds.coins[0].denom) == 0;
    }
  }

  function Apply(w: World, api: string -> bool, e: Event): World {
    match e
    case Tick(later) => if w.now.NotAfter(later) then w.(now := later) else w
    case Call(sender, msg) =>
      var r := Handle(w.contract, api, w.now, sender, msg);
      if r.Err? then w
      else
        var v := w.(contract := r.value.0);
        match msg
        case Bond(funds) =>
          v.(paidIn := v.paidIn[sender := Get(v.paidIn, sender) + Received(w.contract.config.denom, funds)])
        case Unbond(tokens) =>
          v.(unbonded := v.unbonded[sender := History(v, sender) + [Unbonding(tokens, w.now)]])
        case ClaimTokens =>
          v.(paidOut := v.paidOut[sender := Get(v.paidOut, sender) + r.value.1.paid])
        case UpdateAdmin(_) => v
        case AddHook(_) => v
        case RemoveHook(_) => v
  }

  function Run(w: World, api: string -> bool, events: seq<Event>): World
    decreases |events|
  {
    if events == [] then w else Run(Apply(w, api, events[0]), api, events[1..])
  }

  // ---------------------------------------------------------------- measures

  function Stakes(s: State): map<Addr, nat> {
    map a | a in s.stake :: s.stake[a]
  }

  function Waiting(s: State): map<Addr, nat> {
    map a | a in s.claims :: TotalOf(s.claims[a])
  }

  /** What of a list of claims is due at a block. */
  function Matured(claims: seq<Claim>, block: Block): nat {
    if claims == [] then 0
    else (if claims[0].releaseAt.IsExpired(block) then claims[0].amount else 0) + Matured(claims[1..], block)
  }

  /** What was unbonded, from the account, at least the waiting period before a block. */
  function LongAgo(period: Duration, history: seq<Unbonding>, block: Block): nat {
    if history == [] then 0
    else (if period.PassedBetween(history[0].at, block) then history[0].amount else 0)
         + LongAgo(period, history[1..], block)
  }

  // -------------------------------------------------------------- invariants

  /** Per address: what came in is staked, waiting or paid out; and what was paid out or is
      due, now or at any later block, is exactly what was unbonded long enough before. */
  predicate Accounted(w: World, a: Addr) {
    Get(w.paidIn, a) == StakeOf(w.contract, a) + TotalOf(ClaimsOf(w.contract, a)) + Get(w.paidOut, a)
  }

  ghost predicate Timely(w: World, a: Addr) {
    forall b: Block | w.now.NotAfter(b) ::
      Get(w.paidOut, a) + Matured(ClaimsOf(w.contract, a), b)
      == LongAgo(w.contract.config.unbondingPeriod, History(w, a), b)
  }

  /** Membership is derived from stake, for every address whether it ever staked or not. */
  predicate Derived(s: State, a: Addr) {
    CalcWeight(StakeOf(s, a), s.config) == Ok(Cw4Group.Lookup(s.members, a))
  }

  ghost predicate Conserved(w: World) {
    Sum(w.paidIn) == Sum(Stakes(w.contract)) + Sum(Waiting(w.contract)) + Sum(w.paidOut)
  }

  ghost predicate Inv(w: World) {
    && (forall a: Addr :: Accounted(w, a))
    && (forall a: Addr :: Timely(w, a))
    && (forall a: Addr :: Derived(w.contract, a))
    && Conserved(w)
    && w.contract.total == Sum(Cw4Group.Weights(w.contract.members))
  }

  // --------------------------------------------------------------- claim lists

  lemma {:induction false} TotalAppend(claims: seq<Claim>, c: Claim)
    ensures TotalOf(claims + [c]) == TotalOf(claims) + c.amount
  {
    if claims != [] {
      TotalAppend(claims[1..], c);
      assert (claims + [c])[1..] == claims[1..] + [c];
    }
  }

  lemma {:induction false} MaturedAppend(claims: seq<Claim>, c: Claim, b: Block)
    ensures Matured(claims + [c], b) == Matured(claims, b) + (if c.releaseAt.IsExpired(b) then c.amount else 0)
  {
    if claims != [] {
      MaturedAppend(claims[1..], c, b);
      assert (claims + [c])[1..] == claims[1..] + [c];
    }
  }

  lemma {:induction false} LongAgoAppend(period: Duration, history: seq<Unbonding>, u: Unbonding, b: Block)
    ensures LongAgo(period, history + [u], b) ==
            LongAgo(period, history, b) + (if period.PassedBetween(u.at, b) then u.amount else 0)
  {
    if history != [] {
      LongAgoAppend(period, history[1..], u, b);
      assert (history + [u])[1..] == history[1..] + [u];
    }
  }

  lemma TotalCons(c: Claim, rest: seq<Claim>)
    ensures TotalOf([c] + rest) == c.amount + TotalOf(rest)
  {
    assert ([c] + rest)[1..] == rest;
  }

  lemma MaturedCons(c: Claim, rest: seq<Claim>, b: Block)
    ensures Matured([c] + rest, b) == (if c.releaseAt.IsExpired(b) then c.amount else 0) + Matured(rest, b)
  {
    assert ([c] + rest)[1..] == rest;
  }

  lemma DueCons(c: Claim, rest: seq<Claim>, now: Block, due: bool)
    ensures Due([c] + rest, now, due) ==
            if c.releaseAt.IsExpired(now) == due then [c] + Due(rest, now, due) else Due(rest, now, due)
  {
    assert ([c] + rest)[1..] == rest;
  }

  lemma ExpiredStays(e: Expiration, now: Block, b: Block)
    requires now.NotAfter(b) && e.IsExpired(now)
    ensures e.IsExpired(b)
  {
  }

  /** Claiming splits the list: what is due now is paid, and nothing else changes for any
      later block. */
  lemma {:induction false} DueSplits(claims: seq<Claim>, now: Block, b: Block)
    requires now.NotAfter(b)
    ensures TotalOf(Due(claims, now, true)) + TotalOf(Due(claims, now, false)) == TotalOf(claims)
    ensures TotalOf(Due(claims, now, true)) + Matured(Due(claims, now, false), b) == Matured(claims, b)
  {
    if claims != [] {
      hide TotalOf, Due, Matured;
      var c, rest := claims[0], claims[1..];
      assert claims == [c] + rest;
      DueSplits(rest, now, b);
      DueCons(c, rest, now, true);
      DueCons(c, rest, now, false);
      TotalCons(c, rest);
      MaturedCons(c, rest, b);
      TotalCons(c, Due(rest, now, true));
      TotalCons(c, Due(rest, now, false));
      MaturedCons(c, Due(rest, now, false), b);
      if c.releaseAt.IsExpired(now) {
        ExpiredStays(c.releaseAt, now, b);
      }
    }
  }

  // -------------------------------------------------------------------- sums

  lemma StakeChanged(s: State, t: State, sender: Addr, newStake: Uint128)
    requires t.stake == s.stake[sender := newStake]
    ensures Sum(Stakes(t)) + StakeOf(s, sender) == Sum(Stakes(s)) + newStake
  {
    assert Stakes(t) == Stakes(s)[sender := newStake];
    SumUpdate(Stakes(s), sender, newStake);
  }

  lemma ClaimsChanged(s: State, t: State, sender: Addr, claims: seq<Claim>)
    requires t.claims == s.claims[sender := claims]
    ensures Sum(Waiting(t)) + TotalOf(ClaimsOf(s, sender)) == Sum(Waiting(s)) + TotalOf(claims)
  {
    assert Waiting(t) == Waiting(s)[sender := TotalOf(claims)];
    SumUpdate(Waiting(s), sender, TotalOf(claims));
  }

  lemma SameClaims(s: State, t: State)
    requires t.claims == s.claims
    ensures Waiting(t) == Waiting(s)
  {
  }

  // ------------------------------------------------------------------- steps

  /** What a successful membership update does: only the sender's weight is new, it is the
      weight of the new stake, and the total follows. */
  ghost predicate Weighted(s: State, t: State, sender: Addr, newStake: Uint128) {
    && t == s.(members := t.members, total := t.total)
    && t.total == Sum(Cw4Group.Weights(t.members))
    && CalcWeight(newStake, s.config) == Ok(Cw4Group.Lookup(t.members, sender))
    && forall a: Addr | a != sender :: Cw4Group.Lookup(t.members, a) == Cw4Group.Lookup(s.members, a)
  }

  lemma MembershipKeeps(s: State, sender: Addr, newStake: Uint128)
    requires s.total == Sum(Cw4Group.Weights(s.members))
    ensures var r := UpdateMembership(s, sender, newStake); r.Ok? ==> Weighted(s, r.value, sender, newStake)
  {
    hide CalcWeight, Cw4Group.Weights;
    var r := UpdateMembership(s, sender, newStake);
    if r.Ok? && r.value.members != s.members {
      var after := CalcWeight(newStake, s.config).value;
      if after.Some? {
        Cw4Group.SetWeight(s.members, sender, after.value);
      } else {
        Cw4Group.DropWeight(s.members, sender);
      }
    }
  }

  /** The subtraction in the total never traps: it holds at least the old weight. */
  lemma TotalNeverUnderflows(s: State, sender: Addr, newStake: Uint128)
    requires s.total == Sum(Cw4Group.Weights(s.members))
    ensures UpdateMembership(s, sender, newStake).Err? <==>
              var after := CalcWeight(newStake, s.config);
              || after.Err?
              || (after.value != Cw4Group.Lookup(s.members, sender) && s.total + after.value.UnwrapOr(0) > U64_MAX)
  {
    hide CalcWeight;
    SumAtLeast(Cw4Group.Weights(s.members), sender);
  }

  /** After a bond or an unbond every weight is still the weight of the stake. */
  lemma DerivedStays(s: State, t: State, sender: Addr, newStake: Uint128, a: Addr)
    requires Derived(s, a) && t.config == s.config && t.stake == s.stake[sender := newStake]
    requires CalcWeight(newStake, s.config) == Ok(Cw4Group.Lookup(t.members, sender))
    requires a != sender ==> Cw4Group.Lookup(t.members, a) == Cw4Group.Lookup(s.members, a)
    ensures Derived(t, a)
  {
    hide CalcWeight, Cw4Group.Lookup;
  }

  lemma BondKeeps(w: World, api: string -> bool, sender: Addr, funds: Balance)
    requires Inv(w) && ExecuteBond(w.contract, sender, funds).Ok? && (funds.Native? || api(sender))
    ensures Inv(Apply(w, api, Call(sender, Bond(funds))))
  {
    hide UpdateMembership, CalcWeight, Accounted, Timely, Derived, Conserved, Alerts, Payment;
    var s, v := w.contract, Apply(w, api, Call(sender, Bond(funds)));
    PaymentExactly(s.config, funds);
    var amount := Received(s.config.denom, funds);
    var newStake := StakeOf(s, sender) + amount;
    var staked := s.(stake := s.stake[sender := newStake]);
    MembershipKeeps(staked, sender, newStake);
    BondConserves(w, v, sender, amount);
    forall a: Addr
      ensures Accounted(v, a) && Timely(v, a) && Derived(v.contract, a)
    {
      BondAccounted(w, v, sender, amount, a);
      TimelyStays(w, v, a);
      DerivedStays(s, v.contract, sender, newStake, a);
    }
  }

  lemma BondAccounted(w: World, v: World, sender: Addr, amount: nat, a: Addr)
    requires StakeOf(w.contract, sender) + amount <= U128_MAX
    requires v.contract.stake == w.contract.stake[sender := StakeOf(w.contract, sender) + amount]
    requires v.contract.claims == w.contract.claims && v.paidOut == w.paidOut
    requires v.paidIn == w.paidIn[sender := Get(w.paidIn, sender) + amount]
    requires Accounted(w, a)
    ensures Accounted(v, a)
  {
  }

  lemma BondConserves(w: World, v: World, sender: Addr, amount: nat)
    requires StakeOf(w.contract, sender) + amount <= U128_MAX
    requires v.contract.stake == w.contract.stake[sender := StakeOf(w.contract, sender) + amount]
    requires v.contract.claims == w.contract.claims && v.paidOut == w.paidOut
    requires v.paidIn == w.paidIn[sender := Get(w.paidIn, sender) + amount]
    requires Conserved(w)
    ensures Conserved(v)
  {
    hide Stakes, Waiting, StakeOf;
    StakeChanged(w.contract, v.contract, sender, StakeOf(w.contract, sender) + amount);
    SameClaims(w.contract, v.contract);
    SumUpdate(w.paidIn, sender, Get(w.paidIn, sender) + amount);
  }

  /** Where claims, payouts and unbondings do not change, they stay in time. */
  lemma TimelyStays(w: World, v: World, a: Addr)
    requires Timely(w, a) && w.now.NotAfter(v.now) && v.contract.config == w.contract.config
    requires Get(v.paidOut, a) == Get(w.paidOut, a) && History(v, a) == History(w, a)
    requires ClaimsOf(v.contract, a) == ClaimsOf(w.contract, a)
    ensures Timely(v, a)
  {
    hide Matured, LongAgo, Get, History, ClaimsOf;
  }

  lemma UnbondKeeps(w: World, api: string -> bool, sender: Addr, amount: Uint128)
    requires Inv(w) && ExecuteUnbond(w.contract, w.now, sender, amount).Ok?
    ensures Inv(Apply(w, api, Call(sender, Unbond(amount))))
  {
    hide UpdateMembership, CalcWeight, Accounted, Timely, Derived, Conserved, TotalOf, Alerts;
    var s, v := w.contract, Apply(w, api, Call(sender, Unbond(amount)));
    var newStake := StakeOf(s, sender) - amount;
    var claim := Claim(amount, s.config.unbondingPeriod.After(w.now).value);
    var moved := s.(stake := s.stake[sender := newStake], claims := s.claims[sender := ClaimsOf(s, sender) + [claim]]);
    MembershipKeeps(moved, sender, newStake);
    UnbondConserves(w, v, sender, claim);
    forall a: Addr
      ensures Accounted(v, a) && Timely(v, a) && Derived(v.contract, a)
    {
      UnbondAccounted(w, v, sender, claim, a);
      DerivedStays(s, v.contract, sender, newStake, a);
      if a == sender {
        UnbondTimely(w, v, sender, amount);
      } else {
        TimelyStays(w, v, a);
      }
    }
  }

  lemma UnbondAccounted(w: World, v: World, sender: Addr, claim: Claim, a: Addr)
    requires claim.amount <= StakeOf(w.contract, sender)
    requires v.contract.stake == w.contract.stake[sender := StakeOf(w.contract, sender) - claim.amount]
    requires v.contract.claims == w.contract.claims[sender := ClaimsOf(w.contract, sender) + [claim]]
    requires v.paidIn == w.paidIn && v.paidOut == w.paidOut
    requires Accounted(w, a)
    ensures Accounted(v, a)
  {
    TotalAppend(ClaimsOf(w.contract, sender), claim);
  }

  lemma UnbondConserves(w: World, v: World, sender: Addr, claim: Claim)
    requires claim.amount <= StakeOf(w.contract, sender)
    requires v.contract.stake == w.contract.stake[sender := StakeOf(w.contract, sender) - claim.amount]
    requires v.contract.claims == w.contract.claims[sender := ClaimsOf(w.contract, sender) + [claim]]
    requires v.paidIn == w.paidIn && v.paidOut == w.paidOut
    requires Conserved(w)
    ensures Conserved(v)
  {
    hide Stakes, Waiting, StakeOf, TotalOf;
    TotalAppend(ClaimsOf(w.contract, sender), claim);
    StakeChanged(w.contract, v.contract, sender, StakeOf(w.contract, sender) - claim.amount);
    ClaimsChanged(w.contract, v.contract, sender, ClaimsOf(w.contract, sender) + [claim]);
  }

  lemma UnbondTimely(w: World, v: World, sender: Addr, amount: Uint128)
    requires Timely(w, sender) && v.now == w.now && v.contract.config == w.contract.config
    requires w.contract.config.unbondingPeriod.After(w.now).Ok?
    requires Get(v.paidOut, sender) == Get(w.paidOut, sender)
    requires ClaimsOf(v.contract, sender) ==
             ClaimsOf(w.contract, sender) + [Claim(amount, w.contract.config.unbondingPeriod.After(w.now).value)]
    requires History(v, sender) == History(w, sender) + [Unbonding(amount, w.now)]
    ensures Timely(v, sender)
  {
    var period := w.contract.config.unbondingPeriod;
    forall b: Block | v.now.NotAfter(b)
      ensures Get(v.paidOut, sender) + Matured(ClaimsOf(v.contract, sender), b)
              == LongAgo(period, History(v, sender), b)
    {
      period.AfterIsExact(w.now, b);
      MaturedAppend(ClaimsOf(w.contract, sender), Claim(amount, period.After(w.now).value), b);
      LongAgoAppend(period, History(w, sender), Unbonding(amount, w.now), b);
    }
  }

  lemma ClaimKeeps(w: World, api: string -> bool, sender: Addr)
    requires Inv(w) && ExecuteClaim(w.contract, w.now, sender).Ok?
    ensures Inv(Apply(w, api, Call(sender, ClaimTokens)))
  {
    hide CalcWeight, Accounted, Timely, Derived, Conserved, TotalOf, Due;
    var s, v := w.contract, Apply(w, api, Call(sender, ClaimTokens));
    var claims := ClaimsOf(s, sender);
    ClaimConserves(w, v, sender);
    forall a: Addr
      ensures Accounted(v, a) && Timely(v, a) && Derived(v.contract, a)
    {
      ClaimAccounted(w, v, sender, a);
      assert Derived(v.contract, a) by {
        assert Derived(s, a);
        DerivedSame(s, v.contract, a);
      }
      if a == sender {
        ClaimTimely(w, v, sender);
      } else {
        TimelyStays(w, v, a);
      }
    }
  }

  lemma DerivedSame(s: State, t: State, a: Addr)
    requires Derived(s, a) && t == s.(claims := t.claims, admin := t.admin, hooks := t.hooks)
    ensures Derived(t, a)
  {
    hide CalcWeight;
  }

  /** The books after a payout of all that is due to the sender. */
  ghost predicate PaidDue(w: World, v: World, sender: Addr) {
    var claims := ClaimsOf(w.contract, sender);
    && v.contract == w.contract.(claims := w.contract.claims[sender := Due(claims, w.now, false)])
    && v.paidIn == w.paidIn && v.unbonded == w.unbonded && v.now == w.now
    && v.paidOut == w.paidOut[sender := Get(w.paidOut, sender) + TotalOf(Due(claims, w.now, true))]
  }

  lemma ClaimAccounted(w: World, v: World, sender: Addr, a: Addr)
    requires PaidDue(w, v, sender) && Accounted(w, a)
    ensures Accounted(v, a)
  {
    hide TotalOf, Due;
    DueSplits(ClaimsOf(w.contract, sender), w.now, w.now);
  }

  lemma ClaimConserves(w: World, v: World, sender: Addr)
    requires PaidDue(w, v, sender) && Conserved(w)
    ensures Conserved(v)
  {
    hide TotalOf, Due, Waiting, ClaimsOf;
    var claims := ClaimsOf(w.contract, sender);
    DueSplits(claims, w.now, w.now);
    ClaimsChanged(w.contract, v.contract, sender, Due(claims, w.now, false));
    assert Stakes(v.contract) == Stakes(w.contract);
    SumUpdate(w.paidOut, sender, Get(w.paidOut, sender) + TotalOf(Due(claims, w.now, true)));
  }

  lemma ClaimTimely(w: World, v: World, sender: Addr)
    requires PaidDue(w, v, sender) && Timely(w, sender)
    ensures Timely(v, sender)
  {
    hide TotalOf, Due, Matured, LongAgo;
    forall b: Block | v.now.NotAfter(b)
      ensures Get(v.paidOut, sender) + Matured(ClaimsOf(v.contract, sender), b)
              == LongAgo(v.contract.config.unbondingPeriod, History(v, sender), b)
    {
      DueSplits(ClaimsOf(w.contract, sender), w.now, b);
    }
  }

  lemma ApplyKeeps(w: World, api: string -> bool, e: Event)
    requires Inv(w)
    ensures Inv(Apply(w, api, e))
  {
    hide ExecuteBond, ExecuteUnbond, ExecuteClaim, Alerts;
    match e
    case Tick(later) =>
      TickKeeps(w, api, later);
    case Call(sender, msg) =>
      hide Inv;
      if Handle(w.contract, api, w.now, sender, msg).Ok? {
        match msg
        case Bond(funds) => BondKeeps(w, api, sender, funds);
        case Unbond(tokens) => UnbondKeeps(w, api, sender, tokens);
        case ClaimTokens => ClaimKeeps(w, api, sender);
        case _ => AdminKeeps(w, api, sender, msg);
      }
  }

  lemma AdminShape(s: State, api: string -> bool, block: Block, sender: Addr, msg: Msg)
    requires msg.UpdateAdmin? || msg.AddHook? || msg.RemoveHook?
    ensures var r := Handle(s, api, block, sender, msg);
            r.Ok? ==> r.value.0 == s.(admin := r.value.0.admin, hooks := r.value.0.hooks)
  {
    hide Without;
  }

  /** The admin and the hooks do not matter to any account. */
  lemma AdminKeeps(w: World, api: string -> bool, sender: Addr, msg: Msg)
    requires Inv(w) && (msg.UpdateAdmin? || msg.AddHook? || msg.RemoveHook?)
    ensures Inv(Apply(w, api, Call(sender, msg)))
  {
    hide Timely, Derived, TotalOf, CalcWeight, Handle, Received;
    var v := Apply(w, api, Call(sender, msg));
    AdminShape(w.contract, api, w.now, sender, msg);
    forall a: Addr
      ensures Accounted(v, a) && Timely(v, a) && Derived(v.contract, a)
    {
      assert Accounted(w, a);
      TimelyStays(w, v, a);
      DerivedSame(w.contract, v.contract, a);
    }
  }

  lemma TickKeeps(w: World, api: string -> bool, later: Block)
    requires Inv(w)
    ensures Inv(Apply(w, api, Tick(later)))
  {
    hide Timely, Derived;
    var v := Apply(w, api, Tick(later));
    forall a: Addr
      ensures Accounted(v, a) && Timely(v, a) && Derived(v.contract, a)
    {
      assert Accounted(w, a);
      TimelyStays(w, v, a);
    }
  }

  lemma {:induction false} RunKeeps(w: World, api: string -> bool, events: seq<Event>)
    requires Inv(w)
    ensures Inv(Run(w, api, events)) && Run(w, api, events).contract.config == w.contract.config
    decreases |events|
  {
    hide Inv;
    if events != [] {
      ApplyKeeps(w, api, events[0]);
      ConfigStays(w, api, events[0]);
      RunKeeps(Apply(w, api, events[0]), api, events[1..]);
    }
  }

  lemma ConfigStays(w: World, api: string -> bool, e: Event)
    ensures Apply(w, api, e).contract.config == w.contract.config
  {
    hide Handle, Payment;
    if e.Call? {
      HandleKeepsConfig(w.contract, api, w.now, e.sender, e.msg);
    }
  }

  lemma HandleKeepsConfig(s: State, api: string -> bool, block: Block, sender: Addr, msg: Msg)
    ensures var r := Handle(s, api, block, sender, msg); r.Ok? ==> r.value.0.config == s.config
  {
    hide CalcWeight, Payment, TotalOf, Due, MaybeAddr, Without, Alerts;
  }

  predicate Genesis(w: World, api: string -> bool) {
    var c := w.contract.config;
    Instantiate(api, w.contract.admin, c.denom, c.tokensPerWeight, c.minBond, c.unbondingPeriod) == Ok(w.contract)
    && w.paidIn == map[] && w.paidOut == map[] && w.unbonded == map[]
  }

  lemma GenesisInv(w: World, api: string -> bool)
    requires Genesis(w, api)
    ensures Inv(w)
  {
    assert Stakes(w.contract) == map[] && Waiting(w.contract) == map[] && Cw4Group.Weights(w.contract.members) == map[];
  }

  // ------------------------------------------------------------------ results

  /** Stake conservation over every run: all that really came in of the token that is staked
      is staked, waiting in claims, or paid out; for every address and in total. So a payout never takes more
      than the contract holds for its receiver. */
  lemma StakeConserved(genesis: World, api: string -> bool, events: seq<Event>, a: Addr)
    requires Genesis(genesis, api)
    ensures var w := Run(genesis, api, events);
            Conserved(w) && Accounted(w, a) && Get(w.paidOut, a) <= Get(w.paidIn, a)
  {
    GenesisInv(genesis, api);
    RunKeeps(genesis, api, events);
    assert Accounted(Run(genesis, api, events), a);
  }

  /** Nothing is paid early, and nothing that is due is lost: at any point of any run, what
      an address got out plus what it could claim at once is exactly what it had unbonded
      at least one waiting period before. */
  lemma PaidExactlyAfterWaiting(genesis: World, api: string -> bool, events: seq<Event>, a: Addr)
    requires Genesis(genesis, api)
    ensures var w := Run(genesis, api, events);
            var longAgo := LongAgo(genesis.contract.config.unbondingPeriod, History(w, a), w.now);
            && Get(w.paidOut, a) <= longAgo
            && Get(w.paidOut, a) + TotalOf(Due(ClaimsOf(w.contract, a), w.now, true)) == longAgo
  {
    GenesisInv(genesis, api);
    RunKeeps(genesis, api, events);
    var w := Run(genesis, api, events);
    assert Timely(w, a);
    DueIsMatured(ClaimsOf(w.contract, a), w.now);
  }

  lemma {:induction false} DueIsMatured(claims: seq<Claim>, b: Block)
    ensures TotalOf(Due(claims, b, true)) == Matured(claims, b)
  {
    if claims != [] {
      DueIsMatured(claims[1..], b);
      var rest := Due(claims[1..], b, true);
      assert ([claims[0]] + rest)[1..] == rest && [] + rest == rest;
    }
  }

  /** Membership is exactly the weight of the stake, at any point of any run. */
  lemma WeightIsDerived(genesis: World, api: string -> bool, events: seq<Event>, a: Addr)
    requires Genesis(genesis, api)
    ensures var s := Run(genesis, api, events).contract;
            CalcWeight(StakeOf(s, a), s.config) == Ok(Cw4Group.Lookup(s.members, a))
  {
    GenesisInv(genesis, api);
    RunKeeps(genesis, api, events);
    assert Derived(Run(genesis, api, events).contract, a);
  }

  lemma WeightBacked(w: World)
    requires Inv(w) && w.contract.config.minBond >= 1
    ensures w.contract.total * w.contract.config.tokensPerWeight <= Sum(Stakes(w.contract))
  {
    hide Timely, Accounted, Conserved, CalcWeight;
    var s, t := w.contract, w.contract.config.tokensPerWeight;
    var tokens: map<Addr, nat> := map a | a in s.members :: s.members[a] * t;
    SumScale(Cw4Group.Weights(s.members), tokens, t);
    forall a | a in tokens
      ensures a in Stakes(s) && tokens[a] <= Stakes(s)[a]
    {
      assert Derived(s, a);
      WeightTimesRate(s, a);
    }
    SumMono(tokens, Stakes(s));
  }

  /** The weight bound: the total is the sum of the members' weights, and the tokens it
      stands for are never more than what is staked, even where a weight was truncated. */
  lemma TotalWeightBacked(genesis: World, api: string -> bool, events: seq<Event>)
    requires Genesis(genesis, api)
    ensures var s := Run(genesis, api, events).contract;
            s.total == Sum(Cw4Group.Weights(s.members)) && s.total * s.config.tokensPerWeight <= Sum(Stakes(s))
  {
    hide Run, Timely, Accounted, Conserved, Derived, Stakes;
    GenesisInv(genesis, api);
    RunKeeps(genesis, api, events);
    WeightBacked(Run(genesis, api, events));
  }

  /** A stake whose weight cannot be told, or does not fit beside the old total, which is only
      lowered afterwards. */
  predicate WeightTraps(s: State, sender: Addr, newStake: Uint128) {
    var after := CalcWeight(newStake, s.config);
    || after.Err?
    || (after.value != Cw4Group.Lookup(s.members, sender) && s.total + after.value.UnwrapOr(0) > U64_MAX)
  }

  /** Which calls trap, at any point of any run: a bond if the stake leaves 128 bits or its
      weight traps; an unbonding if 64 bits cannot hold the deadline of its claim, or if the
      new weight traps, and never by the rate, which did not trap when bonding; a claim if
      what is due leaves 128 bits. */
  lemma StakeTrapsExactly(genesis: World, api: string -> bool, events: seq<Event>, sender: Addr, msg: Msg)
    requires Genesis(genesis, api)
    ensures var w := Run(genesis, api, events);
            var s := w.contract;
            Handle(s, api, w.now, sender, msg) == Err(Panic) <==>
              match msg
              case Bond(funds) =>
                (funds.Native? || api(sender)) && Pays(s.config.denom, funds)
                && var newStake := StakeOf(s, sender) + Received(s.config.denom, funds);
                   newStake > U128_MAX || WeightTraps(s, sender, newStake)
              case Unbond(amount) =>
                && amount <= StakeOf(s, sender)
                && (|| s.config.unbondingPeriod.After(w.now).Err?
                    || (&& WeightTraps(s, sender, StakeOf(s, sender) - amount)
                        && CalcWeight(StakeOf(s, sender) - amount, s.config).Ok?))
              case ClaimTokens => TotalOf(Due(ClaimsOf(s, sender), w.now, true)) > U128_MAX
              case _ => false
  {
    hide Inv, Run, WeightTraps, CalcWeight, TotalOf, Due;
    GenesisInv(genesis, api);
    RunKeeps(genesis, api, events);
    var w := Run(genesis, api, events);
    match msg
    case Bond(funds) => BondTraps(w, sender, funds);
    case Unbond(amount) => UnbondTrapsOnly(w, sender, amount);
    case _ =>
  }

  lemma BondTraps(w: World, sender: Addr, funds: Balance)
    requires Inv(w)
    ensures var s := w.contract;
            ExecuteBond(s, sender, funds) == Err(Panic) <==>
              Pays(s.config.denom, funds)
              && var newStake := StakeOf(s, sender) + Received(s.config.denom, funds);
                 newStake > U128_MAX || WeightTraps(s, sender, newStake)
  {
    hide CalcWeight, UpdateMembership, Payment;
    var s := w.contract;
    PaymentExactly(s.config, funds);
    if Pays(s.config.denom, funds) && StakeOf(s, sender) + Received(s.config.denom, funds) <= U128_MAX {
      var newStake := StakeOf(s, sender) + Received(s.config.denom, funds);
      MembershipTraps(s.(stake := s.stake[sender := newStake]), sender, newStake);
    }
  }

  lemma UnbondTrapsOnly(w: World, sender: Addr, amount: Uint128)
    requires Inv(w)
    ensures var s := w.contract;
            ExecuteUnbond(s, w.now, sender, amount) == Err(Panic) <==>
              && amount <= StakeOf(s, sender)
              && (|| s.config.unbondingPeriod.After(w.now).Err?
                  || (&& WeightTraps(s, sender, StakeOf(s, sender) - amount)
                      && CalcWeight(StakeOf(s, sender) - amount, s.config).Ok?))
  {
    hide CalcWeight, UpdateMembership, Cw4Group.Weights;
    var s := w.contract;
    assert Derived(s, sender);
    if amount <= StakeOf(s, sender) && s.config.unbondingPeriod.After(w.now).Ok? {
      var newStake := StakeOf(s, sender) - amount;
      RateDefined(s.config, StakeOf(s, sender), newStake);
      var claim := Claim(amount, s.config.unbondingPeriod.After(w.now).value);
      MembershipTraps(s.(stake := s.stake[sender := newStake],
                         claims := s.claims[sender := ClaimsOf(s, sender) + [claim]]), sender, newStake);
    }
  }

  lemma RateDefined(config: Config, stake: Uint128, less: Uint128)
    requires CalcWeight(stake, config).Ok? && less <= stake
    ensures CalcWeight(less, config).Ok?
  {
  }

  lemma MembershipTraps(s: State, sender: Addr, newStake: Uint128)
    requires s.total == Sum(Cw4Group.Weights(s.members))
    ensures UpdateMembership(s, sender, newStake) == Err(Panic) <==> WeightTraps(s, sender, newStake)
  {
    hide CalcWeight;
    TotalNeverUnderflows(s, sender, newStake);
    CalcError(newStake, s.config);
  }

  lemma CalcError(stake: Uint128, config: Config)
    ensures CalcWeight(stake, config).Err? ==> CalcWeight(stake, config) == Err(Panic)
  {
  }

  // ------------------------------------------------------- what a stake weighs

  function Weight(config: Config, stake: Uint128): Uint64
    requires config.tokensPerWeight > 0
  {
    CalcWeight(stake, config).value.UnwrapOr(0)
  }

  /** How often the 64 bits of the weight have wrapped around. */
  function Wraps(config: Config, stake: Uint128): nat
    requires config.tokensPerWeight > 0
  {
    stake / config.tokensPerWeight / TWO_TO_THE_64
  }

  lemma WeightAndWraps(config: Config, stake: Uint128)
    requires config.tokensPerWeight > 0 && stake >= config.minBond
    ensures stake / config.tokensPerWeight == Wraps(config, stake) * TWO_TO_THE_64 + Weight(config, stake)
  {
  }

  /** The weight of a sufficient stake is its quotient by the rate if and only if that fits
      64 bits: otherwise the cast truncates it. */
  lemma WeightIsQuotientExactly(config: Config, stake: Uint128)
    requires config.tokensPerWeight > 0 && stake >= config.minBond
    ensures CalcWeight(stake, config).Ok? && CalcWeight(stake, config).value.Some?
    ensures Weight(config, stake) == stake / config.tokensPerWeight <==> stake / config.tokensPerWeight <= U64_MAX
  {
    hide Weight;
    WeightAndWraps(config, stake);
  }

  lemma QuotientIs(a: nat, q: nat, d: nat)
    requires d > 0 && q * d <= a < (q + 1) * d
    ensures a / d == q
  {
    var k := a / d;
    assert a < (k + 1) * d && k * d <= a by {
      QuotientBounds(a, d);
    }
    if k < q {
      TimesMono(k + 1, q, d);
    } else if q < k {
      TimesMono(q + 1, k, d);
    }
  }

  lemma QuotientBounds(a: nat, d: nat)
    requires d > 0
    ensures a / d * d <= a < (a / d + 1) * d
  {
    assert a == a / d * d + a % d;
    assert (a / d + 1) * d == a / d * d + d;
  }

  lemma QuotientMono(a: nat, b: nat, d: nat)
    requires a <= b && d > 0
    ensures a / d <= b / d
  {
    QuotientBounds(a, d);
    QuotientBounds(b, d);
    if a / d > b / d {
      TimesMono(b / d + 1, a / d, d);
    }
  }

  /** More stake never weighs less, up to some stake, if and only if the weight does not wrap
      around between the minimum bond and that stake. */
  lemma WeightsMonotoneExactly(config: Config, most: Uint128)
    requires config.tokensPerWeight > 0
    ensures (forall s: Uint128, t: Uint128 | s <= t <= most :: Weight(config, s) <= Weight(config, t))
            <==> most < config.minBond || Wraps(config, config.minBond) == Wraps(config, most)
  {
    hide Weight, Wraps;
    if most < config.minBond || Wraps(config, config.minBond) == Wraps(config, most) {
      forall s: Uint128, t: Uint128 | s <= t <= most
        ensures Weight(config, s) <= Weight(config, t)
      {
        SameWrapMonotone(config, s, t, most);
      }
    } else {
      var s, t := WrapLowers(config, most);
    }
  }

  lemma SameWrapMonotone(config: Config, s: Uint128, t: Uint128, most: Uint128)
    requires config.tokensPerWeight > 0 && s <= t <= most
    requires most < config.minBond || Wraps(config, config.minBond) == Wraps(config, most)
    ensures Weight(config, s) <= Weight(config, t)
  {
    if s >= config.minBond {
      var r := config.tokensPerWeight;
      QuotientMono(config.minBond, s, r);
      QuotientMono(s, t, r);
      QuotientMono(t, most, r);
      QuotientMono(config.minBond / r, s / r, TWO_TO_THE_64);
      QuotientMono(s / r, t / r, TWO_TO_THE_64);
      QuotientMono(t / r, most / r, TWO_TO_THE_64);
      WeightAndWraps(config, s);
      WeightAndWraps(config, t);
      hide Weight;
    }
  }

  /** The last sufficient stake below a quotient. */
  lemma JustBelow(least: nat, q: nat, r: nat) returns (s: nat)
    requires r > 0 && least / r < q
    ensures least <= s < q * r && s / r == q - 1
  {
    QuotientBounds(least, r);
    TimesMono(least / r + 1, q, r);
    assert q * r == (q - 1) * r + r;
    s := if (q - 1) * r < least then least else (q - 1) * r;
    QuotientIs(s, q - 1, r);
  }

  lemma JustAt(q: nat, r: nat, most: nat)
    requires r > 0 && q <= most / r
    ensures q * r <= most && q * r / r == q
  {
    QuotientBounds(most, r);
    TimesMono(q, most / r, r);
    assert (q + 1) * r == q * r + r;
    QuotientIs(q * r, q, r);
  }

  lemma WrapBetween(config: Config, most: Uint128)
    requires config.tokensPerWeight > 0 && most >= config.minBond
    requires Wraps(config, config.minBond) != Wraps(config, most)
    ensures var wrapped := (Wraps(config, config.minBond) + 1) * TWO_TO_THE_64;
            config.minBond / config.tokensPerWeight < wrapped <= most / config.tokensPerWeight
  {
    var r, least := config.tokensPerWeight, config.minBond;
    QuotientMono(least, most, r);
    QuotientMono(least / r, most / r, TWO_TO_THE_64);
  }

  lemma AroundWrap(k: nat)
    ensures (k + 1) * TWO_TO_THE_64 % TWO_TO_THE_64 == 0
    ensures ((k + 1) * TWO_TO_THE_64 - 1) % TWO_TO_THE_64 == U64_MAX
  {
  }

  /** A stake just below a wrap-around, and the greater one just after it. */
  lemma WrapLowers(config: Config, most: Uint128) returns (s: Uint128, t: Uint128)
    requires config.tokensPerWeight > 0 && most >= config.minBond
    requires Wraps(config, config.minBond) != Wraps(config, most)
    ensures s <= t <= most && Weight(config, s) > Weight(config, t)
  {
    hide Wraps, Weight;
    var r, k := config.tokensPerWeight, Wraps(config, config.minBond);
    var wrapped := (k + 1) * TWO_TO_THE_64;
    WrapBetween(config, most);
    JustAt(wrapped, r, most);
    t := wrapped * r;
    s := JustBelow(config.minBond, wrapped, r);
    AroundWrap(k);
    WeightAt(config, s, wrapped - 1);
    WeightAt(config, t, wrapped);
  }

  lemma WeightAt(config: Config, stake: Uint128, quotient: nat)
    requires config.tokensPerWeight > 0 && stake >= config.minBond && stake / config.tokensPerWeight == quotient
    ensures Weight(config, stake) == quotient % TWO_TO_THE_64
  {
  }

  lemma WeightTimesRate(s: State, a: Addr)
    requires Derived(s, a) && a in s.members && s.config.minBond >= 1
    ensures a in s.stake && s.members[a] * s.config.tokensPerWeight <= s.stake[a]
  {
    var stake, t := StakeOf(s, a), s.config.tokensPerWeight;
    TruncatedTimes(stake, t, s.members[a]);
  }

  lemma TruncatedTimes(stake: nat, t: nat, weight: nat)
    requires t > 0 && weight == stake / t % TWO_TO_THE_64
    ensures weight * t <= stake
  {
    var q := stake / t;
    assert weight <= q by {
      TruncationLowers(q, TWO_TO_THE_64);
    }
    assert q * t <= stake by {
      QuotientTimes(stake, t);
    }
    TimesMono(weight, q, t);
  }

  lemma TruncationLowers(q: nat, m: nat)
    requires m > 0
    ensures q % m <= q
  {
  }

  lemma QuotientTimes(a: nat, t: nat)
    requires t > 0
    ensures a / t * t <= a
  {
  }

  lemma TimesMono(a: nat, b: nat, t: nat)
    requires a <= b
    ensures a * t <= b * t
  {
  }
}
