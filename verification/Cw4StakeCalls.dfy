/** What every call of the staking contract does, in every run: which funds it takes, when it
    goes through, what it changes and what it sends out. */
module Cw4StakeCalls {
  import opened Prelude
  import opened Sums
  import opened Cw4Stake
  import opened Cw4StakeTheorems
  import opened Cw4StakeHooks
  import Cw4Group

  /** The weight of a stake: none below the minimum bond; else its quotient by the rate, of
      which 64 bits are kept. */
  ghost predicate Weighs(config: Config, stake: Uint128, weight: Option<Uint64>) {
    match weight
    case None => stake < config.minBond
    case Some(w) =>
      && stake >= config.minBond && config.tokensPerWeight > 0
      && exists wraps: nat :: stake / config.tokensPerWeight == wraps * 0x1_0000_0000_0000_0000 + w
  }

  /** The new weight can be told, and added to the total, which is only lowered afterwards. */
  ghost predicate Weighable(s: State, sender: Addr, newStake: Uint128) {
    exists weight: Option<Uint64> | Weighs(s.config, newStake, weight) ::
      weight == Cw4Group.Lookup(s.members, sender) || s.total + weight.UnwrapOr(0) <= U64_MAX
  }

  /** All claims of an address that are due. */
  function DueNow(s: State, a: Addr, now: Block): nat {
    Matured(if a in s.claims then s.claims[a] else [], now)
  }

  function Staked(s: State, a: Addr): nat {
    if a in s.stake then s.stake[a] else 0
  }

  /** When each call goes through. */
  ghost predicate Accepts(s: State, api: string -> bool, now: Block, sender: Addr, msg: Msg) {
    match msg
    case Bond(funds) =>
      && Pays(s.config.denom, funds) && (funds.Cw20? ==> api(sender))
      && Staked(s, sender) + Received(s.config.denom, funds) <= U128_MAX
      && Weighable(s, sender, Staked(s, sender) + Received(s.config.denom, funds))
    case Unbond(amount) =>
      && amount <= Staked(s, sender) && s.config.unbondingPeriod.Fits(now)
      && Weighable(s, sender, Staked(s, sender) - amount)
    case ClaimTokens => 0 < DueNow(s, sender, now) <= U128_MAX
    case UpdateAdmin(admin) => s.admin == Some(sender) && (admin.Some? ==> api(admin.value))
    case AddHook(addr) => s.admin == Some(sender) && api(addr) && addr !in s.hooks
    case RemoveHook(addr) => s.admin == Some(sender) && api(addr) && addr in s.hooks
  }

  /** The member entry and the total follow a stake; nothing else is written beside it. */
  ghost predicate Reweighed(s: State, t: State, sender: Addr) {
    && Weighs(s.config, Staked(t, sender), Cw4Group.Lookup(t.members, sender))
    && t.members - {sender} == s.members - {sender}
    && t.total + Cw4Group.Lookup(s.members, sender).UnwrapOr(0)
       == s.total + Cw4Group.Lookup(t.members, sender).UnwrapOr(0)
  }

  /** Every hook, in order, is told of a weight that changed, and nobody else of anything. */
  predicate Told(s: State, t: State, sender: Addr, alerts: seq<Alert>) {
    var before, after := Cw4Group.Lookup(s.members, sender), Cw4Group.Lookup(t.members, sender);
    if before == after then alerts == []
    else
      && |alerts| == |s.hooks|
      && forall i | 0 <= i < |alerts| :: alerts[i] == Alert(s.hooks[i], Cw4Group.MemberDiff(sender, before, after))
  }

  lemma {:induction false} PreparedExactly(hooks: seq<Addr>, diff: Cw4Group.MemberDiff)
    ensures var alerts := PrepareHooks(hooks, diff);
            |alerts| == |hooks| && forall i | 0 <= i < |alerts| :: alerts[i] == Alert(hooks[i], diff)
  {
    if hooks != [] {
      PreparedExactly(hooks[1..], diff);
    }
  }

  lemma AlertsExactly(s: State, t: State, sender: Addr)
    ensures Told(s, t, sender, Alerts(s, t, sender))
  {
    var before, after := Cw4Group.Lookup(s.members, sender), Cw4Group.Lookup(t.members, sender);
    PreparedExactly(s.hooks, Cw4Group.MemberDiff(sender, before, after));
  }

  /** One more claim of an address, due when the waiting period has passed. */
  ghost predicate Filed(s: State, t: State, now: Block, a: Addr, amount: Uint128) {
    && t.claims - {a} == s.claims - {a} && a in t.claims && |t.claims[a]| > 0
    && var last := |t.claims[a]| - 1;
       && t.claims[a][..last] == (if a in s.claims then s.claims[a] else [])
       && t.claims[a][last].amount == amount
       && forall b: Block | now.NotAfter(b) ::
            t.claims[a][last].releaseAt.IsExpired(b) <==> s.config.unbondingPeriod.PassedBetween(now, b)
  }

  /** What each call does and sends out. */
  ghost predicate Done(s: State, now: Block, sender: Addr, msg: Msg, t: State, answer: Answer) {
    match msg
    case Bond(funds) =>
      && t == s.(stake := s.stake[sender := Staked(t, sender)], members := t.members, total := t.total)
      && Staked(t, sender) == Staked(s, sender) + Received(s.config.denom, funds)
      && Reweighed(s, t, sender) && Told(s, t, sender, answer.alerts) && answer.paid == 0
    case Unbond(amount) =>
      && t == s.(stake := s.stake[sender := Staked(t, sender)], claims := t.claims, members := t.members,
                 total := t.total)
      && Staked(t, sender) + amount == Staked(s, sender)
      && Reweighed(s, t, sender) && Told(s, t, sender, answer.alerts) && answer.paid == 0
      && Filed(s, t, now, sender, amount)
    case ClaimTokens =>
      && t == s.(claims := t.claims) && t.claims - {sender} == s.claims - {sender}
      && answer.paid == DueNow(s, sender, now) && answer.alerts == []
      && (forall b: Block | now.NotAfter(b) :: DueNow(t, sender, b) + DueNow(s, sender, now) == DueNow(s, sender, b))
    case UpdateAdmin(admin) => t == s.(admin := admin) && answer == Answer(0, [])
    case AddHook(addr) => t == s.(hooks := s.hooks + [addr]) && answer == Answer(0, [])
    case RemoveHook(addr) =>
      && t == s.(hooks := t.hooks) && answer == Answer(0, [])
      && exists i: nat | i < |s.hooks| :: s.hooks[i] == addr && t.hooks == s.hooks[..i] + s.hooks[i + 1..]
  }

  lemma WeighsExactly(config: Config, stake: Uint128)
    ensures var r := CalcWeight(stake, config);
            && (r.Ok? <==> exists weight: Option<Uint64> :: Weighs(config, stake, weight))
            && (forall weight: Option<Uint64> :: Weighs(config, stake, weight) <==> r == Ok(weight))
  {
    var r := CalcWeight(stake, config);
    if stake >= config.minBond && config.tokensPerWeight > 0 {
      var q := stake / config.tokensPerWeight;
      assert q == q / TWO_TO_THE_64 * TWO_TO_THE_64 + r.value.value;
      assert Weighs(config, stake, r.value);
      forall w: Uint64 | Weighs(config, stake, Some(w))
        ensures r == Ok(Some(w))
      {
        var wraps: nat :| q == wraps * 0x1_0000_0000_0000_0000 + w;
        Remainder(wraps, w);
      }
    } else if stake < config.minBond {
      assert Weighs(config, stake, None);
    }
  }

  lemma Remainder(wraps: nat, w: Uint64)
    ensures (wraps * 0x1_0000_0000_0000_0000 + w) % 0x1_0000_0000_0000_0000 == w
  {
  }

  lemma WeighableExactly(s: State, sender: Addr, newStake: Uint128)
    ensures Weighable(s, sender, newStake) <==> !WeightTraps(s, sender, newStake)
  {
    hide CalcWeight, Weighs;
    WeighsExactly(s.config, newStake);
    if !WeightTraps(s, sender, newStake) {
      assert Weighs(s.config, newStake, CalcWeight(newStake, s.config).value);
    }
  }

  /** What an update of a membership does to a state whose stake is already written. */
  lemma ReweighedExactly(s: State, u: State, sender: Addr, newStake: Uint128)
    requires s.total == Sum(Cw4Group.Weights(s.members))
    requires u.members == s.members && u.total == s.total && u.config == s.config
    requires sender in u.stake && u.stake[sender] == newStake
    ensures var r := UpdateMembership(u, sender, newStake);
            && (r.Ok? <==> Weighable(s, sender, newStake))
            && (r.Err? ==> r == Err(Panic))
            && (r.Ok? ==> r.value == u.(members := r.value.members, total := r.value.total)
                          && Reweighed(s, r.value, sender))
  {
    hide CalcWeight, Weighs, Cw4Group.Weights;
    TotalNeverUnderflows(u, sender, newStake);
    WeighableExactly(s, sender, newStake);
    WeighsExactly(s.config, newStake);
    CalcError(newStake, s.config);
  }

  lemma BondExactly(s: State, api: string -> bool, now: Block, sender: Addr, funds: Balance)
    requires s.total == Sum(Cw4Group.Weights(s.members))
    ensures var r := Handle(s, api, now, sender, Bond(funds));
            && (r.Ok? <==> Accepts(s, api, now, sender, Bond(funds)))
            && (r.Ok? ==> Done(s, now, sender, Bond(funds), r.value.0, r.value.1))
  {
    hide Payment, UpdateMembership, Weighable, Reweighed, Alerts, Told, Received, Pays, Cw4Group.Weights;
    PaymentExactly(s.config, funds);
    if Pays(s.config.denom, funds) && Staked(s, sender) + Received(s.config.denom, funds) <= U128_MAX {
      var newStake := Staked(s, sender) + Received(s.config.denom, funds);
      var u := s.(stake := s.stake[sender := newStake]);
      ReweighedExactly(s, u, sender, newStake);
      if UpdateMembership(u, sender, newStake).Ok? {
        AlertsExactly(s, UpdateMembership(u, sender, newStake).value, sender);
      }
    }
  }

  lemma UnbondExactly(s: State, api: string -> bool, now: Block, sender: Addr, amount: Uint128)
    requires s.total == Sum(Cw4Group.Weights(s.members))
    ensures var r := Handle(s, api, now, sender, Unbond(amount));
            && (r.Ok? <==> Accepts(s, api, now, sender, Unbond(amount)))
            && (r.Ok? ==> Done(s, now, sender, Unbond(amount), r.value.0, r.value.1))
  {
    hide UpdateMembership, Weighable, Reweighed, Alerts, Told, Cw4Group.Weights, Duration.Fits, Filed, Duration.After;
    var period := s.config.unbondingPeriod;
    WaitExactly(period, now);
    if amount <= Staked(s, sender) && period.Fits(now) {
      var newStake := Staked(s, sender) - amount;
      var claim := Claim(amount, period.After(now).value);
      var u := s.(stake := s.stake[sender := newStake], claims := s.claims[sender := ClaimsOf(s, sender) + [claim]]);
      ReweighedExactly(s, u, sender, newStake);
      if UpdateMembership(u, sender, newStake).Ok? {
        ClaimFiled(s, UpdateMembership(u, sender, newStake).value, now, sender, claim);
        AlertsExactly(s, UpdateMembership(u, sender, newStake).value, sender);
      }
    }
  }

  lemma ClaimFiled(s: State, t: State, now: Block, a: Addr, claim: Claim)
    requires t.claims == s.claims[a := ClaimsOf(s, a) + [claim]]
    requires s.config.unbondingPeriod.After(now) == Ok(claim.releaseAt)
    ensures Filed(s, t, now, a, claim.amount)
  {
    WaitExactly(s.config.unbondingPeriod, now);
    hide Duration.After, Expiration.IsExpired, Duration.PassedBetween;
  }

  lemma WaitExactly(period: Duration, now: Block)
    ensures period.After(now).Ok? <==> period.Fits(now)
    ensures period.After(now).Ok? ==>
              forall b: Block | now.NotAfter(b) ::
                period.After(now).value.IsExpired(b) <==> period.PassedBetween(now, b)
  {
  }

  lemma ClaimExactly(s: State, api: string -> bool, now: Block, sender: Addr)
    ensures var r := Handle(s, api, now, sender, ClaimTokens);
            && (r.Ok? <==> Accepts(s, api, now, sender, ClaimTokens))
            && (r.Ok? ==> Done(s, now, sender, ClaimTokens, r.value.0, r.value.1))
  {
    hide TotalOf, Due, Matured;
    var claims := ClaimsOf(s, sender);
    DueIsMatured(claims, now);
    if Handle(s, api, now, sender, ClaimTokens).Ok? {
      var t := Handle(s, api, now, sender, ClaimTokens).value.0;
      forall b: Block | now.NotAfter(b)
        ensures DueNow(t, sender, b) + DueNow(s, sender, now) == DueNow(s, sender, b)
      {
        DueSplits(claims, now, b);
      }
    }
  }

  lemma AdminExactly(s: State, api: string -> bool, now: Block, sender: Addr, msg: Msg)
    requires msg.UpdateAdmin? || msg.AddHook? || msg.RemoveHook?
    ensures var r := Handle(s, api, now, sender, msg);
            && (r.Ok? <==> Accepts(s, api, now, sender, msg))
            && (r.Ok? ==> Done(s, now, sender, msg, r.value.0, r.value.1))
  {
    if msg.RemoveHook? && msg.addr in s.hooks {
      var i := WithoutIsSplice(s.hooks, msg.addr);
      assert s.hooks[i] == msg.addr && Without(s.hooks, msg.addr) == s.hooks[..i] + s.hooks[i + 1..];
    }
  }

  /** Every call of every run, exactly: when it goes through, what it leaves, what it pays. */
  lemma CallExactly(genesis: World, api: string -> bool, events: seq<Event>, sender: Addr, msg: Msg)
    requires Genesis(genesis, api)
    ensures var w := Run(genesis, api, events);
            var r := Handle(w.contract, api, w.now, sender, msg);
            && (r.Ok? <==> Accepts(w.contract, api, w.now, sender, msg))
            && (r.Ok? ==> Done(w.contract, w.now, sender, msg, r.value.0, r.value.1))
  {
    GenesisInv(genesis, api);
    RunKeeps(genesis, api, events);
    var w := Run(genesis, api, events);
    assert w.contract.total == Sum(Cw4Group.Weights(w.contract.members));
    hide Run, Genesis, Inv, Handle, Accepts, Done, Cw4Group.Weights;
    match msg
    case Bond(funds) => BondExactly(w.contract, api, w.now, sender, funds);
    case Unbond(amount) => UnbondExactly(w.contract, api, w.now, sender, amount);
    case ClaimTokens => ClaimExactly(w.contract, api, w.now, sender);
    case _ => AdminExactly(w.contract, api, w.now, sender, msg);
  }

  /** A new contract, exactly. */
  lemma InstantiateExactly(api: string -> bool, admin: Option<string>, denom: Denom, tokensPerWeight: Uint128,
                           minBond: Uint128, period: Duration)
    ensures var r := Instantiate(api, admin, denom, tokensPerWeight, minBond, period);
            && (r.Ok? <==> admin.Some? ==> api(admin.value))
            && (r.Ok? ==>
                  var s := r.value;
                  && s.admin == admin && s.hooks == []
                  && s.stake == map[] && s.claims == map[] && s.members == map[] && s.total == 0
                  && s.config.denom == denom && s.config.tokensPerWeight == tokensPerWeight
                  && s.config.unbondingPeriod == period
                  && s.config.minBond >= minBond && s.config.minBond >= 1
                  && (s.config.minBond == minBond || s.config.minBond == 1))
  {
  }
}
