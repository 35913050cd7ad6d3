/** Voting weight from staked tokens (contracts/cw4-stake/src/contract.rs): bonding,
    unbonding with a waiting period, and claiming. */
module Cw4Stake {
  import opened Prelude
  import Cw4Group

  datatype Claim = Claim(amount: Uint128, releaseAt: Expiration)

  datatype Config = Config(denom: Denom, tokensPerWeight: Uint128, minBond: Uint128, unbondingPeriod: Duration)

  datatype State = State(
    config: Config,
    stake: map<Addr, Uint128>,
    claims: map<Addr, seq<Claim>>,
    members: map<Addr, Uint64>,
    total: Uint64,
    admin: Option<Addr>,
    hooks: seq<Addr>)

  /** The tokens that came with a call: coins, or cw20 tokens handed over by their contract. */
  datatype Balance = Native(coins: seq<Coin>) | Cw20(address: Addr, amount: Uint128)

  datatype Msg =
    | Bond(funds: Balance)
    | Unbond(tokens: Uint128)
    | ClaimTokens
    | UpdateAdmin(admin: Option<string>)
    | AddHook(addr: string)
    | RemoveHook(addr: string)

  /** What a call sends out: tokens to its sender, and word of a changed weight to the hooks. */
  datatype Alert = Alert(hook: Addr, diff: Cw4Group.MemberDiff)
  datatype Answer = Answer(paid: Uint128, alerts: seq<Alert>)

  const UNSET: State := State(Config(NativeDenom(""), 0, 1, Height(0)), map[], map[], map[], 0, None, [])

  function MaybeAddr(api: string -> bool, human: Option<string>): Result<Option<Addr>> {
    if human.None? then Ok(None) else if api(human.value) then Ok(Some(human.value)) else Err(InvalidAddress)
  }

  function Instantiate(api: string -> bool, admin: Option<string>, denom: Denom, tokensPerWeight: Uint128,
                       minBond: Uint128, period: Duration): Result<State>
  {
    var owner :- MaybeAddr(api, admin);
    // at least 1, so that no stake means no membership
    var config := Config(denom, tokensPerWeight, if minBond < 1 then 1 else minBond, period);
    Ok(UNSET.(config := config, admin := owner))
  }

  function MustPayFunds(coins: seq<Coin>, denom: string): Result<Uint128> {
    if |coins| == 0 then Err(NoFunds)
    else if |coins| > 1 || coins[0].denom != denom then Err(InvalidDenom)
    else Ok(coins[0].amount)
  }

  function Payment(config: Config, funds: Balance): Result<Uint128> {
    match (config.denom, funds)
    case (NativeDenom(want), Native(have)) => MustPayFunds(have, want)
    case (Cw20Denom(want), Cw20(address, amount)) => if want == address then Ok(amount) else Err(InvalidDenom)
    case (_, _) => Err(InvalidDenom)
  }

  function StakeOf(s: State, a: Addr): Uint128 {
    if a in s.stake then s.stake[a] else 0
  }

  function ClaimsOf(s: State, a: Addr): seq<Claim> {
    if a in s.claims then s.claims[a] else []
  }

  const TWO_TO_THE_64: int := 0x1_0000_0000_0000_0000

  /** The weight of a stake. Dividing by zero traps; the cast to 64 bits truncates. */
  function CalcWeight(stake: Uint128, config: Config): Result<Option<Uint64>> {
    if stake < config.minBond then Ok(None)
    else if config.tokensPerWeight == 0 then Err(Panic)
    else Ok(Some(stake / config.tokensPerWeight % TWO_TO_THE_64))
  }

  function UpdateMembership(s: State, sender: Addr, newStake: Uint128): Result<State> {
    var after :- CalcWeight(newStake, s.config);
    var before := Cw4Group.Lookup(s.members, sender);
    if after == before then Ok(s)
    else
      var raised :- CheckedAdd64(s.total, after.UnwrapOr(0), Panic);
      var total :- CheckedSub(raised, before.UnwrapOr(0), Panic);
      var members := if after.Some? then s.members[sender := after.value] else s.members - {sender};
      Ok(s.(members := members, total := total))
  }

  function ExecuteBond(s: State, sender: Addr, funds: Balance): Result<State> {
    var amount :- Payment(s.config, funds);
    var newStake :- CheckedAdd128(StakeOf(s, sender), amount, Panic);
    UpdateMembership(s.(stake := s.stake[sender := newStake]), sender, newStake)
  }

  function ExecuteUnbond(s: State, block: Block, sender: Addr, amount: Uint128): Result<State> {
    var newStake :- CheckedSub(StakeOf(s, sender), amount, Overflow);
    var releaseAt :- s.config.unbondingPeriod.After(block);
    var claim := Claim(amount, releaseAt);
    UpdateMembership(s.(stake := s.stake[sender := newStake],
                        claims := s.claims[sender := ClaimsOf(s, sender) + [claim]]), sender, newStake)
  }

  /** The claims that are due at `block`, and those that are not (`Claims::claim_tokens`
      of cw-controllers, with no cap on the payout). */
  function Due(claims: seq<Claim>, block: Block, due: bool): seq<Claim> {
    if claims == [] then []
    else (if claims[0].releaseAt.IsExpired(block) == due then [claims[0]] else []) + Due(claims[1..], block, due)
  }

  function TotalOf(claims: seq<Claim>): nat {
    if claims == [] then 0 else claims[0].amount + TotalOf(claims[1..])
  }

  function ExecuteClaim(s: State, block: Block, sender: Addr): Result<(State, Uint128)> {
    var claims := ClaimsOf(s, sender);
    var release := TotalOf(Due(claims, block, true));
    if release > U128_MAX then Err(Panic)
    else if release == 0 then Err(NothingToClaim)
    else Ok((s.(claims := s.claims[sender := Due(claims, block, false)]), release))
  }

  function PrepareHooks(hooks: seq<Addr>, diff: Cw4Group.MemberDiff): seq<Alert> {
    if hooks == [] then [] else [Alert(hooks[0], diff)] + PrepareHooks(hooks[1..], diff)
  }

  /** Every hook hears of the weight of `sender`, if it changed. */
  function Alerts(s: State, t: State, sender: Addr): seq<Alert> {
    var before, after := Cw4Group.Lookup(s.members, sender), Cw4Group.Lookup(t.members, sender);
    if before == after then [] else PrepareHooks(s.hooks, Cw4Group.MemberDiff(sender, before, after))
  }

  /** The address is validated before the caller is. */
  function ExecuteUpdateAdmin(s: State, api: string -> bool, sender: Addr, admin: Option<string>): Result<State> {
    var owner :- MaybeAddr(api, admin);
    :- Need(s.admin == Some(sender), Unauthorized);
    Ok(s.(admin := owner))
  }

  function ExecuteAddHook(s: State, api: string -> bool, sender: Addr, addr: string): Result<State> {
    var hook :- AddrValidate(api, addr);
    :- Need(s.admin == Some(sender), Unauthorized);
    :- Need(hook !in s.hooks, HookAlreadyRegistered);
    Ok(s.(hooks := s.hooks + [hook]))
  }

  function Without(hooks: seq<Addr>, hook: Addr): seq<Addr> {
    if hooks == [] then []
    else if hooks[0] == hook then hooks[1..]
    else [hooks[0]] + Without(hooks[1..], hook)
  }

  function ExecuteRemoveHook(s: State, api: string -> bool, sender: Addr, addr: string): Result<State> {
    var hook :- AddrValidate(api, addr);
    :- Need(s.admin == Some(sender), Unauthorized);
    :- Need(hook in s.hooks, HookNotRegistered);
    Ok(s.(hooks := Without(s.hooks, hook)))
  }

  /** A call and what it sends out. Tokens that a cw20 contract hands over are bonded for
      whomever it names, so that name is checked. */
  function Handle(s: State, api: string -> bool, block: Block, sender: Addr, msg: Msg): Result<(State, Answer)> {
    match msg
    case Bond(funds) =>
      :- Need(funds.Native? || api(sender), InvalidAddress);
      var t :- ExecuteBond(s, sender, funds);
      Ok((t, Answer(0, Alerts(s, t, sender))))
    case Unbond(tokens) =>
      var t :- ExecuteUnbond(s, block, sender, tokens);
      Ok((t, Answer(0, Alerts(s, t, sender))))
    case ClaimTokens =>
      var (t, paid) :- ExecuteClaim(s, block, sender);
      Ok((t, Answer(paid, [])))
    case UpdateAdmin(admin) =>
      var t :- ExecuteUpdateAdmin(s, api, sender, admin);
      Ok((t, Answer(0, [])))
    case AddHook(addr) =>
      var t :- ExecuteAddHook(s, api, sender, addr);
      Ok((t, Answer(0, [])))
    case RemoveHook(addr) =>
      var t :- ExecuteRemoveHook(s, api, sender, addr);
      Ok((t, Answer(0, [])))
  }

  // ------------------------------------------------------------- the contract

  class Stake {
    const api: string -> bool
    var config: Config
    var stake: map<Addr, Uint128>
    var claims: map<Addr, seq<Claim>>
    var members: map<Addr, Uint64>
    var total: Uint64
    var admin: Option<Addr>
    var hooks: seq<Addr>

    function Storage(): State
      reads this
    {
      State(config, stake, claims, members, total, admin, hooks)
    }

    constructor (api: string -> bool)
      ensures this.api == api && Storage() == UNSET
    {
      this.api := api;
      config := UNSET.config;
      stake, claims, members, total, admin, hooks := map[], map[], map[], 0, None, [];
    }

    method Setup(adminName: Option<string>, denom: Denom, tokensPerWeight: Uint128, minBond: Uint128, period: Duration)
      returns (r: Result<()>)
      requires Storage() == UNSET
      modifies this
      ensures match Instantiate(api, adminName, denom, tokensPerWeight, minBond, period)
              case Ok(s) => r.Ok? && Storage() == s
              case Err(e) => r == Err(e)
    {
      if adminName.Some? && !api(adminName.value) {
        return Err(InvalidAddress);
      }
      admin := adminName;
      config := Config(denom, tokensPerWeight, if minBond < 1 then 1 else minBond, period);
      total := 0;
      return Ok(());
    }

    method DoUpdateMembership(sender: Addr, newStake: Uint128) returns (r: Result<seq<Alert>>)
      modifies this`members, this`total
      ensures match UpdateMembership(old(Storage()), sender, newStake)
              case Ok(s) => r == Ok(Alerts(old(Storage()), s, sender)) && Storage() == s
              case Err(e) => r == Err(e)
    {
      var weight := CalcWeight(newStake, config);
      if weight.Err? {
        return Err(weight.error);
      }
      var after := weight.value;
      var before := Cw4Group.Lookup(members, sender);
      if after == before {
        return Ok([]);
      }
      if after.Some? {
        members := members[sender := after.value];
      } else {
        members := members - {sender};
      }
      if total + after.UnwrapOr(0) > U64_MAX || total + after.UnwrapOr(0) < before.UnwrapOr(0) {
        return Err(Panic);
      }
      total := total + after.UnwrapOr(0) - before.UnwrapOr(0);
      var alerts := AlertHooks(Cw4Group.MemberDiff(sender, before, after));
      return Ok(alerts);
    }

    /** The loop over the hooks (`Hooks::prepare_hooks` of cw-controllers). */
    method AlertHooks(diff: Cw4Group.MemberDiff) returns (alerts: seq<Alert>)
      ensures alerts == PrepareHooks(hooks, diff)
    {
      alerts := [];
      assert hooks[0..] == hooks;
      for i := 0 to |hooks|
        invariant alerts + PrepareHooks(hooks[i..], diff) == PrepareHooks(hooks, diff)
      {
        assert hooks[i..][0] == hooks[i] && hooks[i..][1..] == hooks[i + 1..];
        alerts := alerts + [Alert(hooks[i], diff)];
      }
    }

    method DoBond(sender: Addr, funds: Balance) returns (r: Result<seq<Alert>>)
      modifies this`stake, this`members, this`total
      ensures match ExecuteBond(old(Storage()), sender, funds)
              case Ok(s) => r == Ok(Alerts(old(Storage()), s, sender)) && Storage() == s
              case Err(e) => r == Err(e)
    {
      var amount := Payment(config, funds);
      if amount.Err? {
        return Err(amount.error);
      }
      var current := if sender in stake then stake[sender] else 0;
      if current + amount.value > U128_MAX {
        return Err(Panic);
      }
      stake := stake[sender := current + amount.value];
      r := DoUpdateMembership(sender, stake[sender]);
    }

    method DoUnbond(block: Block, sender: Addr, amount: Uint128) returns (r: Result<seq<Alert>>)
      modifies this`stake, this`claims, this`members, this`total
      ensures match ExecuteUnbond(old(Storage()), block, sender, amount)
              case Ok(s) => r == Ok(Alerts(old(Storage()), s, sender)) && Storage() == s
              case Err(e) => r == Err(e)
    {
      var current := if sender in stake then stake[sender] else 0;
      if current < amount {
        return Err(Overflow);
      }
      stake := stake[sender := current - amount];
      var releaseAt := config.unbondingPeriod.After(block);
      if releaseAt.Err? {
        return Err(releaseAt.error);
      }
      var open := if sender in claims then claims[sender] else [];
      claims := claims[sender := open + [Claim(amount, releaseAt.value)]];
      r := DoUpdateMembership(sender, stake[sender]);
    }

    method DoClaim(block: Block, sender: Addr) returns (r: Result<Uint128>)
      modifies this`claims
      ensures match ExecuteClaim(old(Storage()), block, sender)
              case Ok((s, paid)) => r == Ok(paid) && Storage() == s
              case Err(e) => r == Err(e)
    {
      var open := if sender in claims then claims[sender] else [];
      var release := TotalOf(Due(open, block, true));
      claims := claims[sender := Due(open, block, false)];
      if release > U128_MAX {
        return Err(Panic);
      }
      if release == 0 {
        return Err(NothingToClaim);
      }
      return Ok(release);
    }

    method DoUpdateAdmin(sender: Addr, newAdmin: Option<string>) returns (r: Result<()>)
      modifies this`admin
      ensures match ExecuteUpdateAdmin(old(Storage()), api, sender, newAdmin)
              case Ok(s) => r.Ok? && Storage() == s
              case Err(e) => r == Err(e)
    {
      if newAdmin.Some? && !api(newAdmin.value) {
        return Err(InvalidAddress);
      }
      if admin != Some(sender) {
        return Err(Unauthorized);
      }
      admin := newAdmin;
      return Ok(());
    }

    method DoAddHook(sender: Addr, addr: string) returns (r: Result<()>)
      modifies this`hooks
      ensures match ExecuteAddHook(old(Storage()), api, sender, addr)
              case Ok(s) => r.Ok? && Storage() == s
              case Err(e) => r == Err(e)
    {
      if !api(addr) {
        return Err(InvalidAddress);
      }
      if admin != Some(sender) {
        return Err(Unauthorized);
      }
      if addr in hooks {
        return Err(HookAlreadyRegistered);
      }
      hooks := hooks + [addr];
      return Ok(());
    }

    method DoRemoveHook(sender: Addr, addr: string) returns (r: Result<()>)
      modifies this`hooks
      ensures match ExecuteRemoveHook(old(Storage()), api, sender, addr)
              case Ok(s) => r.Ok? && Storage() == s
              case Err(e) => r == Err(e)
    {
      if !api(addr) {
        return Err(InvalidAddress);
      }
      if admin != Some(sender) {
        return Err(Unauthorized);
      }
      if addr !in hooks {
        return Err(HookNotRegistered);
      }
      hooks := Without(hooks, addr);
      return Ok(());
    }

    /** A call to the contract; the chain takes back all writes of a call that fails. */
    method Call(block: Block, sender: Addr, msg: Msg) returns (r: Result<Answer>)
      modifies this
      ensures match Handle(old(Storage()), api, block, sender, msg)
              case Ok((s, answer)) => r == Ok(answer) && Storage() == s
              case Err(e) => r == Err(e) && Storage() == old(Storage())
    {
      var before := Storage();
      match msg {
        case Bond(funds) =>
          if funds.Cw20? && !api(sender) {
            return Err(InvalidAddress);
          }
          var alerts := DoBond(sender, funds);
          r := if alerts.Ok? then Ok(Answer(0, alerts.value)) else Err(alerts.error);
        case Unbond(tokens) =>
          var alerts := DoUnbond(block, sender, tokens);
          r := if alerts.Ok? then Ok(Answer(0, alerts.value)) else Err(alerts.error);
        case ClaimTokens =>
          var paid := DoClaim(block, sender);
          r := if paid.Ok? then Ok(Answer(paid.value, [])) else Err(paid.error);
        case UpdateAdmin(newAdmin) =>
          var done := DoUpdateAdmin(sender, newAdmin);
          r := if done.Ok? then Ok(Answer(0, [])) else Err(done.error);
        case AddHook(addr) =>
          var done := DoAddHook(sender, addr);
          r := if done.Ok? then Ok(Answer(0, [])) else Err(done.error);
        case RemoveHook(addr) =>
          var done := DoRemoveHook(sender, addr);
          r := if done.Ok? then Ok(Answer(0, [])) else Err(done.error);
      }
      if r.Err? {
        config, stake, claims, members := before.config, before.stake, before.claims, before.members;
        total, admin, hooks := before.total, before.admin, before.hooks;
      }
    }
  }
}
