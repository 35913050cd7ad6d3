/** The proxy with subkeys (contracts/cw1-subkeys/src/contract.rs): admins relay what they
    like, other accounts what their permissions and allowances cover. */
module Cw1Subkeys {
  import opened Prelude
  import opened Cw1Coins

  datatype AdminList = AdminList(admins: seq<Addr>, mutable: bool)

  datatype Permissions = Permissions(delegate: bool, redelegate: bool, undelegate: bool, withdraw: bool)

  datatype Allowance = Allowance(balance: seq<Coin>, expires: Expiration)

  datatype State = State(
    config: AdminList,
    permissions: map<Addr, Permissions>,
    allowances: map<Addr, Allowance>)

  datatype StakingMsg =
    | Delegate(validator: string, amount: Coin)
    | Undelegate(validator: string, amount: Coin)
    | Redelegate(validator: string, amount: Coin, target: string)
    | OtherStaking(payload: string)

  datatype DistributionMsg =
    | SetWithdrawAddress(address: string)
    | WithdrawDelegatorReward(validator: string)
    | OtherDistribution(payload: string)

  /** The messages that the proxy is asked to relay. */
  datatype CosmosMsg =
    | BankSend(to: string, coins: seq<Coin>)
    | Staking(staking: StakingMsg)
    | Distribution(distribution: DistributionMsg)
    | Other(payload: string)

  datatype Msg =
    | Execute(msgs: seq<CosmosMsg>)
    | Freeze
    | UpdateAdmins(admins: seq<string>)
    | IncreaseAllowance(spender: string, amount: Coin, expires: Option<Expiration>)
    | DecreaseAllowance(spender: string, amount: Coin, expires: Option<Expiration>)
    | SetPermissions(spender: string, permissions: Permissions)

  function Instantiate(api: string -> bool, admins: seq<string>, mutable: bool): Result<State> {
    if forall i | 0 <= i < |admins| :: api(admins[i]) then Ok(State(AdminList(admins, mutable), map[], map[]))
    else Err(InvalidAddress)
  }

  predicate IsAdmin(s: State, a: string) {
    exists i | 0 <= i < |s.config.admins| :: s.config.admins[i] == a
  }

  predicate CanModify(s: State, a: string) {
    s.config.mutable && IsAdmin(s, a)
  }

  // ---------------------------------------------------------------- relaying

  function CheckStaking(m: StakingMsg, p: Permissions): Check {
    match m
    case Delegate(_, _) => Need(p.delegate, DelegatePerm)
    case Undelegate(_, _) => Need(p.undelegate, UnDelegatePerm)
    case Redelegate(_, _, _) => Need(p.redelegate, ReDelegatePerm)
    case OtherStaking(_) => Fail(UnsupportedMessage)
  }

  function CheckDistribution(m: DistributionMsg, p: Permissions): Check {
    match m
    case SetWithdrawAddress(_) => Need(p.withdraw, WithdrawAddrPerm)
    case WithdrawDelegatorReward(_) => Need(p.withdraw, WithdrawPerm)
    case OtherDistribution(_) => Fail(UnsupportedMessage)
  }

  function Spend(s: State, block: Block, sender: Addr, coins: seq<Coin>): Result<State> {
    if sender !in s.allowances || s.allowances[sender].expires.IsExpired(block) then Err(NoAllowance)
    else
      var left :- SubAll(s.allowances[sender].balance, coins);
      Ok(s.(allowances := s.allowances[sender := s.allowances[sender].(balance := left)]))
  }

  /** One turn of the loop over the messages of an account that is no admin. */
  function CheckOne(s: State, block: Block, sender: Addr, m: CosmosMsg): Result<State> {
    match m
    case Staking(staking) =>
      :- Need(sender in s.permissions, NotAllowed);
      :- CheckStaking(staking, s.permissions[sender]);
      Ok(s)
    case Distribution(distribution) =>
      :- Need(sender in s.permissions, NotAllowed);
      :- CheckDistribution(distribution, s.permissions[sender]);
      Ok(s)
    case BankSend(_, coins) => Spend(s, block, sender, coins)
    case Other(_) => Err(MessageTypeRejected)
  }

  function CheckAll(s: State, block: Block, sender: Addr, msgs: seq<CosmosMsg>): Result<State>
    decreases |msgs|
  {
    if msgs == [] then Ok(s)
    else
      var t :- CheckOne(s, block, sender, msgs[0]);
      CheckAll(t, block, sender, msgs[1..])
  }

  function ExecuteExecute(s: State, block: Block, sender: Addr, msgs: seq<CosmosMsg>): Result<State> {
    if IsAdmin(s, sender) then Ok(s) else CheckAll(s, block, sender, msgs)
  }

  /** The query that predicts an execution. */
  function CanExecute(s: State, api: string -> bool, block: Block, sender: string, m: CosmosMsg): Result<bool> {
    if IsAdmin(s, sender) then Ok(true)
    else
      var addr :- AddrValidate(api, sender);
      match m
      case BankSend(_, coins) =>
        if addr !in s.allowances then Ok(false)
        else Ok(!s.allowances[addr].expires.IsExpired(block) && SubAll(s.allowances[addr].balance, coins).Ok?)
      case Staking(staking) =>
        if addr !in s.permissions then Ok(false) else Ok(CheckStaking(staking, s.permissions[addr]).Pass?)
      case Distribution(distribution) =>
        if addr !in s.permissions then Ok(false) else Ok(CheckDistribution(distribution, s.permissions[addr]).Pass?)
      case Other(_) => Ok(false)
  }

  // ------------------------------------------------------------------ granting

  /** The address of a subkey, as far as `sender` may change its rights. */
  function Subkey(s: State, api: string -> bool, sender: Addr, spender: string): Result<Addr> {
    if !IsAdmin(s, sender) then Err(Unauthorized)
    else
      var addr :- AddrValidate(api, spender);
      :- Need(addr != sender, CannotSetOwnAccount);
      Ok(addr)
  }

  predicate Lapsed(s: State, a: Addr, block: Block) {
    a in s.allowances && s.allowances[a].expires.IsExpired(block)
  }

  /** An expired allowance starts again from nothing, with an expiration of its own. */
  function ExecuteIncrease(s: State, api: string -> bool, block: Block, sender: Addr,
                           spender: string, amount: Coin, expires: Option<Expiration>): Result<State>
  {
    var addr :- Subkey(s, api, sender, spender);
    var current := if addr !in s.allowances || Lapsed(s, addr, block) then Allowance([], Never) else s.allowances[addr];
    :- Need(!(expires.Some? && expires.value.IsExpired(block)), SettingExpiredAllowance);
    :- Need(expires.Some? || !Lapsed(s, addr, block), SettingExpiredAllowance);
    var balance :- Add(current.balance, amount);
    Ok(s.(allowances := s.allowances[addr := Allowance(balance, expires.UnwrapOr(current.expires))]))
  }

  function ExecuteDecrease(s: State, api: string -> bool, block: Block, sender: Addr,
                           spender: string, amount: Coin, expires: Option<Expiration>): Result<State>
  {
    var addr :- Subkey(s, api, sender, spender);
    :- Need(addr in s.allowances && !Lapsed(s, addr, block), NoAllowance);
    var current := s.allowances[addr];
    :- Need(!(expires.Some? && expires.value.IsExpired(block)), SettingExpiredAllowance);
    var balance :- SubSaturating(current.balance, amount);
    if IsEmpty(balance) then Ok(s.(allowances := s.allowances - {addr}))
    else Ok(s.(allowances := s.allowances[addr := Allowance(balance, expires.UnwrapOr(current.expires))]))
  }

  function ExecuteSetPermissions(s: State, api: string -> bool, sender: Addr, spender: string, p: Permissions)
    : Result<State>
  {
    var addr :- Subkey(s, api, sender, spender);
    Ok(s.(permissions := s.permissions[addr := p]))
  }

  function ExecuteUpdateAdmins(s: State, api: string -> bool, sender: Addr, admins: seq<string>): Result<State> {
    if !CanModify(s, sender) then Err(Unauthorized)
    else
      :- Need(forall i | 0 <= i < |admins| :: api(admins[i]), InvalidAddress);
      Ok(s.(config := s.config.(admins := admins)))
  }

  /** A call, with the messages that it relays. */
  function Handle(s: State, api: string -> bool, block: Block, sender: Addr, msg: Msg)
    : Result<(State, seq<CosmosMsg>)>
  {
    match msg
    case Execute(msgs) =>
      var t :- ExecuteExecute(s, block, sender, msgs);
      Ok((t, msgs))
    case Freeze =>
      :- Need(CanModify(s, sender), Unauthorized);
      Ok((s.(config := s.config.(mutable := false)), []))
    case UpdateAdmins(admins) =>
      var t :- ExecuteUpdateAdmins(s, api, sender, admins);
      Ok((t, []))
    case IncreaseAllowance(spender, amount, expires) =>
      var t :- ExecuteIncrease(s, api, block, sender, spender, amount, expires);
      Ok((t, []))
    case DecreaseAllowance(spender, amount, expires) =>
      var t :- ExecuteDecrease(s, api, block, sender, spender, amount, expires);
      Ok((t, []))
    case SetPermissions(spender, p) =>
      var t :- ExecuteSetPermissions(s, api, sender, spender, p);
      Ok((t, []))
  }

  // ------------------------------------------------------------- the contract

  class Proxy {
    const api: string -> bool
    var config: AdminList
    var permissions: map<Addr, Permissions>
    var allowances: map<Addr, Allowance>

    function Storage(): State
      reads this
    {
      State(config, permissions, allowances)
    }

    constructor (api: string -> bool)
      ensures this.api == api && Storage() == State(AdminList([], false), map[], map[])
    {
      this.api := api;
      config, permissions, allowances := AdminList([], false), map[], map[];
    }

    method Setup(admins: seq<string>, mutable: bool) returns (r: Result<()>)
      requires Storage() == State(AdminList([], false), map[], map[])
      modifies this`config
      ensures match Instantiate(api, admins, mutable)
              case Ok(s) => r.Ok? && Storage() == s
              case Err(e) => r == Err(e)
    {
      for i := 0 to |admins|
        invariant config == old(config)
        invariant forall j | 0 <= j < i :: api(admins[j])
      {
        if !api(admins[i]) {
          return Err(InvalidAddress);
        }
      }
      config := AdminList(admins, mutable);
      return Ok(());
    }

    method DoExecute(block: Block, sender: Addr, msgs: seq<CosmosMsg>) returns (c: Check)
      modifies this`allowances
      ensures match ExecuteExecute(old(Storage()), block, sender, msgs)
              case Ok(s) => c == Pass && Storage() == s
              case Err(e) => c == Fail(e)
    {
      if IsAdmin(Storage(), sender) {
        return Pass;
      }
      ghost var all := CheckAll(Storage(), block, sender, msgs);
      for i := 0 to |msgs|
        invariant config == old(config) && permissions == old(permissions)
        invariant CheckAll(Storage(), block, sender, msgs[i..]) == all
      {
        assert msgs[i..][0] == msgs[i] && msgs[i..][1..] == msgs[i + 1..];
        match msgs[i] {
          case Staking(staking) =>
            if sender !in permissions {
              return Fail(NotAllowed);
            }
            c := CheckStaking(staking, permissions[sender]);
            if c.Fail? {
              return;
            }
          case Distribution(distribution) =>
            if sender !in permissions {
              return Fail(NotAllowed);
            }
            c := CheckDistribution(distribution, permissions[sender]);
            if c.Fail? {
              return;
            }
          case BankSend(_, coins) =>
            if sender !in allowances || allowances[sender].expires.IsExpired(block) {
              return Fail(NoAllowance);
            }
            var left := SubAll(allowances[sender].balance, coins);
            if left.Err? {
              return Fail(left.error);
            }
            allowances := allowances[sender := allowances[sender].(balance := left.value)];
          case Other(_) =>
            return Fail(MessageTypeRejected);
        }
      }
      return Pass;
    }

    method DoIncrease(block: Block, sender: Addr, spender: string, amount: Coin, expires: Option<Expiration>)
      returns (c: Check)
      modifies this`allowances
      ensures match ExecuteIncrease(old(Storage()), api, block, sender, spender, amount, expires)
              case Ok(s) => c == Pass && Storage() == s
              case Err(e) => c == Fail(e)
    {
      var subkey := Subkey(Storage(), api, sender, spender);
      if subkey.Err? {
        return Fail(subkey.error);
      }
      var allowance := Allowance([], Never);
      var lapsed := false;
      if subkey.value in allowances {
        lapsed := allowances[subkey.value].expires.IsExpired(block);
        if !lapsed {
          allowance := allowances[subkey.value];
        }
      }
      if expires.Some? {
        if expires.value.IsExpired(block) {
          return Fail(SettingExpiredAllowance);
        }
        allowance := allowance.(expires := expires.value);
      } else if lapsed {
        return Fail(SettingExpiredAllowance);
      }
      var balance := Add(allowance.balance, amount);
      if balance.Err? {
        return Fail(balance.error);
      }
      allowances := allowances[subkey.value := allowance.(balance := balance.value)];
      return Pass;
    }

    method DoDecrease(block: Block, sender: Addr, spender: string, amount: Coin, expires: Option<Expiration>)
      returns (c: Check)
      modifies this`allowances
      ensures match ExecuteDecrease(old(Storage()), api, block, sender, spender, amount, expires)
              case Ok(s) => c == Pass && Storage() == s
              case Err(e) => c == Fail(e)
    {
      var subkey := Subkey(Storage(), api, sender, spender);
      if subkey.Err? {
        return Fail(subkey.error);
      }
      if subkey.value !in allowances || allowances[subkey.value].expires.IsExpired(block) {
        return Fail(NoAllowance);
      }
      var allowance := allowances[subkey.value];
      if expires.Some? {
        if expires.value.IsExpired(block) {
          return Fail(SettingExpiredAllowance);
        }
        allowance := allowance.(expires := expires.value);
      }
      var balance := SubSaturating(allowance.balance, amount);
      if balance.Err? {
        return Fail(balance.error);
      }
      allowances := allowances[subkey.value := allowance.(balance := balance.value)];
      if IsEmpty(balance.value) {
        allowances := allowances - {subkey.value};
      }
      return Pass;
    }

    /** A call to the proxy; the chain takes back all writes of a call that fails. */
    method Call(block: Block, sender: Addr, msg: Msg) returns (r: Result<seq<CosmosMsg>>)
      modifies this
      ensures match Handle(old(Storage()), api, block, sender, msg)
              case Ok((s, relayed)) => r == Ok(relayed) && Storage() == s
              case Err(e) => r == Err(e) && Storage() == old(Storage())
    {
      hide CheckAll, ExecuteIncrease, ExecuteDecrease, IsAdmin;
      var before := Storage();
      var c: Check := Pass;
      var relayed: seq<CosmosMsg> := [];
      match msg {
        case Execute(msgs) =>
          c := DoExecute(block, sender, msgs);
          relayed := msgs;
        case Freeze =>
          if !CanModify(before, sender) {
            return Err(Unauthorized);
          }
          config := config.(mutable := false);
        case UpdateAdmins(admins) =>
          if !CanModify(before, sender) {
            return Err(Unauthorized);
          }
          if exists i | 0 <= i < |admins| :: !api(admins[i]) {
            return Err(InvalidAddress);
          }
          config := config.(admins := admins);
        case IncreaseAllowance(spender, amount, expires) =>
          c := DoIncrease(block, sender, spender, amount, expires);
        case DecreaseAllowance(spender, amount, expires) =>
          c := DoDecrease(block, sender, spender, amount, expires);
        case SetPermissions(spender, p) =>
          var subkey := Subkey(before, api, sender, spender);
          if subkey.Err? {
            return Err(subkey.error);
          }
          permissions := permissions[subkey.value := p];
      }
      if c.Fail? {
        allowances := before.allowances;
        return Err(c.error);
      }
      return Ok(relayed);
    }
  }
}
