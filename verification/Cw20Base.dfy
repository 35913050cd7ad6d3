/** The cw20 token (contracts/cw20-base/src/{contract,allowances}.rs): its handlers as
    functions of the stored state, and the contract object that carries them out. */
module Cw20Base {
  import opened Prelude
  import opened Sorting

  /** An amount that a spender may take, until it expires. */
  datatype Allowance = Allowance(amount: Uint128, expires: Expiration)

  datatype MinterData = MinterData(minter: Addr, cap: Option<Uint128>)

  /** Two addresses: owner and spender in `ALLOWANCES`, spender and owner in its mirror. */
  type Pair = (Addr, Addr)
  type Balances = map<Addr, Uint128>
  type Allowances = map<Pair, Allowance>

  datatype State = State(
    balances: Balances,
    supply: Uint128,
    mint: Option<MinterData>,
    allowances: Allowances,
    bySpender: Allowances)

  datatype Account = Account(address: string, amount: Uint128)

  datatype Msg =
    | Transfer(recipient: string, amount: Uint128)
    | Burn(amount: Uint128)
    | Send(contract: string, amount: Uint128, payload: string)
    | Mint(recipient: string, amount: Uint128)
    | IncreaseAllowance(spender: string, amount: Uint128, expires: Option<Expiration>)
    | DecreaseAllowance(spender: string, amount: Uint128, expires: Option<Expiration>)
    | TransferFrom(owner: string, recipient: string, amount: Uint128)
    | BurnFrom(owner: string, amount: Uint128)
    | SendFrom(owner: string, contract: string, amount: Uint128, payload: string)
    | UpdateMinter(minter: Option<string>)

  /** The `Receive` message that a send dispatches to the receiving contract. */
  datatype Notice = Notice(contract: string, sender: Addr, amount: Uint128, payload: string)

  function Reverse(pair: Pair): Pair {
    (pair.1, pair.0)
  }

  // ---------------------------------------------------------------- balances

  function BalanceOf(balances: Balances, a: Addr): Uint128 {
    if a in balances then balances[a] else 0
  }

  function Withdraw(balances: Balances, a: Addr, amount: Uint128): Result<Balances> {
    var left :- CheckedSub(BalanceOf(balances, a), amount, Overflow);
    Ok(balances[a := left])
  }

  /** The addition on the receiving side is unchecked: it would trap. */
  function Deposit(balances: Balances, a: Addr, amount: Uint128): Result<Balances> {
    var sum :- CheckedAdd128(BalanceOf(balances, a), amount, Panic);
    Ok(balances[a := sum])
  }

  function Move(balances: Balances, from: Addr, to: Addr, amount: Uint128): Result<Balances> {
    var taken :- Withdraw(balances, from, amount);
    Deposit(taken, to, amount)
  }

  function ExecuteTransfer(s: State, api: string -> bool, sender: Addr, recipient: string, amount: Uint128)
    : Result<State>
  {
    var to :- AddrValidate(api, recipient);
    var balances :- Move(s.balances, sender, to, amount);
    Ok(s.(balances := balances))
  }

  function ExecuteBurn(s: State, owner: Addr, amount: Uint128): Result<State> {
    var balances :- Withdraw(s.balances, owner, amount);
    var supply :- CheckedSub(s.supply, amount, Overflow);
    Ok(s.(balances := balances, supply := supply))
  }

  // ----------------------------------------------------------------- minting

  function CapOf(mint: Option<MinterData>): Option<Uint128> {
    if mint.Some? then mint.value.cap else None
  }

  predicate MayMint(s: State, sender: Addr) {
    s.mint.Some? && s.mint.value.minter == sender
  }

  predicate AboveCap(supply: Uint128, cap: Option<Uint128>) {
    cap.Some? && supply > cap.value
  }

  function ExecuteMint(s: State, api: string -> bool, sender: Addr, recipient: string, amount: Uint128)
    : Result<State>
  {
    if !MayMint(s, sender) then Err(Unauthorized)
    else
      var supply :- CheckedAdd128(s.supply, amount, Panic);
      :- Need(!AboveCap(supply, CapOf(s.mint)), CannotExceedCap);
      var to :- AddrValidate(api, recipient);
      var balances :- Deposit(s.balances, to, amount);
      Ok(s.(balances := balances, supply := supply))
  }

  function ExecuteUpdateMinter(s: State, api: string -> bool, sender: Addr, minter: Option<string>): Result<State> {
    if !MayMint(s, sender) then Err(Unauthorized)
    else if minter.None? then Ok(s.(mint := None))
    else
      var addr :- AddrValidate(api, minter.value);
      Ok(s.(mint := Some(MinterData(addr, s.mint.value.cap))))
  }

  // -------------------------------------------------------------- allowances

  function Entry(allowances: Allowances, pair: Pair): Option<Allowance> {
    if pair in allowances then Some(allowances[pair]) else None
  }

  /** An update of one entry; both maps are updated by the same function. */
  function Raised(entry: Option<Allowance>, block: Block, amount: Uint128, expires: Option<Expiration>)
    : Result<Allowance>
  {
    var current := entry.UnwrapOr(Allowance(0, Never));
    if expires.Some? && expires.value.IsExpired(block) then Err(InvalidExpiration)
    else
      var sum :- CheckedAdd128(current.amount, amount, Panic);
      Ok(Allowance(sum, expires.UnwrapOr(current.expires)))
  }

  function Deducted(entry: Option<Allowance>, block: Block, amount: Uint128): Result<Allowance> {
    if entry.None? then Err(NoAllowance)
    else if entry.value.expires.IsExpired(block) then Err(Expired)
    else
      var left :- CheckedSub(entry.value.amount, amount, Overflow);
      Ok(entry.value.(amount := left))
  }

  function ExecuteIncrease(s: State, api: string -> bool, block: Block, sender: Addr,
                           spender: string, amount: Uint128, expires: Option<Expiration>): Result<State>
  {
    var addr :- AddrValidate(api, spender);
    :- Need(addr != sender, CannotSetOwnAccount);
    var pair := (sender, addr);
    var allowance :- Raised(Entry(s.allowances, pair), block, amount, expires);
    var mirrored :- Raised(Entry(s.bySpender, Reverse(pair)), block, amount, expires);
    Ok(s.(allowances := s.allowances[pair := allowance], bySpender := s.bySpender[Reverse(pair) := mirrored]))
  }

  function ExecuteDecrease(s: State, api: string -> bool, block: Block, sender: Addr,
                           spender: string, amount: Uint128, expires: Option<Expiration>): Result<State>
  {
    var addr :- AddrValidate(api, spender);
    :- Need(addr != sender, CannotSetOwnAccount);
    var pair := (sender, addr);
    :- Need(pair in s.allowances, NotFound);
    var current := s.allowances[pair];
    if amount < current.amount then
      :- Need(!(expires.Some? && expires.value.IsExpired(block)), InvalidExpiration);
      var lower := Allowance(current.amount - amount, expires.UnwrapOr(current.expires));
      Ok(s.(allowances := s.allowances[pair := lower], bySpender := s.bySpender[Reverse(pair) := lower]))
    else
      Ok(s.(allowances := s.allowances - {pair}, bySpender := s.bySpender - {Reverse(pair)}))
  }

  function DeductAllowance(s: State, block: Block, owner: Addr, spender: Addr, amount: Uint128): Result<State> {
    var pair := (owner, spender);
    var allowance :- Deducted(Entry(s.allowances, pair), block, amount);
    var mirrored :- Deducted(Entry(s.bySpender, Reverse(pair)), block, amount);
    Ok(s.(allowances := s.allowances[pair := allowance], bySpender := s.bySpender[Reverse(pair) := mirrored]))
  }

  function ExecuteTransferFrom(s: State, api: string -> bool, block: Block, sender: Addr,
                               owner: string, recipient: string, amount: Uint128): Result<State>
  {
    var to :- AddrValidate(api, recipient);
    var from :- AddrValidate(api, owner);
    var deducted :- DeductAllowance(s, block, from, sender, amount);
    var balances :- Move(deducted.balances, from, to, amount);
    Ok(deducted.(balances := balances))
  }

  function ExecuteBurnFrom(s: State, api: string -> bool, block: Block, sender: Addr,
                           owner: string, amount: Uint128): Result<State>
  {
    var from :- AddrValidate(api, owner);
    var deducted :- DeductAllowance(s, block, from, sender, amount);
    ExecuteBurn(deducted, from, amount)
  }

  /** A call, with the notice that it dispatches. */
  function Handle(s: State, api: string -> bool, block: Block, sender: Addr, msg: Msg)
    : Result<(State, Option<Notice>)>
  {
    match msg
    case Transfer(recipient, amount) =>
      var t :- ExecuteTransfer(s, api, sender, recipient, amount);
      Ok((t, None))
    case Burn(amount) =>
      var t :- ExecuteBurn(s, sender, amount);
      Ok((t, None))
    case Send(contract, amount, payload) =>
      var t :- ExecuteTransfer(s, api, sender, contract, amount);
      Ok((t, Some(Notice(contract, sender, amount, payload))))
    case Mint(recipient, amount) =>
      var t :- ExecuteMint(s, api, sender, recipient, amount);
      Ok((t, None))
    case IncreaseAllowance(spender, amount, expires) =>
      var t :- ExecuteIncrease(s, api, block, sender, spender, amount, expires);
      Ok((t, None))
    case DecreaseAllowance(spender, amount, expires) =>
      var t :- ExecuteDecrease(s, api, block, sender, spender, amount, expires);
      Ok((t, None))
    case TransferFrom(owner, recipient, amount) =>
      var t :- ExecuteTransferFrom(s, api, block, sender, owner, recipient, amount);
      Ok((t, None))
    case BurnFrom(owner, amount) =>
      var t :- ExecuteBurnFrom(s, api, block, sender, owner, amount);
      Ok((t, None))
    case SendFrom(owner, contract, amount, payload) =>
      var t :- ExecuteTransferFrom(s, api, block, sender, owner, contract, amount);
      Ok((t, Some(Notice(contract, sender, amount, payload))))
    case UpdateMinter(minter) =>
      var t :- ExecuteUpdateMinter(s, api, sender, minter);
      Ok((t, None))
  }

  // ----------------------------------------------------------- instantiation

  const ITSELF: string -> string := (s: string) => s

  function Addresses(accounts: seq<Account>): seq<string> {
    seq(|accounts|, i requires 0 <= i < |accounts| => accounts[i].address)
  }

  function ValidateAccounts(accounts: seq<Account>): Result<()> {
    if Distinct(Addresses(accounts), ITSELF) then Ok(()) else Err(DuplicateInitialBalanceAddresses)
  }

  /** Opening balances and their running total. */
  datatype Ledger = Ledger(balances: Balances, supply: Uint128)

  function OpenAll(api: string -> bool, ledger: Ledger, accounts: seq<Account>): Result<Ledger>
    decreases |accounts|
  {
    if accounts == [] then Ok(ledger)
    else
      var addr :- AddrValidate(api, accounts[0].address);
      var supply :- CheckedAdd128(ledger.supply, accounts[0].amount, Panic);
      OpenAll(api, Ledger(ledger.balances[addr := accounts[0].amount], supply), accounts[1..])
  }

  function CreateAccounts(api: string -> bool, accounts: seq<Account>): Result<Ledger> {
    var valid := ValidateAccounts(accounts);
    if valid.Err? then Err(valid.error) else OpenAll(api, Ledger(map[], 0), accounts)
  }

  /** Whether name, symbol and decimals, and the marketing data, pass their own checks;
      they touch nothing else. */
  datatype Checks = Checks(infoValid: bool, marketingValid: bool)

  function Instantiate(api: string -> bool, checks: Checks, accounts: seq<Account>,
                       minter: Option<(string, Option<Uint128>)>): Result<State>
  {
    if !checks.infoValid then Err(InvalidTokenInfo)
    else
      var ledger :- CreateAccounts(api, accounts);
      :- Need(minter.None? || !AboveCap(ledger.supply, minter.value.1), InitialSupplyAboveCap);
      :- Need(minter.None? || api(minter.value.0), InvalidAddress);
      :- Need(checks.marketingValid, InvalidMarketing);
      var mint := if minter.None? then None else Some(MinterData(minter.value.0, minter.value.1));
      Ok(State(ledger.balances, ledger.supply, mint, map[], map[]))
  }

  /** Migration from a version that kept no mirror copies every entry into it. */
  function Migrate(s: State, legacy: bool): State {
    if legacy then s.(bySpender := s.bySpender + Transposed(s.allowances)) else s
  }

  function Transposed(allowances: Allowances): Allowances {
    map pair | pair in allowances :: Reverse(pair) := allowances[pair]
  }

  // ------------------------------------------------------------- the contract

  /** Drops every element that repeats its predecessor. */
  function Dedup(s: seq<string>): seq<string> {
    if |s| < 2 then s
    else if s[0] == s[1] then Dedup(s[1..])
    else [s[0]] + Dedup(s[1..])
  }

  /** Removing neighbouring repeats shortens a list exactly if it has some. */
  lemma {:induction false} DedupShortens(s: seq<string>)
    ensures |Dedup(s)| <= |s|
    ensures |Dedup(s)| == |s| <==> forall i | 0 <= i < |s| - 1 :: s[i] != s[i + 1]
    ensures forall x :: x in Dedup(s) <==> x in s
  {
    if |s| >= 2 {
      DedupShortens(s[1..]);
      assert forall i | 1 <= i < |s| - 1 :: s[i] == s[1..][i - 1] && s[i + 1] == s[1..][i];
      if s[0] != s[1] && |Dedup(s)| == |s| {
        forall i | 0 <= i < |s| - 1
          ensures s[i] != s[i + 1]
        {
          if i > 0 {
            assert s[1..][i - 1] != s[1..][i - 1 + 1];
          }
        }
      }
    }
  }

  /** Sorting and then removing neighbouring repeats keeps the length exactly if no address
      is listed twice. */
  lemma SortedDedupLength(addresses: seq<string>)
    ensures |Dedup(Sort(addresses, ITSELF))| == |addresses| <==> Distinct(addresses, ITSELF)
  {
    hide Distinct, Ordered, Sort, Dedup;
    var sorted := Sort(addresses, ITSELF);
    SortIsSorted(addresses, ITSELF);
    SortKeepsDistinct(addresses, ITSELF);
    NeighboursSuffice(sorted, ITSELF);
    DedupShortens(sorted);
    assert |multiset(sorted)| == |sorted| && |multiset(addresses)| == |addresses|;
    assert forall i | 0 <= i < |sorted| :: ITSELF(sorted[i]) == sorted[i];
  }

  method CheckAccounts(accounts: seq<Account>) returns (r: Result<()>)
    ensures r == ValidateAccounts(accounts)
  {
    var addresses := Addresses(accounts);
    SortedDedupLength(addresses);
    addresses := Sort(addresses, ITSELF);
    addresses := Dedup(addresses);
    if |addresses| != |accounts| {
      return Err(DuplicateInitialBalanceAddresses);
    }
    return Ok(());
  }

  class Token {
    const api: string -> bool
    var balances: Balances
    var supply: Uint128
    var mint: Option<MinterData>
    var allowances: Allowances
    var bySpender: Allowances

    function Storage(): State
      reads this
    {
      State(balances, supply, mint, allowances, bySpender)
    }

    constructor (api: string -> bool)
      ensures this.api == api && Storage() == State(map[], 0, None, map[], map[])
    {
      this.api := api;
      balances, supply, mint, allowances, bySpender := map[], 0, None, map[], map[];
    }

    method Setup(checks: Checks, accounts: seq<Account>, minter: Option<(string, Option<Uint128>)>)
      returns (r: Result<()>)
      requires Storage() == State(map[], 0, None, map[], map[])
      modifies this
      ensures match Instantiate(api, checks, accounts, minter)
              case Ok(s) => r.Ok? && Storage() == s
              case Err(e) => r == Err(e)
    {
      hide OpenAll, ValidateAccounts;
      if !checks.infoValid {
        return Err(InvalidTokenInfo);
      }
      var total := DoCreateAccounts(accounts);
      if total.Err? {
        return Err(total.error);
      }
      if minter.Some? {
        if AboveCap(total.value, minter.value.1) {
          return Err(InitialSupplyAboveCap);
        }
        if !api(minter.value.0) {
          return Err(InvalidAddress);
        }
        mint := Some(MinterData(minter.value.0, minter.value.1));
      }
      supply := total.value;
      if !checks.marketingValid {
        return Err(InvalidMarketing);
      }
      return Ok(());
    }

    method DoCreateAccounts(accounts: seq<Account>) returns (r: Result<Uint128>)
      requires balances == map[]
      modifies this`balances
      ensures match CreateAccounts(api, accounts)
              case Ok(ledger) => r == Ok(ledger.supply) && balances == ledger.balances
              case Err(e) => r == Err(e)
    {
      var valid := CheckAccounts(accounts);
      if valid.Err? {
        return Err(valid.error);
      }
      var total: Uint128 := 0;
      ghost var all := OpenAll(api, Ledger(map[], 0), accounts);
      for i := 0 to |accounts|
        invariant OpenAll(api, Ledger(balances, total), accounts[i..]) == all
      {
        assert accounts[i..][0] == accounts[i] && accounts[i..][1..] == accounts[i + 1..];
        var row := accounts[i];
        if !api(row.address) {
          return Err(InvalidAddress);
        }
        balances := balances[row.address := row.amount];
        if total + row.amount > U128_MAX {
          return Err(Panic);
        }
        total := total + row.amount;
      }
      return Ok(total);
    }

    method TakeFrom(a: Addr, amount: Uint128) returns (c: Check)
      modifies this`balances
      ensures match Withdraw(old(balances), a, amount)
              case Ok(now) => c == Pass && balances == now
              case Err(e) => c == Fail(e) && balances == old(balances)
    {
      var current := if a in balances then balances[a] else 0;
      if current < amount {
        return Fail(Overflow);
      }
      balances := balances[a := current - amount];
      return Pass;
    }

    method AddTo(a: Addr, amount: Uint128) returns (c: Check)
      modifies this`balances
      ensures match Deposit(old(balances), a, amount)
              case Ok(now) => c == Pass && balances == now
              case Err(e) => c == Fail(e) && balances == old(balances)
    {
      var current := if a in balances then balances[a] else 0;
      if current + amount > U128_MAX {
        return Fail(Panic);
      }
      balances := balances[a := current + amount];
      return Pass;
    }

    method MoveTokens(from: Addr, to: Addr, amount: Uint128) returns (c: Check)
      modifies this`balances
      ensures match Move(old(balances), from, to, amount)
              case Ok(now) => c == Pass && balances == now
              case Err(e) => c == Fail(e)
    {
      c := TakeFrom(from, amount);
      if c.Pass? {
        c := AddTo(to, amount);
      }
    }

    method DoTransfer(sender: Addr, recipient: string, amount: Uint128) returns (c: Check)
      modifies this`balances
      ensures match ExecuteTransfer(old(Storage()), api, sender, recipient, amount)
              case Ok(s) => c == Pass && Storage() == s
              case Err(e) => c == Fail(e)
    {
      if !api(recipient) {
        return Fail(InvalidAddress);
      }
      c := MoveTokens(sender, recipient, amount);
    }

    method DoBurn(owner: Addr, amount: Uint128) returns (c: Check)
      modifies this`balances, this`supply
      ensures match ExecuteBurn(old(Storage()), owner, amount)
              case Ok(s) => c == Pass && Storage() == s
              case Err(e) => c == Fail(e)
    {
      c := TakeFrom(owner, amount);
      if c.Fail? {
        return c;
      }
      if supply < amount {
        return Fail(Overflow);
      }
      supply := supply - amount;
    }

    method DoMint(sender: Addr, recipient: string, amount: Uint128) returns (c: Check)
      modifies this`balances, this`supply
      ensures match ExecuteMint(old(Storage()), api, sender, recipient, amount)
              case Ok(s) => c == Pass && Storage() == s
              case Err(e) => c == Fail(e)
    {
      if mint.None? || mint.value.minter != sender {
        return Fail(Unauthorized);
      }
      if supply + amount > U128_MAX {
        return Fail(Panic);
      }
      if mint.value.cap.Some? && supply + amount > mint.value.cap.value {
        return Fail(CannotExceedCap);
      }
      supply := supply + amount;
      if !api(recipient) {
        return Fail(InvalidAddress);
      }
      c := AddTo(recipient, amount);
    }

    method DoUpdateMinter(sender: Addr, minter: Option<string>) returns (c: Check)
      modifies this`mint
      ensures match ExecuteUpdateMinter(old(Storage()), api, sender, minter)
              case Ok(s) => c == Pass && Storage() == s
              case Err(e) => c == Fail(e)
    {
      if mint.None? || mint.value.minter != sender {
        return Fail(Unauthorized);
      }
      if minter.Some? && !api(minter.value) {
        return Fail(InvalidAddress);
      }
      mint := if minter.Some? then Some(MinterData(minter.value, mint.value.cap)) else None;
      return Pass;
    }

    method DoIncrease(block: Block, sender: Addr, spender: string, amount: Uint128, expires: Option<Expiration>)
      returns (c: Check)
      modifies this`allowances, this`bySpender
      ensures match ExecuteIncrease(old(Storage()), api, block, sender, spender, amount, expires)
              case Ok(s) => c == Pass && Storage() == s
              case Err(e) => c == Fail(e)
    {
      if !api(spender) {
        return Fail(InvalidAddress);
      }
      if spender == sender {
        return Fail(CannotSetOwnAccount);
      }
      var raised := Raised(Entry(allowances, (sender, spender)), block, amount, expires);
      if raised.Err? {
        return Fail(raised.error);
      }
      allowances := allowances[(sender, spender) := raised.value];
      var mirrored := Raised(Entry(bySpender, (spender, sender)), block, amount, expires);
      if mirrored.Err? {
        return Fail(mirrored.error);
      }
      bySpender := bySpender[(spender, sender) := mirrored.value];
      return Pass;
    }

    method DoDecrease(block: Block, sender: Addr, spender: string, amount: Uint128, expires: Option<Expiration>)
      returns (c: Check)
      modifies this`allowances, this`bySpender
      ensures match ExecuteDecrease(old(Storage()), api, block, sender, spender, amount, expires)
              case Ok(s) => c == Pass && Storage() == s
              case Err(e) => c == Fail(e)
    {
      if !api(spender) {
        return Fail(InvalidAddress);
      }
      if spender == sender {
        return Fail(CannotSetOwnAccount);
      }
      if (sender, spender) !in allowances {
        return Fail(NotFound);
      }
      var allowance := allowances[(sender, spender)];
      if amount < allowance.amount {
        allowance := allowance.(amount := allowance.amount - amount);
        if expires.Some? {
          if expires.value.IsExpired(block) {
            return Fail(InvalidExpiration);
          }
          allowance := allowance.(expires := expires.value);
        }
        allowances := allowances[(sender, spender) := allowance];
        bySpender := bySpender[(spender, sender) := allowance];
      } else {
        allowances := allowances - {(sender, spender)};
        bySpender := bySpender - {(spender, sender)};
      }
      return Pass;
    }

    method Deduct(block: Block, owner: Addr, spender: Addr, amount: Uint128) returns (c: Check)
      modifies this`allowances, this`bySpender
      ensures match DeductAllowance(old(Storage()), block, owner, spender, amount)
              case Ok(s) => c == Pass && Storage() == s
              case Err(e) => c == Fail(e)
    {
      var deducted := Deducted(Entry(allowances, (owner, spender)), block, amount);
      if deducted.Err? {
        return Fail(deducted.error);
      }
      allowances := allowances[(owner, spender) := deducted.value];
      var mirrored := Deducted(Entry(bySpender, (spender, owner)), block, amount);
      if mirrored.Err? {
        return Fail(mirrored.error);
      }
      bySpender := bySpender[(spender, owner) := mirrored.value];
      return Pass;
    }

    method DoTransferFrom(block: Block, sender: Addr, owner: string, recipient: string, amount: Uint128)
      returns (c: Check)
      modifies this`allowances, this`bySpender, this`balances
      ensures match ExecuteTransferFrom(old(Storage()), api, block, sender, owner, recipient, amount)
              case Ok(s) => c == Pass && Storage() == s
              case Err(e) => c == Fail(e)
    {
      hide Move;
      if !api(recipient) || !api(owner) {
        return Fail(InvalidAddress);
      }
      c := Deduct(block, owner, sender, amount);
      if c.Pass? {
        c := MoveTokens(owner, recipient, amount);
      }
    }

    method DoBurnFrom(block: Block, sender: Addr, owner: string, amount: Uint128) returns (c: Check)
      modifies this`allowances, this`bySpender, this`balances, this`supply
      ensures match ExecuteBurnFrom(old(Storage()), api, block, sender, owner, amount)
              case Ok(s) => c == Pass && Storage() == s
              case Err(e) => c == Fail(e)
    {
      hide ExecuteBurn;
      if !api(owner) {
        return Fail(InvalidAddress);
      }
      c := Deduct(block, owner, sender, amount);
      if c.Pass? {
        c := DoBurn(owner, amount);
      }
    }

    /** A call to the token; the chain takes back all writes of a call that fails. */
    method Call(block: Block, sender: Addr, msg: Msg) returns (r: Result<Option<Notice>>)
      modifies this
      ensures match Handle(old(Storage()), api, block, sender, msg)
              case Ok((s, notice)) => r == Ok(notice) && Storage() == s
              case Err(e) => r == Err(e) && Storage() == old(Storage())
    {
      hide ExecuteTransfer, ExecuteBurn, ExecuteMint, ExecuteUpdateMinter, ExecuteIncrease, ExecuteDecrease,
           ExecuteTransferFrom, ExecuteBurnFrom;
      var before := Storage();
      var notice: Option<Notice> := None;
      var c: Check;
      match msg {
        case Transfer(recipient, amount) =>
          c := DoTransfer(sender, recipient, amount);
        case Burn(amount) =>
          c := DoBurn(sender, amount);
        case Send(contract, amount, payload) =>
          c := DoTransfer(sender, contract, amount);
          notice := Some(Notice(contract, sender, amount, payload));
        case Mint(recipient, amount) =>
          c := DoMint(sender, recipient, amount);
        case IncreaseAllowance(spender, amount, expires) =>
          c := DoIncrease(block, sender, spender, amount, expires);
        case DecreaseAllowance(spender, amount, expires) =>
          c := DoDecrease(block, sender, spender, amount, expires);
        case TransferFrom(owner, recipient, amount) =>
          c := DoTransferFrom(block, sender, owner, recipient, amount);
        case BurnFrom(owner, amount) =>
          c := DoBurnFrom(block, sender, owner, amount);
        case SendFrom(owner, contract, amount, payload) =>
          c := DoTransferFrom(block, sender, owner, contract, amount);
          notice := Some(Notice(contract, sender, amount, payload));
        case UpdateMinter(minter) =>
          c := DoUpdateMinter(sender, minter);
      }
      if c.Fail? {
        balances, supply, mint := before.balances, before.supply, before.mint;
        allowances, bySpender := before.allowances, before.bySpender;
        return Err(c.error);
      }
      return Ok(notice);
    }

    method DoMigrate(legacy: bool)
      modifies this`bySpender
      ensures Storage() == Migrate(old(Storage()), legacy)
    {
      hide Transposed, Reverse;
      if legacy {
        var todo := allowances.Keys;
        NothingTransposed(allowances, bySpender);
        while todo != {}
          invariant todo <= allowances.Keys
          invariant bySpender == old(bySpender) + Transposed(allowances - todo)
          decreases |todo|
        {
          var pair :| pair in todo;
          OneMoreTransposed(allowances, todo, pair, old(bySpender));
          bySpender := bySpender[Reverse(pair) := allowances[pair]];
          todo := todo - {pair};
        }
        assert allowances - {} == allowances;
      }
    }
  }

  lemma OneMoreTransposed(allowances: Allowances, todo: set<Pair>, pair: Pair, base: Allowances)
    requires todo <= allowances.Keys && pair in todo
    ensures base + Transposed(allowances - (todo - {pair})) ==
            (base + Transposed(allowances - todo))[Reverse(pair) := allowances[pair]]
  {
    hide Transposed, Reverse;
    var more, less := Transposed(allowances - (todo - {pair})), Transposed(allowances - todo);
    ReverseTwice(pair);
    forall k: Pair
      ensures k in more <==> k in less || k == Reverse(pair)
      ensures k in more ==> more[k] == if k == Reverse(pair) then allowances[pair] else less[k]
    {
      TransposedAt(allowances - (todo - {pair}), k);
      TransposedAt(allowances - todo, k);
      ReverseTwice(k);
    }
  }

  lemma ReverseTwice(pair: Pair)
    ensures Reverse(Reverse(pair)) == pair
  {
  }

  lemma NothingTransposed(allowances: Allowances, base: Allowances)
    ensures base + Transposed(allowances - allowances.Keys) == base
  {
    assert allowances - allowances.Keys == map[];
    assert Transposed(map[]) == map[];
  }

  /** The transpose holds, under every reversed key, what the map holds under the key. */
  lemma TransposedAt(allowances: Allowances, k: Pair)
    ensures Entry(Transposed(allowances), k) == Entry(allowances, Reverse(k))
  {
    assert Reverse(Reverse(k)) == k;
  }
}
