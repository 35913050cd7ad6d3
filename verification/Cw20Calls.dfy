/** What every call of the token does, in every run: when it goes through, who holds what
    afterwards, which allowance is another one, who may mint, and what is announced. */
module Cw20Calls {
  import opened Prelude
  import opened Sums
  import opened Sorting
  import opened Cw20Base
  import opened Cw20Theorems

  function Held(s: State, a: Addr): nat {
    if a in s.balances then s.balances[a] else 0
  }

  function Allowed(s: State, owner: Addr, spender: Addr): nat {
    if (owner, spender) in s.allowances then s.allowances[(owner, spender)].amount else 0
  }

  /** A spender can take this much from an owner. */
  predicate CanTake(s: State, api: string -> bool, now: Block, owner: string, spender: Addr, amount: Uint128) {
    && api(owner) && (owner, spender) in s.allowances && !s.allowances[(owner, spender)].expires.IsExpired(now)
    && amount <= Allowed(s, owner, spender) && amount <= Held(s, owner)
  }

  predicate IsMinter(s: State, a: Addr) {
    s.mint.Some? && s.mint.value.minter == a
  }

  /** When each call goes through. */
  predicate Accepts(s: State, api: string -> bool, now: Block, sender: Addr, msg: Msg) {
    match msg
    case Transfer(to, amount) => api(to) && amount <= Held(s, sender)
    case Burn(amount) => amount <= Held(s, sender)
    case Send(contract, amount, _) => api(contract) && amount <= Held(s, sender)
    case Mint(to, amount) =>
      && IsMinter(s, sender) && api(to) && s.supply + amount <= U128_MAX
      && (s.mint.value.cap.Some? ==> s.supply + amount <= s.mint.value.cap.value)
    case IncreaseAllowance(spender, amount, expires) =>
      api(spender) && spender != sender && NotOver(expires, now) && Allowed(s, sender, spender) + amount <= U128_MAX
    case DecreaseAllowance(spender, amount, expires) =>
      && api(spender) && spender != sender && (sender, spender) in s.allowances
      && (amount < Allowed(s, sender, spender) ==> NotOver(expires, now))
    case TransferFrom(owner, to, amount) => api(to) && CanTake(s, api, now, owner, sender, amount)
    case BurnFrom(owner, amount) => CanTake(s, api, now, owner, sender, amount)
    case SendFrom(owner, contract, amount, _) => api(contract) && CanTake(s, api, now, owner, sender, amount)
    case UpdateMinter(minter) => IsMinter(s, sender) && (minter.Some? ==> api(minter.value))
  }

  /** An amount goes from one account, or from nowhere, to another one, or away. */
  ghost predicate Moved(s: State, t: State, from: Option<Addr>, to: Option<Addr>, amount: nat) {
    forall a: Addr ::
      Held(t, a) + (if from == Some(a) then amount else 0) == Held(s, a) + (if to == Some(a) then amount else 0)
  }

  /** One allowance is set, or removed, in both maps. */
  predicate AllowanceIs(s: State, t: State, owner: Addr, spender: Addr, allowance: Option<Allowance>) {
    match allowance
    case Some(a) =>
      && t.allowances == s.allowances[(owner, spender) := a] && t.bySpender == s.bySpender[(spender, owner) := a]
    case None =>
      t.allowances == s.allowances - {(owner, spender)} && t.bySpender == s.bySpender - {(spender, owner)}
  }

  /** An allowance that was used is lower by the amount, and expires when it did. */
  predicate Used(s: State, t: State, owner: Addr, spender: Addr, amount: Uint128) {
    && (owner, spender) in s.allowances && amount <= Allowed(s, owner, spender)
    && AllowanceIs(s, t, owner, spender,
                   Some(Allowance(Allowed(s, owner, spender) - amount, s.allowances[(owner, spender)].expires)))
  }

  function ExpiryOf(s: State, owner: Addr, spender: Addr): Expiration {
    if (owner, spender) in s.allowances then s.allowances[(owner, spender)].expires else Never
  }

  /** What each call does, and what it announces to a receiving contract. */
  ghost predicate Done(s: State, sender: Addr, msg: Msg, t: State, notice: Option<Notice>) {
    match msg
    case Transfer(to, amount) =>
      t == s.(balances := t.balances) && Moved(s, t, Some(sender), Some(to), amount) && notice == None
    case Send(contract, amount, payload) =>
      && t == s.(balances := t.balances) && Moved(s, t, Some(sender), Some(contract), amount)
      && notice == Some(Notice(contract, sender, amount, payload))
    case Burn(amount) =>
      && t == s.(balances := t.balances, supply := t.supply) && t.supply + amount == s.supply
      && Moved(s, t, Some(sender), None, amount) && notice == None
    case Mint(to, amount) =>
      && t == s.(balances := t.balances, supply := t.supply) && t.supply == s.supply + amount
      && Moved(s, t, None, Some(to), amount) && notice == None
    case IncreaseAllowance(spender, amount, expires) =>
      && t == s.(allowances := t.allowances, bySpender := t.bySpender) && notice == None
      && Allowed(s, sender, spender) + amount <= U128_MAX
      && AllowanceIs(s, t, sender, spender,
                     Some(Allowance(Allowed(s, sender, spender) + amount,
                                    if expires.Some? then expires.value else ExpiryOf(s, sender, spender))))
    case DecreaseAllowance(spender, amount, expires) =>
      && t == s.(allowances := t.allowances, bySpender := t.bySpender) && notice == None
      && AllowanceIs(s, t, sender, spender,
                     if amount < Allowed(s, sender, spender)
                     then Some(Allowance(Allowed(s, sender, spender) - amount,
                                         if expires.Some? then expires.value else ExpiryOf(s, sender, spender)))
                     else None)
    case TransferFrom(owner, to, amount) =>
      && t == s.(balances := t.balances, allowances := t.allowances, bySpender := t.bySpender) && notice == None
      && Used(s, t, owner, sender, amount) && Moved(s, t, Some(owner), Some(to), amount)
    case SendFrom(owner, contract, amount, payload) =>
      && t == s.(balances := t.balances, allowances := t.allowances, bySpender := t.bySpender)
      && Used(s, t, owner, sender, amount) && Moved(s, t, Some(owner), Some(contract), amount)
      && notice == Some(Notice(contract, sender, amount, payload))
    case BurnFrom(owner, amount) =>
      && t == s.(balances := t.balances, supply := t.supply, allowances := t.allowances, bySpender := t.bySpender)
      && Used(s, t, owner, sender, amount) && t.supply + amount == s.supply
      && Moved(s, t, Some(owner), None, amount) && notice == None
    case UpdateMinter(minter) =>
      && s.mint.Some? && notice == None
      && t == s.(mint := if minter == None then None else Some(MinterData(minter.value, s.mint.value.cap)))
  }

  lemma MoveExactly(s: State, from: Addr, to: Addr, amount: Uint128)
    requires Sum(s.balances) <= U128_MAX
    ensures var r := Move(s.balances, from, to, amount);
            && (r.Ok? <==> amount <= Held(s, from))
            && (r.Ok? ==> forall t: State | t.balances == r.value :: Moved(s, t, Some(from), Some(to), amount))
  {
    hide Move;
    MoveResult(s.balances, from, to, amount);
    if Move(s.balances, from, to, amount).Ok? {
      forall t: State | t.balances == Move(s.balances, from, to, amount).value
        ensures Moved(s, t, Some(from), Some(to), amount)
      {
        assert forall a: Addr :: BalanceOf(t.balances, a) == Held(t, a) && BalanceOf(s.balances, a) == Held(s, a);
      }
    }
  }

  lemma MintExactly(s: State, api: string -> bool, sender: Addr, to: string, amount: Uint128)
    requires Sound(s)
    ensures var r := ExecuteMint(s, api, sender, to, amount);
            && (r.Ok? <==> IsMinter(s, sender) && api(to) && s.supply + amount <= U128_MAX
                           && (s.mint.value.cap.Some? ==> s.supply + amount <= s.mint.value.cap.value))
            && (r.Ok? ==> r.value == s.(balances := r.value.balances, supply := r.value.supply)
                          && r.value.supply == s.supply + amount && Moved(s, r.value, None, Some(to), amount))
  {
    hide Mirrored, NoSelfAllowance;
    MintResult(s, api, sender, to, amount);
    HoldingAtMostSum(s.balances, to);
  }

  lemma BurnExactly(s: State, owner: Addr, amount: Uint128)
    requires Supplied(s)
    ensures var r := ExecuteBurn(s, owner, amount);
            && (r.Ok? <==> amount <= Held(s, owner))
            && (r.Ok? ==> r.value == s.(balances := r.value.balances, supply := r.value.supply)
                          && r.value.supply + amount == s.supply && Moved(s, r.value, Some(owner), None, amount))
  {
    hide ExecuteBurn, Supplied;
    BurnResult(s, owner, amount);
    var r := ExecuteBurn(s, owner, amount);
    if r.Ok? {
      assert forall a: Addr ::
               BalanceOf(r.value.balances, a) == Held(r.value, a) && BalanceOf(s.balances, a) == Held(s, a);
    }
  }

  lemma MirroredEntry(s: State, owner: Addr, spender: Addr)
    requires Mirrored(s)
    ensures Entry(s.bySpender, (spender, owner)) == Entry(s.allowances, (owner, spender))
  {
    assert Entry(s.bySpender, Reverse((owner, spender))) == Entry(s.allowances, (owner, spender));
  }

  lemma GrantsExactly(s: State, api: string -> bool, now: Block, sender: Addr, msg: Msg)
    requires Sound(s) && (msg.IncreaseAllowance? || msg.DecreaseAllowance?)
    ensures var r := Handle(s, api, now, sender, msg);
            && (r.Ok? <==> Accepts(s, api, now, sender, msg))
            && (r.Ok? ==> Done(s, sender, msg, r.value.0, r.value.1))
  {
    MirroredEntry(s, sender, msg.spender);
    hide Supplied, Capped, Mirrored, NoSelfAllowance;
  }

  lemma UseExactly(s: State, api: string -> bool, now: Block, owner: Addr, spender: Addr, amount: Uint128)
    requires Sound(s)
    ensures var r := DeductAllowance(s, now, owner, spender, amount);
            && (r.Ok? <==> (owner, spender) in s.allowances && !s.allowances[(owner, spender)].expires.IsExpired(now)
                           && amount <= Allowed(s, owner, spender))
            && (r.Ok? ==> r.value == s.(allowances := r.value.allowances, bySpender := r.value.bySpender)
                          && Used(s, r.value, owner, spender, amount))
  {
    MirroredEntry(s, owner, spender);
    hide Supplied, Capped, Mirrored, NoSelfAllowance;
  }

  lemma SpendsExactly(s: State, api: string -> bool, now: Block, sender: Addr, msg: Msg)
    requires Sound(s) && (msg.TransferFrom? || msg.SendFrom? || msg.BurnFrom?)
    ensures var r := Handle(s, api, now, sender, msg);
            && (r.Ok? <==> Accepts(s, api, now, sender, msg))
            && (r.Ok? ==> Done(s, sender, msg, r.value.0, r.value.1))
  {
    hide Supplied, Capped, Mirrored, NoSelfAllowance, DeductAllowance, Move, ExecuteBurn, Moved, Used;
    SupplyFits(s);
    UseExactly(s, api, now, msg.owner, sender, msg.amount);
    var deducted := DeductAllowance(s, now, msg.owner, sender, msg.amount);
    if deducted.Ok? {
      if msg.BurnFrom? {
        BooksOf(s, deducted.value);
        BurnExactly(deducted.value, msg.owner, msg.amount);
        if ExecuteBurn(deducted.value, msg.owner, msg.amount).Ok? {
          SameUse(s, deducted.value, ExecuteBurn(deducted.value, msg.owner, msg.amount).value, msg.owner, sender,
                  msg.amount, Some(msg.owner), None);
        }
      } else {
        var to := if msg.TransferFrom? then msg.recipient else msg.contract;
        MoveExactly(s, msg.owner, to, msg.amount);
        var moved := Move(s.balances, msg.owner, to, msg.amount);
        if moved.Ok? {
          SameUse(s, deducted.value, deducted.value.(balances := moved.value), msg.owner, sender, msg.amount,
                  None, None);
        }
      }
    }
  }

  lemma SupplyFits(s: State)
    requires Supplied(s)
    ensures Sum(s.balances) <= U128_MAX
  {
  }

  lemma BooksOf(s: State, t: State)
    requires Supplied(s) && t == s.(allowances := t.allowances, bySpender := t.bySpender)
    ensures Supplied(t) && forall a: Addr :: Held(t, a) == Held(s, a)
  {
  }

  /** Nothing but the maps of allowances matters to a use, and nothing but balances to a move. */
  lemma SameUse(s: State, t: State, u: State, owner: Addr, spender: Addr, amount: Uint128, from: Option<Addr>,
                to: Option<Addr>)
    requires Used(s, t, owner, spender, amount) && t == s.(allowances := t.allowances, bySpender := t.bySpender)
    requires u.allowances == t.allowances && u.bySpender == t.bySpender
    ensures Used(s, u, owner, spender, amount)
    ensures Moved(t, u, from, to, amount) ==> Moved(s, u, from, to, amount)
  {
  }

  /** Every call of a sound token, which it is in every run, exactly. */
  lemma CallOfSound(s: State, api: string -> bool, now: Block, sender: Addr, msg: Msg)
    requires Sound(s)
    ensures var r := Handle(s, api, now, sender, msg);
            && (r.Ok? <==> Accepts(s, api, now, sender, msg))
            && (r.Ok? ==> Done(s, sender, msg, r.value.0, r.value.1))
  {
    hide Supplied, Capped, Mirrored, NoSelfAllowance, Move, ExecuteBurn, ExecuteMint, Moved, Used, AllowanceIs;
    SupplyFits(s);
    match msg
    case Transfer(to, amount) => MoveExactly(s, sender, to, amount);
    case Send(contract, amount, _) => MoveExactly(s, sender, contract, amount);
    case Burn(amount) => BurnExactly(s, sender, amount);
    case Mint(to, amount) => MintExactly(s, api, sender, to, amount);
    case IncreaseAllowance(_, _, _) => GrantsExactly(s, api, now, sender, msg);
    case DecreaseAllowance(_, _, _) => GrantsExactly(s, api, now, sender, msg);
    case UpdateMinter(_) =>
    case _ => SpendsExactly(s, api, now, sender, msg);
  }

  lemma CallExactly(api: string -> bool, w: World, origin: Origin, events: seq<Event>, sender: Addr, msg: Msg)
    requires StartsFrom(api, w, origin)
    ensures var v := Run(api, w, events);
            var r := Handle(v.token, api, v.now, sender, msg);
            && (r.Ok? <==> Accepts(v.token, api, v.now, sender, msg))
            && (r.Ok? ==> Done(v.token, sender, msg, r.value.0, r.value.1))
  {
    hide Run, StartsFrom, Sound, Handle, Accepts, Done;
    StartInv(api, w, origin);
    RunKeeps(api, w, events);
    CallOfSound(Run(api, w, events).token, api, Run(api, w, events).now, sender, msg);
  }

  // ------------------------------------------------------------ instantiation

  function Listed(accounts: seq<Account>): nat {
    if accounts == [] then 0 else accounts[0].amount + Listed(accounts[1..])
  }

  lemma {:induction false} OpensExactly(api: string -> bool, ledger: Ledger, accounts: seq<Account>)
    ensures var r := OpenAll(api, ledger, accounts);
            && (r.Ok? <==> (forall x | x in accounts :: api(x.address))
                           && ledger.supply + Listed(accounts) <= U128_MAX)
            && (r.Ok? ==> r.value.supply == ledger.supply + Listed(accounts)
                          && r.value.balances.Keys == ledger.balances.Keys + set x | x in accounts :: x.address)
    decreases |accounts|
  {
    if accounts != [] {
      var x, rest := accounts[0], accounts[1..];
      assert accounts == [x] + rest;
      if api(x.address) && ledger.supply + x.amount <= U128_MAX {
        OpensExactly(api, Ledger(ledger.balances[x.address := x.amount], ledger.supply + x.amount), rest);
      }
    }
  }

  /** A new token: when it can be made, and that it has the listed accounts and no others, the
      minter with the cap that was asked for, and no allowance. */
  lemma InstantiateExactly(api: string -> bool, checks: Checks, accounts: seq<Account>,
                           minter: Option<(string, Option<Uint128>)>)
    ensures var r := Instantiate(api, checks, accounts, minter);
            && (r.Ok? <==>
                  && checks.infoValid && checks.marketingValid
                  && (forall i, j | 0 <= i < j < |accounts| :: accounts[i].address != accounts[j].address)
                  && (forall x | x in accounts :: api(x.address)) && Listed(accounts) <= U128_MAX
                  && (minter.Some? ==> api(minter.value.0))
                  && (minter.Some? && minter.value.1.Some? ==> Listed(accounts) <= minter.value.1.value))
            && (r.Ok? ==>
                  var s := r.value;
                  && s.supply == Listed(accounts) && s.allowances == map[] && s.bySpender == map[]
                  && s.balances.Keys == (set x | x in accounts :: x.address)
                  && (forall x | x in accounts :: Held(s, x.address) == x.amount)
                  && s.mint == (if minter == None then None else Some(MinterData(minter.value.0, minter.value.1))))
  {
    hide OpenAll, Distinct, Addresses, Sound;
    OpensExactly(api, Ledger(map[], 0), accounts);
    InstantiateResult(api, checks, accounts, minter);
    DistinctMeans(accounts);
  }

  lemma DistinctMeans(accounts: seq<Account>)
    ensures Distinct(Addresses(accounts), ITSELF)
            <==> forall i, j | 0 <= i < j < |accounts| :: accounts[i].address != accounts[j].address
  {
    assert forall i | 0 <= i < |accounts| :: ITSELF(Addresses(accounts)[i]) == accounts[i].address;
  }

  /** A migration from a version without a mirror writes one entry into it for each allowance,
      and any other migration nothing. */
  lemma MigrateExactly(s: State, legacy: bool)
    ensures var t := Migrate(s, legacy);
            && t == s.(bySpender := t.bySpender)
            && (!legacy ==> t == s)
            && (legacy ==> forall owner: Addr, spender: Addr ::
                  Entry(t.bySpender, (spender, owner)) ==
                    if (owner, spender) in s.allowances then Some(s.allowances[(owner, spender)])
                    else Entry(s.bySpender, (spender, owner)))
  {
    if legacy {
      forall owner: Addr, spender: Addr
        ensures Entry(Migrate(s, legacy).bySpender, (spender, owner)) ==
                  if (owner, spender) in s.allowances then Some(s.allowances[(owner, spender)])
                  else Entry(s.bySpender, (spender, owner))
      {
        TransposedAt(s.allowances, (spender, owner));
      }
    }
  }
}
