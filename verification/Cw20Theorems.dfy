/** Runs of the cw20 token: supply and balances agree, the cap holds, the two allowance
    maps mirror each other, and every allowance is accounted for. */
module Cw20Theorems {
  import opened Prelude
  import opened Sums
  import opened Sorting
  import opened Cw20Base

  /** The token, with what every owner granted to, revoked from and lost to every spender. */
  datatype World = World(
    token: State,
    now: Block,
    granted: map<Pair, nat>,
    revoked: map<Pair, nat>,
    spent: map<Pair, nat>)

  datatype Event = Call(sender: Addr, msg: Msg) | Tick(later: Block) | Upgrade(legacy: bool)

  function Remaining(s: State, p: Pair): nat {
    if p in s.allowances then s.allowances[p].amount else 0
  }

  function Plus(ledger: map<Pair, nat>, p: Pair, amount: nat): map<Pair, nat> {
    ledger[p := Get(ledger, p) + amount]
  }

  function Min(a: nat, b: nat): nat {
    if a < b then a else b
  }

  /** What a successful call means for the ledgers of allowances. */
  function Record(w: World, sender: Addr, msg: Msg): World {
    match msg
    case IncreaseAllowance(spender, amount, _) => w.(granted := Plus(w.granted, (sender, spender), amount))
    case DecreaseAllowance(spender, amount, _) =>
      w.(revoked := Plus(w.revoked, (sender, spender), Min(amount, Remaining(w.token, (sender, spender)))))
    case TransferFrom(owner, _, amount) => w.(spent := Plus(w.spent, (owner, sender), amount))
    case BurnFrom(owner, amount) => w.(spent := Plus(w.spent, (owner, sender), amount))
    case SendFrom(owner, _, amount, _) => w.(spent := Plus(w.spent, (owner, sender), amount))
    case _ => w
  }

  function Apply(api: string -> bool, w: World, e: Event): World {
    match e
    case Tick(later) => if w.now.NotAfter(later) then w.(now := later) else w
    case Upgrade(legacy) => w.(token := Migrate(w.token, legacy))
    case Call(sender, msg) =>
      var r := Handle(w.token, api, w.now, sender, msg);
      if r.Err? then w else Record(w, sender, msg).(token := r.value.0)
  }

  function Run(api: string -> bool, w: World, events: seq<Event>): World
    decreases |events|
  {
    if events == [] then w else Run(api, Apply(api, w, events[0]), events[1..])
  }

  // -------------------------------------------------------------- invariants

  ghost predicate Supplied(s: State) {
    Sum(s.balances) == s.supply
  }

  predicate Capped(s: State) {
    !AboveCap(s.supply, CapOf(s.mint))
  }

  /** The spender-keyed map is the exact transpose of the owner-keyed one. */
  ghost predicate Mirrored(s: State) {
    forall p: Pair :: Entry(s.bySpender, Reverse(p)) == Entry(s.allowances, p)
  }

  ghost predicate NoSelfAllowance(s: State) {
    forall a: Addr :: (a, a) !in s.allowances
  }

  /** All that was granted is still there, was spent, or was revoked. */
  predicate Accounted(w: World, p: Pair) {
    Get(w.granted, p) == Remaining(w.token, p) + Get(w.spent, p) + Get(w.revoked, p)
  }

  ghost predicate Sound(s: State) {
    Supplied(s) && Capped(s) && Mirrored(s) && NoSelfAllowance(s)
  }

  ghost predicate Inv(w: World) {
    Sound(w.token) && forall p: Pair :: Accounted(w, p)
  }

  // ----------------------------------------------------------- moving tokens

  lemma HoldingAtMostSum(balances: Balances, a: Addr)
    ensures BalanceOf(balances, a) <= Sum(balances)
  {
    SumAtLeast(balances, a);
  }

  lemma WithdrawResult(balances: Balances, a: Addr, amount: Uint128)
    ensures var r := Withdraw(balances, a, amount);
            && (r.Ok? <==> amount <= BalanceOf(balances, a))
            && (r.Err? ==> r.error == Overflow)
            && (r.Ok? ==> Sum(r.value) + amount == Sum(balances)
                          && forall b: Addr :: BalanceOf(r.value, b) + (if b == a then amount else 0)
                                               == BalanceOf(balances, b))
  {
    if amount <= BalanceOf(balances, a) {
      SumUpdate(balances, a, BalanceOf(balances, a) - amount);
    }
  }

  lemma DepositResult(balances: Balances, a: Addr, amount: Uint128)
    requires Sum(balances) + amount <= U128_MAX
    ensures var r := Deposit(balances, a, amount);
            && r.Ok? && Sum(r.value) == Sum(balances) + amount
            && forall b: Addr :: BalanceOf(r.value, b) == BalanceOf(balances, b) + if b == a then amount else 0
  {
    HoldingAtMostSum(balances, a);
    SumUpdate(balances, a, BalanceOf(balances, a) + amount);
  }

  /** Moving tokens: it fails for want of funds only, the receiving addition never traps,
      the sum stays, and the two ends change by the amount, even where they are one. */
  lemma MoveResult(balances: Balances, from: Addr, to: Addr, amount: Uint128)
    requires Sum(balances) <= U128_MAX
    ensures var r := Move(balances, from, to, amount);
            && (r.Ok? <==> amount <= BalanceOf(balances, from))
            && (r.Err? ==> r.error == Overflow)
            && (r.Ok? ==> Sum(r.value) == Sum(balances)
                          && forall a: Addr :: BalanceOf(r.value, a) + (if a == from then amount else 0)
                                               == BalanceOf(balances, a) + (if a == to then amount else 0))
  {
    WithdrawResult(balances, from, amount);
    if amount <= BalanceOf(balances, from) {
      DepositResult(Withdraw(balances, from, amount).value, to, amount);
    }
  }

  lemma BurnResult(s: State, owner: Addr, amount: Uint128)
    requires Supplied(s)
    ensures var r := ExecuteBurn(s, owner, amount);
            && (r.Ok? <==> amount <= BalanceOf(s.balances, owner))
            && (r.Err? ==> r.error == Overflow)
            && (r.Ok? ==> Supplied(r.value) && r.value.supply + amount == s.supply
                          && r.value == s.(balances := r.value.balances, supply := r.value.supply)
                          && forall a: Addr :: BalanceOf(r.value.balances, a) + (if a == owner then amount else 0)
                                               == BalanceOf(s.balances, a))
  {
    hide Withdraw;
    WithdrawResult(s.balances, owner, amount);
    HoldingAtMostSum(s.balances, owner);
  }

  lemma MintResult(s: State, api: string -> bool, sender: Addr, recipient: string, amount: Uint128)
    requires Supplied(s)
    ensures var r := ExecuteMint(s, api, sender, recipient, amount);
            && (r == Err(Panic) <==> MayMint(s, sender) && s.supply + amount > U128_MAX)
            && (r.Ok? ==> Supplied(r.value) && Capped(r.value)
                          && r.value == s.(balances := r.value.balances, supply := r.value.supply)
                          && r.value.supply == s.supply + amount
                          && forall a: Addr :: BalanceOf(r.value.balances, a)
                                               == BalanceOf(s.balances, a) + if a == recipient then amount else 0)
  {
    hide Deposit;
    if s.supply + amount <= U128_MAX {
      DepositResult(s.balances, recipient, amount);
    }
  }

  // -------------------------------------------------------------- allowances

  /** A pair of updates at the two keys of one pair, with the same new entry. */
  ghost predicate OneEntry(s: State, t: State, p: Pair) {
    && (forall q: Pair | q != p :: Entry(t.allowances, q) == Entry(s.allowances, q))
    && (forall q: Pair | q != p :: Entry(t.bySpender, Reverse(q)) == Entry(s.bySpender, Reverse(q)))
    && Entry(t.bySpender, Reverse(p)) == Entry(t.allowances, p)
  }

  lemma MirrorStays(s: State, t: State, p: Pair)
    requires Mirrored(s) && OneEntry(s, t, p)
    ensures Mirrored(t)
  {
    hide Entry, Reverse;
    forall q: Pair
      ensures Entry(t.bySpender, Reverse(q)) == Entry(t.allowances, q)
    {
      assert Entry(s.bySpender, Reverse(q)) == Entry(s.allowances, q);
    }
  }

  lemma EntrySet(s: State, p: Pair, a: Allowance)
    ensures OneEntry(s, s.(allowances := s.allowances[p := a], bySpender := s.bySpender[Reverse(p) := a]), p)
  {
  }

  lemma EntryRemoved(s: State, p: Pair)
    ensures OneEntry(s, s.(allowances := s.allowances - {p}, bySpender := s.bySpender - {Reverse(p)}), p)
  {
  }

  /** Both maps hold the same entry, so the second update does what the first did. */
  lemma IncreaseResult(s: State, api: string -> bool, block: Block, sender: Addr,
                       spender: string, amount: Uint128, expires: Option<Expiration>)
    requires Mirrored(s) && NoSelfAllowance(s)
    ensures var p := (sender, spender);
            var r := ExecuteIncrease(s, api, block, sender, spender, amount, expires);
            && (r == Err(Panic) <==>
                  && api(spender) && spender != sender
                  && !(expires.Some? && expires.value.IsExpired(block))
                  && Remaining(s, p) + amount > U128_MAX)
            && (r.Ok? ==>
                  && Mirrored(r.value) && NoSelfAllowance(r.value)
                  && r.value == s.(allowances := r.value.allowances, bySpender := r.value.bySpender)
                  && OneEntry(s, r.value, p) && Remaining(r.value, p) == Remaining(s, p) + amount)
  {
    var p := (sender, spender);
    var r := ExecuteIncrease(s, api, block, sender, spender, amount, expires);
    assert Entry(s.bySpender, Reverse(p)) == Entry(s.allowances, p);
    hide Mirrored, Reverse, OneEntry;
    if r.Ok? {
      EntrySet(s, p, r.value.allowances[p]);
      MirrorStays(s, r.value, p);
    }
  }

  lemma DecreaseResult(s: State, api: string -> bool, block: Block, sender: Addr,
                       spender: string, amount: Uint128, expires: Option<Expiration>)
    requires Mirrored(s) && NoSelfAllowance(s)
    ensures var p := (sender, spender);
            var r := ExecuteDecrease(s, api, block, sender, spender, amount, expires);
            && r != Err(Panic)
            && (r.Ok? ==>
                  && Mirrored(r.value) && NoSelfAllowance(r.value)
                  && r.value == s.(allowances := r.value.allowances, bySpender := r.value.bySpender)
                  && OneEntry(s, r.value, p)
                  && Remaining(r.value, p) + Min(amount, Remaining(s, p)) == Remaining(s, p))
  {
    var p := (sender, spender);
    var r := ExecuteDecrease(s, api, block, sender, spender, amount, expires);
    hide Mirrored, Reverse, OneEntry;
    if r.Ok? {
      if amount < s.allowances[p].amount {
        EntrySet(s, p, r.value.allowances[p]);
      } else {
        EntryRemoved(s, p);
      }
      MirrorStays(s, r.value, p);
    }
  }

  lemma DeductResult(s: State, block: Block, owner: Addr, spender: Addr, amount: Uint128)
    requires Mirrored(s) && NoSelfAllowance(s)
    ensures var p := (owner, spender);
            var r := DeductAllowance(s, block, owner, spender, amount);
            && r != Err(Panic)
            && (r.Ok? <==> p in s.allowances && !s.allowances[p].expires.IsExpired(block) && amount <= Remaining(s, p))
            && (r.Ok? ==>
                  && Mirrored(r.value) && NoSelfAllowance(r.value)
                  && r.value == s.(allowances := r.value.allowances, bySpender := r.value.bySpender)
                  && OneEntry(s, r.value, p) && Remaining(r.value, p) + amount == Remaining(s, p))
  {
    var p := (owner, spender);
    var r := DeductAllowance(s, block, owner, spender, amount);
    assert Entry(s.bySpender, Reverse(p)) == Entry(s.allowances, p);
    hide Mirrored, Reverse, OneEntry;
    if r.Ok? {
      EntrySet(s, p, r.value.allowances[p]);
      MirrorStays(s, r.value, p);
    }
  }

  // ------------------------------------------------------------------- steps

  /** The ledger entry of an owner and spender that a call is about, and by how much it
      changes what remains. */
  function PairOf(sender: Addr, msg: Msg): Option<Pair> {
    match msg
    case IncreaseAllowance(spender, _, _) => Some((sender, spender))
    case DecreaseAllowance(spender, _, _) => Some((sender, spender))
    case TransferFrom(owner, _, _) => Some((owner, sender))
    case BurnFrom(owner, _) => Some((owner, sender))
    case SendFrom(owner, _, _, _) => Some((owner, sender))
    case _ => None
  }

  lemma TransferFromResult(s: State, api: string -> bool, block: Block, sender: Addr,
                           owner: string, recipient: string, amount: Uint128)
    requires Sound(s)
    ensures var p := (owner, sender);
            var r := ExecuteTransferFrom(s, api, block, sender, owner, recipient, amount);
            && r != Err(Panic)
            && (r.Ok? <==>
                  && api(recipient) && api(owner) && p in s.allowances
                  && !s.allowances[p].expires.IsExpired(block)
                  && amount <= Remaining(s, p) && amount <= BalanceOf(s.balances, owner))
            && (r.Ok? ==>
                  && Sound(r.value) && OneEntry(s, r.value, p) && Remaining(r.value, p) + amount == Remaining(s, p)
                  && r.value.supply == s.supply && r.value.mint == s.mint
                  && r.value.balances == Move(s.balances, owner, recipient, amount).value)
  {
    hide Mirrored, NoSelfAllowance, OneEntry, Move, DeductAllowance;
    DeductResult(s, block, owner, sender, amount);
    MoveResult(s.balances, owner, recipient, amount);
    var r := ExecuteTransferFrom(s, api, block, sender, owner, recipient, amount);
    if r.Ok? {
      SameMaps(DeductAllowance(s, block, owner, sender, amount).value, r.value, s, (owner, sender));
    }
  }

  lemma BurnFromResult(s: State, api: string -> bool, block: Block, sender: Addr, owner: string, amount: Uint128)
    requires Sound(s)
    ensures var p := (owner, sender);
            var r := ExecuteBurnFrom(s, api, block, sender, owner, amount);
            && r != Err(Panic)
            && (r.Ok? <==>
                  && api(owner) && p in s.allowances && !s.allowances[p].expires.IsExpired(block)
                  && amount <= Remaining(s, p) && amount <= BalanceOf(s.balances, owner))
            && (r.Ok? ==>
                  && Sound(r.value) && OneEntry(s, r.value, p) && Remaining(r.value, p) + amount == Remaining(s, p)
                  && r.value.supply + amount == s.supply && r.value.mint == s.mint
                  && forall a: Addr :: BalanceOf(r.value.balances, a) + (if a == owner then amount else 0)
                                       == BalanceOf(s.balances, a))
  {
    hide Mirrored, NoSelfAllowance, OneEntry, ExecuteBurn, DeductAllowance;
    DeductResult(s, block, owner, sender, amount);
    var deducted := DeductAllowance(s, block, owner, sender, amount);
    if deducted.Ok? {
      BurnResult(deducted.value, owner, amount);
    }
    var r := ExecuteBurnFrom(s, api, block, sender, owner, amount);
    if r.Ok? {
      SameMaps(deducted.value, r.value, s, (owner, sender));
    }
  }

  /** Nothing said about the allowance maps depends on the rest of the state. */
  lemma SameMaps(t: State, u: State, s: State, p: Pair)
    requires u.allowances == t.allowances && u.bySpender == t.bySpender
    ensures Mirrored(u) == Mirrored(t) && NoSelfAllowance(u) == NoSelfAllowance(t)
    ensures OneEntry(s, u, p) == OneEntry(s, t, p)
    ensures Remaining(u, p) == Remaining(t, p)
  {
    hide Entry, Reverse;
  }

  lemma TransferResult(s: State, api: string -> bool, sender: Addr, recipient: string, amount: Uint128)
    requires Sound(s)
    ensures var r := ExecuteTransfer(s, api, sender, recipient, amount);
            && r != Err(Panic)
            && (r.Ok? <==> api(recipient) && amount <= BalanceOf(s.balances, sender))
            && (r.Ok? ==> Sound(r.value) && r.value == s.(balances := r.value.balances)
                          && r.value.balances == Move(s.balances, sender, recipient, amount).value)
  {
    hide Mirrored, NoSelfAllowance, Move;
    MoveResult(s.balances, sender, recipient, amount);
    var r := ExecuteTransfer(s, api, sender, recipient, amount);
    if r.Ok? {
      SameMaps(s, r.value, s, (sender, recipient));
    }
  }

  /** Every call keeps the token sound; only the pair that the call is about can change. */
  lemma HandleKeeps(s: State, api: string -> bool, block: Block, sender: Addr, msg: Msg)
    requires Sound(s) && Handle(s, api, block, sender, msg).Ok?
    ensures var t := Handle(s, api, block, sender, msg).value.0;
            && Sound(t)
            && match PairOf(sender, msg)
               case None => t.allowances == s.allowances && t.bySpender == s.bySpender
               case Some(p) => OneEntry(s, t, p)
  {
    hide Mirrored, NoSelfAllowance, OneEntry, Supplied, Move, ExecuteTransfer, ExecuteBurn, ExecuteMint,
         ExecuteIncrease, ExecuteDecrease, ExecuteTransferFrom, ExecuteBurnFrom, AboveCap;
    var t := Handle(s, api, block, sender, msg).value.0;
    match msg
    case Transfer(recipient, amount) => TransferResult(s, api, sender, recipient, amount);
    case Burn(amount) =>
      BurnResult(s, sender, amount);
      LessIsCapped(s, t);
      SameMaps(s, t, s, (sender, sender));
    case Send(contract, amount, _) => TransferResult(s, api, sender, contract, amount);
    case Mint(recipient, amount) =>
      MintResult(s, api, sender, recipient, amount);
      SameMaps(s, t, s, (sender, sender));
    case IncreaseAllowance(spender, amount, expires) =>
      IncreaseResult(s, api, block, sender, spender, amount, expires);
      SameBooks(s, t);
    case DecreaseAllowance(spender, amount, expires) =>
      DecreaseResult(s, api, block, sender, spender, amount, expires);
      SameBooks(s, t);
    case TransferFrom(owner, recipient, amount) =>
      TransferFromResult(s, api, block, sender, owner, recipient, amount);
    case BurnFrom(owner, amount) =>
      BurnFromResult(s, api, block, sender, owner, amount);
    case SendFrom(owner, contract, amount, _) =>
      TransferFromResult(s, api, block, sender, owner, contract, amount);
    case UpdateMinter(minter) =>
      MinterKeepsBooks(s, api, sender, minter);
      SameMaps(s, t, s, (sender, sender));
  }

  lemma LessIsCapped(s: State, t: State)
    requires Capped(s) && t.supply <= s.supply && t.mint == s.mint
    ensures Capped(t)
  {
  }

  lemma SameBooks(s: State, t: State)
    requires t == s.(allowances := t.allowances, bySpender := t.bySpender)
    ensures Supplied(t) == Supplied(s) && Capped(t) == Capped(s)
  {
  }

  lemma MinterKeepsBooks(s: State, api: string -> bool, sender: Addr, minter: Option<string>)
    requires Supplied(s) && Capped(s)
    ensures var r := ExecuteUpdateMinter(s, api, sender, minter);
            r.Ok? ==> Supplied(r.value) && Capped(r.value) && r.value == s.(mint := r.value.mint)
                      && (r.value.mint.Some? ==> CapOf(r.value.mint) == CapOf(s.mint))
  {
  }

  lemma CallAccounted(api: string -> bool, w: World, sender: Addr, msg: Msg, p: Pair)
    requires Sound(w.token) && Accounted(w, p) && Handle(w.token, api, w.now, sender, msg).Ok?
    ensures Accounted(Apply(api, w, Call(sender, msg)), p)
  {
    hide Sound, OneEntry, Handle, Remaining;
    var s, t := w.token, Handle(w.token, api, w.now, sender, msg).value.0;
    HandleKeeps(s, api, w.now, sender, msg);
    if PairOf(sender, msg) == Some(p) {
      ChangeRecorded(api, w, sender, msg, p);
    } else if PairOf(sender, msg).Some? {
      OtherPairStays(s, t, PairOf(sender, msg).value, p);
    } else {
      assert Remaining(t, p) == Remaining(s, p) by {
        SameRemaining(s, t, p);
      }
    }
  }

  lemma SameRemaining(s: State, t: State, p: Pair)
    requires t.allowances == s.allowances
    ensures Remaining(t, p) == Remaining(s, p)
  {
  }

  /** What the ledgers record about the pair of a call is what became of its allowance. */
  lemma ChangeRecorded(api: string -> bool, w: World, sender: Addr, msg: Msg, p: Pair)
    requires Sound(w.token) && Handle(w.token, api, w.now, sender, msg).Ok? && PairOf(sender, msg) == Some(p)
    ensures var v := Record(w, sender, msg);
            var t := Handle(w.token, api, w.now, sender, msg).value.0;
            Get(v.granted, p) - Get(w.granted, p) + Remaining(w.token, p) ==
            Remaining(t, p) + Get(v.spent, p) - Get(w.spent, p) + Get(v.revoked, p) - Get(w.revoked, p)
  {
    hide Mirrored, NoSelfAllowance, Supplied, Capped, OneEntry, Remaining, ExecuteTransfer, ExecuteBurn, ExecuteMint,
         ExecuteUpdateMinter, ExecuteIncrease, ExecuteDecrease, ExecuteTransferFrom, ExecuteBurnFrom;
    var s, block := w.token, w.now;
    match msg
    case IncreaseAllowance(spender, amount, expires) =>
      IncreaseResult(s, api, block, sender, spender, amount, expires);
    case DecreaseAllowance(spender, amount, expires) =>
      DecreaseResult(s, api, block, sender, spender, amount, expires);
    case TransferFrom(owner, recipient, amount) =>
      TransferFromResult(s, api, block, sender, owner, recipient, amount);
    case BurnFrom(owner, amount) =>
      BurnFromResult(s, api, block, sender, owner, amount);
    case SendFrom(owner, contract, amount, _) =>
      TransferFromResult(s, api, block, sender, owner, contract, amount);
  }

  lemma OtherPairStays(s: State, t: State, q: Pair, p: Pair)
    requires OneEntry(s, t, q) && p != q
    ensures Remaining(t, p) == Remaining(s, p)
  {
    assert Entry(t.allowances, p) == Entry(s.allowances, p);
  }

  /** After a migration the mirror is exact if and only if it held no entry of its own
      before; an empty one, as versions before 0.14 left it, holds none. */
  lemma MigrateMirrorsExactly(s: State)
    ensures Mirrored(Migrate(s, true)) <==> forall k | k in s.bySpender :: Reverse(k) in s.allowances
  {
    var t := Migrate(s, true);
    forall p: Pair
      ensures Entry(t.bySpender, Reverse(p)) ==
              if p in s.allowances then Some(s.allowances[p]) else Entry(s.bySpender, Reverse(p))
    {
      TransposedAt(s.allowances, Reverse(p));
      ReverseTwice(p);
    }
    hide Transposed, Reverse;
    if Mirrored(t) {
      forall k | k in s.bySpender
        ensures Reverse(k) in s.allowances
      {
        ReverseTwice(k);
        assert Entry(t.bySpender, Reverse(Reverse(k))) == Entry(t.allowances, Reverse(k));
      }
    }
    if forall k | k in s.bySpender :: Reverse(k) in s.allowances {
      forall p: Pair
        ensures Entry(t.bySpender, Reverse(p)) == Entry(t.allowances, p)
      {
        ReverseTwice(p);
      }
    }
  }

  /** Migrating a token whose mirror is exact changes nothing. */
  lemma MigrateAgain(s: State, legacy: bool)
    requires Mirrored(s)
    ensures Migrate(s, legacy) == s
  {
    var t := Transposed(s.allowances);
    forall k | k in t
      ensures k in s.bySpender && s.bySpender[k] == t[k]
    {
      TransposedAt(s.allowances, k);
      ReverseTwice(k);
      assert Entry(s.bySpender, Reverse(Reverse(k))) == Entry(s.allowances, Reverse(k));
    }
    assert s.bySpender + t == s.bySpender;
  }

  lemma ApplyKeeps(api: string -> bool, w: World, e: Event)
    requires Inv(w)
    ensures Inv(Apply(api, w, e))
  {
    hide Supplied, Capped, Mirrored, NoSelfAllowance, Migrate, Handle, Record;
    match e
    case Tick(later) =>
      SameAccounts(w, Apply(api, w, e));
    case Upgrade(legacy) =>
      MigrateAgain(w.token, legacy);
    case Call(sender, msg) =>
      if Handle(w.token, api, w.now, sender, msg).Ok? {
        HandleKeeps(w.token, api, w.now, sender, msg);
        forall p: Pair
          ensures Accounted(Apply(api, w, e), p)
        {
          CallAccounted(api, w, sender, msg, p);
        }
      }
  }

  lemma SameAccounts(w: World, v: World)
    requires Inv(w) && v == w.(now := v.now)
    ensures Inv(v)
  {
    forall p: Pair
      ensures Accounted(v, p)
    {
      assert Accounted(w, p);
    }
  }

  lemma {:induction false} RunKeeps(api: string -> bool, w: World, events: seq<Event>)
    requires Inv(w)
    ensures Inv(Run(api, w, events))
    decreases |events|
  {
    hide Inv, Apply;
    if events != [] {
      ApplyKeeps(api, w, events[0]);
      RunKeeps(api, Apply(api, w, events[0]), events[1..]);
    }
  }

  // ----------------------------------------------------------- where runs start

  /** A token starts as a new one, or as an upgraded one of a version without a mirror. */
  datatype Origin =
    | Created(checks: Checks, accounts: seq<Account>, minter: Option<(string, Option<Uint128>)>)
    | Upgraded(legacy: State)

  function Amounts(allowances: Allowances): map<Pair, nat> {
    map p | p in allowances :: allowances[p].amount
  }

  ghost predicate StartsFrom(api: string -> bool, w: World, origin: Origin) {
    && w.revoked == map[] && w.spent == map[]
    && match origin
       case Created(checks, accounts, minter) =>
         Instantiate(api, checks, accounts, minter) == Ok(w.token) && w.granted == map[]
       case Upgraded(legacy) =>
         && legacy.bySpender == map[] && Supplied(legacy) && Capped(legacy) && NoSelfAllowance(legacy)
         && w.token == Migrate(legacy, true) && w.granted == Amounts(legacy.allowances)
  }

  /** Opening accounts that are new and distinct: no balance is replaced, */
  lemma {:induction false} OpenAllHolds(api: string -> bool, ledger: Ledger, accounts: seq<Account>)
    requires Distinct(Addresses(accounts), ITSELF) && OpenAll(api, ledger, accounts).Ok?
    requires forall x | x in accounts :: x.address !in ledger.balances
    ensures var balances := OpenAll(api, ledger, accounts).value.balances;
            && (forall a: Addr | a in ledger.balances :: a in balances && balances[a] == ledger.balances[a])
            && (forall x | x in accounts :: x.address in balances && balances[x.address] == x.amount)
    decreases |accounts|
  {
    if accounts != [] {
      hide Distinct, Addresses;
      var x, rest := accounts[0], accounts[1..];
      AddressesCons(accounts);
      OpenAllHolds(api, Ledger(ledger.balances[x.address := x.amount], ledger.supply + x.amount), rest);
      assert accounts == [x] + rest;
    }
  }

  /** so the running total is the sum of the balances. */
  lemma {:induction false} OpenAllSums(api: string -> bool, ledger: Ledger, accounts: seq<Account>)
    requires Distinct(Addresses(accounts), ITSELF) && OpenAll(api, ledger, accounts).Ok?
    requires forall x | x in accounts :: x.address !in ledger.balances
    requires Sum(ledger.balances) == ledger.supply
    ensures var done := OpenAll(api, ledger, accounts).value; Sum(done.balances) == done.supply
    decreases |accounts|
  {
    if accounts != [] {
      hide Distinct, Addresses, Sum;
      var x := accounts[0];
      AddressesCons(accounts);
      SumUpdate(ledger.balances, x.address, x.amount);
      OpenAllSums(api, Ledger(ledger.balances[x.address := x.amount], ledger.supply + x.amount), accounts[1..]);
    }
  }

  lemma AddressesCons(accounts: seq<Account>)
    requires accounts != [] && Distinct(Addresses(accounts), ITSELF)
    ensures Distinct(Addresses(accounts[1..]), ITSELF)
    ensures forall x | x in accounts[1..] :: x.address != accounts[0].address
  {
    var all, rest := Addresses(accounts), Addresses(accounts[1..]);
    assert all == [all[0]] + rest;
    DistinctCons(all[0], rest, ITSELF);
    forall x | x in accounts[1..]
      ensures x.address != accounts[0].address
    {
      var i :| 0 <= i < |rest| && accounts[1..][i] == x;
      assert rest[i] in rest && ITSELF(rest[i]) != ITSELF(all[0]);
    }
  }

  /** A new token: repeated addresses are refused, and only they are refused with that
      error; the accounts hold what is listed, and the supply is their sum. */
  lemma InstantiateResult(api: string -> bool, checks: Checks, accounts: seq<Account>,
                          minter: Option<(string, Option<Uint128>)>)
    ensures var r := Instantiate(api, checks, accounts, minter);
            && (r == Err(DuplicateInitialBalanceAddresses) <==>
                  checks.infoValid && !Distinct(Addresses(accounts), ITSELF))
            && (r.Ok? ==> Sound(r.value) && r.value.allowances == map[]
                          && forall x | x in accounts :: BalanceOf(r.value.balances, x.address) == x.amount)
  {
    hide Distinct, OpenAll;
    if Distinct(Addresses(accounts), ITSELF) {
      OpenAllError(api, Ledger(map[], 0), accounts);
      if OpenAll(api, Ledger(map[], 0), accounts).Ok? {
        OpenAllHolds(api, Ledger(map[], 0), accounts);
        OpenAllSums(api, Ledger(map[], 0), accounts);
      }
    }
  }

  lemma {:induction false} OpenAllError(api: string -> bool, ledger: Ledger, accounts: seq<Account>)
    ensures var r := OpenAll(api, ledger, accounts); r.Err? ==> r.error == InvalidAddress || r.error == Panic
    decreases |accounts|
  {
    if accounts != [] {
      var x := accounts[0];
      if api(x.address) && ledger.supply + x.amount <= U128_MAX {
        OpenAllError(api, Ledger(ledger.balances[x.address := x.amount], ledger.supply + x.amount), accounts[1..]);
      }
    }
  }

  lemma StartInv(api: string -> bool, w: World, origin: Origin)
    requires StartsFrom(api, w, origin)
    ensures Inv(w)
  {
    hide Supplied, Capped, Mirrored, NoSelfAllowance, Migrate, Instantiate, Distinct, Addresses;
    match origin
    case Created(checks, accounts, minter) =>
      InstantiateResult(api, checks, accounts, minter);
    case Upgraded(legacy) =>
      MigrateMirrorsExactly(legacy);
      UpgradedBooks(legacy);
  }

  lemma UpgradedBooks(legacy: State)
    ensures var t := Migrate(legacy, true);
            && t.allowances == legacy.allowances
            && Supplied(t) == Supplied(legacy) && Capped(t) == Capped(legacy)
            && NoSelfAllowance(t) == NoSelfAllowance(legacy)
  {
  }

  // ------------------------------------------------------------------ results

  /** The state of the token after a run, however it started. */
  lemma SoundAlways(api: string -> bool, start: World, origin: Origin, events: seq<Event>)
    requires StartsFrom(api, start, origin)
    ensures Inv(Run(api, start, events))
  {
    StartInv(api, start, origin);
    RunKeeps(api, start, events);
  }

  /** Supply conservation: in every reachable state the balances add up to the supply, so
      no account holds more than the supply, and the supply is within the stored cap. */
  lemma SupplyConserved(api: string -> bool, start: World, origin: Origin, events: seq<Event>, a: Addr)
    requires StartsFrom(api, start, origin)
    ensures var s := Run(api, start, events).token;
            Sum(s.balances) == s.supply && BalanceOf(s.balances, a) <= s.supply && !AboveCap(s.supply, CapOf(s.mint))
  {
    SoundAlways(api, start, origin, events);
    HoldingAtMostSum(Run(api, start, events).token.balances, a);
  }

  /** The mirror is exact in every reachable state, and nobody has an allowance to spend
      from the own account. */
  lemma MirrorExact(api: string -> bool, start: World, origin: Origin, events: seq<Event>, owner: Addr, spender: Addr)
    requires StartsFrom(api, start, origin)
    ensures var s := Run(api, start, events).token;
            && Entry(s.bySpender, (spender, owner)) == Entry(s.allowances, (owner, spender))
            && (owner, owner) !in s.allowances && (owner, owner) !in s.bySpender
  {
    SoundAlways(api, start, origin, events);
    var s := Run(api, start, events).token;
    assert Entry(s.bySpender, Reverse((owner, spender))) == Entry(s.allowances, (owner, spender));
    assert Entry(s.bySpender, Reverse((owner, owner))) == Entry(s.allowances, (owner, owner));
  }

  /** Allowance accounting over every run: what an owner granted to a spender is still
      there, was revoked, or was spent. So a spender never takes more than was granted. */
  lemma AllowanceAccounting(api: string -> bool, start: World, origin: Origin, events: seq<Event>, p: Pair)
    requires StartsFrom(api, start, origin)
    ensures var w := Run(api, start, events);
            && Get(w.granted, p) == Remaining(w.token, p) + Get(w.spent, p) + Get(w.revoked, p)
            && Remaining(w.token, p) + Get(w.spent, p) <= Get(w.granted, p)
  {
    SoundAlways(api, start, origin, events);
    assert Accounted(Run(api, start, events), p);
  }

  /** Where traps can happen at all: raising an allowance or the supply beyond 128 bits. No
      receiving balance ever overflows, and no other call traps. */
  lemma TrapsExactly(api: string -> bool, start: World, origin: Origin, events: seq<Event>, sender: Addr, msg: Msg)
    requires StartsFrom(api, start, origin)
    ensures var w := Run(api, start, events);
            var s := w.token;
            Handle(s, api, w.now, sender, msg) == Err(Panic) <==>
              match msg
              case Mint(_, amount) => MayMint(s, sender) && s.supply + amount > U128_MAX
              case IncreaseAllowance(spender, amount, expires) =>
                && api(spender) && spender != sender && !(expires.Some? && expires.value.IsExpired(w.now))
                && Remaining(s, (sender, spender)) + amount > U128_MAX
              case _ => false
  {
    SoundAlways(api, start, origin, events);
    var w := Run(api, start, events);
    HandleTraps(w.token, api, w.now, sender, msg);
  }

  lemma HandleTraps(s: State, api: string -> bool, block: Block, sender: Addr, msg: Msg)
    requires Sound(s)
    ensures Handle(s, api, block, sender, msg) == Err(Panic) <==>
              match msg
              case Mint(_, amount) => MayMint(s, sender) && s.supply + amount > U128_MAX
              case IncreaseAllowance(spender, amount, expires) =>
                && api(spender) && spender != sender && !(expires.Some? && expires.value.IsExpired(block))
                && Remaining(s, (sender, spender)) + amount > U128_MAX
              case _ => false
  {
    hide Mirrored, NoSelfAllowance, OneEntry, Supplied, Move, ExecuteTransfer, ExecuteBurn, ExecuteMint,
         ExecuteIncrease, ExecuteDecrease, ExecuteTransferFrom, ExecuteBurnFrom, AboveCap;
    match msg
    case Transfer(recipient, amount) => TransferResult(s, api, sender, recipient, amount);
    case Burn(amount) => BurnResult(s, sender, amount);
    case Send(contract, amount, _) => TransferResult(s, api, sender, contract, amount);
    case Mint(recipient, amount) => MintResult(s, api, sender, recipient, amount);
    case IncreaseAllowance(spender, amount, expires) =>
      IncreaseResult(s, api, block, sender, spender, amount, expires);
    case DecreaseAllowance(spender, amount, expires) =>
      DecreaseResult(s, api, block, sender, spender, amount, expires);
    case TransferFrom(owner, recipient, amount) =>
      TransferFromResult(s, api, block, sender, owner, recipient, amount);
    case BurnFrom(owner, amount) =>
      BurnFromResult(s, api, block, sender, owner, amount);
    case SendFrom(owner, contract, amount, _) =>
      TransferFromResult(s, api, block, sender, owner, contract, amount);
    case UpdateMinter(minter) =>
  }

  /** A spender moves an owner's tokens exactly when a live allowance and the balance both
      cover them, in every reachable state; and then both go down by just that amount. */
  lemma SpendingExactly(api: string -> bool, start: World, origin: Origin, events: seq<Event>,
                        spender: Addr, owner: string, recipient: string, amount: Uint128)
    requires StartsFrom(api, start, origin)
    ensures var w := Run(api, start, events);
            var s, p := w.token, (owner, spender);
            var r := Handle(s, api, w.now, spender, TransferFrom(owner, recipient, amount));
            && (r.Ok? <==>
                  && api(recipient) && api(owner) && p in s.allowances
                  && !s.allowances[p].expires.IsExpired(w.now)
                  && amount <= Remaining(s, p) && amount <= BalanceOf(s.balances, owner))
            && (r.Ok? ==>
                  var t := r.value.0;
                  && Remaining(t, p) + amount == Remaining(s, p)
                  && forall a: Addr :: BalanceOf(t.balances, a) + (if a == owner then amount else 0)
                                       == BalanceOf(s.balances, a) + (if a == recipient then amount else 0))
  {
    hide ExecuteTransferFrom, Mirrored, NoSelfAllowance, OneEntry, Move;
    SoundAlways(api, start, origin, events);
    var w := Run(api, start, events);
    TransferFromResult(w.token, api, w.now, spender, owner, recipient, amount);
    MoveResult(w.token.balances, owner, recipient, amount);
  }

  /** The notice to a receiving contract tells what happened: a notice goes out exactly for
      a send, and names the amount that the contract's balance went up by. */
  lemma NoticeIsTrue(s: State, api: string -> bool, block: Block, sender: Addr, msg: Msg)
    requires Sound(s) && Handle(s, api, block, sender, msg).Ok?
    ensures var (t, notice) := Handle(s, api, block, sender, msg).value;
            && (notice.Some? <==> msg.Send? || msg.SendFrom?)
            && (notice.Some? ==>
                  var n := notice.value;
                  var from := if msg.SendFrom? then msg.owner else sender;
                  && n.sender == sender && n.payload == msg.payload && api(n.contract)
                  && (from != n.contract ==>
                        && BalanceOf(t.balances, n.contract) == BalanceOf(s.balances, n.contract) + n.amount
                        && BalanceOf(t.balances, from) + n.amount == BalanceOf(s.balances, from)))
  {
    hide ExecuteTransfer, ExecuteTransferFrom, ExecuteBurn, ExecuteBurnFrom, ExecuteMint, ExecuteUpdateMinter,
         ExecuteIncrease, ExecuteDecrease, Mirrored, NoSelfAllowance, OneEntry, Move, BalanceOf;
    match msg
    case Send(contract, amount, _) =>
      TransferResult(s, api, sender, contract, amount);
      MoveResult(s.balances, sender, contract, amount);
    case SendFrom(owner, contract, amount, _) =>
      TransferFromResult(s, api, block, sender, owner, contract, amount);
      MoveResult(s.balances, owner, contract, amount);
    case _ =>
  }

  /** A spender takes from an owner's account: there is a live allowance that covers it. */
  predicate TakesByAllowance(s: State, block: Block, sender: Addr, msg: Msg, owner: Addr) {
    && (msg.TransferFrom? || msg.BurnFrom? || msg.SendFrom?) && msg.owner == owner
    && (owner, sender) in s.allowances && !s.allowances[(owner, sender)].expires.IsExpired(block)
    && msg.amount <= Remaining(s, (owner, sender))
  }

  /** Nobody's tokens move but by the owner's own call, or by a spender under a live
      allowance that covers them; and never more than the call says. */
  lemma OnlyOwnerOrSpenderTakes(s: State, api: string -> bool, block: Block, sender: Addr, msg: Msg, a: Addr)
    requires Sound(s) && Handle(s, api, block, sender, msg).Ok?
    ensures var t := Handle(s, api, block, sender, msg).value.0;
            BalanceOf(t.balances, a) < BalanceOf(s.balances, a) ==>
              && (|| (a == sender && (msg.Transfer? || msg.Burn? || msg.Send?))
                  || TakesByAllowance(s, block, sender, msg, a))
              && BalanceOf(s.balances, a) - BalanceOf(t.balances, a) == msg.amount
  {
    hide ExecuteTransfer, ExecuteTransferFrom, ExecuteBurn, ExecuteBurnFrom, ExecuteMint,
         ExecuteIncrease, ExecuteDecrease, Mirrored, NoSelfAllowance, OneEntry, Move, BalanceOf;
    match msg
    case Transfer(recipient, amount) =>
      TransferResult(s, api, sender, recipient, amount);
      MoveResult(s.balances, sender, recipient, amount);
    case Burn(amount) => BurnResult(s, sender, amount);
    case Send(contract, amount, _) =>
      TransferResult(s, api, sender, contract, amount);
      MoveResult(s.balances, sender, contract, amount);
    case Mint(recipient, amount) => MintResult(s, api, sender, recipient, amount);
    case IncreaseAllowance(spender, amount, expires) =>
      IncreaseResult(s, api, block, sender, spender, amount, expires);
    case DecreaseAllowance(spender, amount, expires) =>
      DecreaseResult(s, api, block, sender, spender, amount, expires);
    case TransferFrom(owner, recipient, amount) =>
      TransferFromResult(s, api, block, sender, owner, recipient, amount);
      MoveResult(s.balances, owner, recipient, amount);
    case BurnFrom(owner, amount) => BurnFromResult(s, api, block, sender, owner, amount);
    case SendFrom(owner, contract, amount, _) =>
      TransferFromResult(s, api, block, sender, owner, contract, amount);
      MoveResult(s.balances, owner, contract, amount);
    case UpdateMinter(_) =>
  }

  /** The supply rises by a mint of the stored minter only, and by just the amount that its
      receiver gets. */
  lemma OnlyMinterMints(s: State, api: string -> bool, block: Block, sender: Addr, msg: Msg)
    requires Sound(s) && Handle(s, api, block, sender, msg).Ok?
    ensures var t := Handle(s, api, block, sender, msg).value.0;
            t.supply > s.supply ==>
              && msg.Mint? && s.mint.Some? && s.mint.value.minter == sender && t.supply == s.supply + msg.amount
              && BalanceOf(t.balances, msg.recipient) == BalanceOf(s.balances, msg.recipient) + msg.amount
  {
    hide Move, Withdraw, Deposit, Deducted, Raised, Entry, Reverse, BalanceOf;
    if msg.Mint? {
      MintResult(s, api, sender, msg.recipient, msg.amount);
    }
  }

  // ------------------------------------------------------------------ the cap

  /** The cap a token started with: it never changes hands with the minter, nor without. */
  ghost predicate UnderCap(s: State, cap: Uint128) {
    s.supply <= cap && (s.mint.Some? ==> s.mint.value.cap == Some(cap))
  }

  /** Without a minter the supply can only fall. */
  ghost predicate Closed(s: State, supply: Uint128) {
    s.mint.None? && s.supply <= supply
  }

  lemma HandleKeepsCap(s: State, api: string -> bool, block: Block, sender: Addr, msg: Msg, limit: Uint128)
    requires Handle(s, api, block, sender, msg).Ok?
    ensures var t := Handle(s, api, block, sender, msg).value.0;
            && (UnderCap(s, limit) ==> UnderCap(t, limit))
            && (Closed(s, limit) ==> Closed(t, limit))
  {
    hide Move, Withdraw, Deposit, Deducted, Raised, Entry, Reverse;
  }

  lemma {:induction false} RunKeepsCap(api: string -> bool, w: World, events: seq<Event>, limit: Uint128)
    ensures UnderCap(w.token, limit) ==> UnderCap(Run(api, w, events).token, limit)
    ensures Closed(w.token, limit) ==> Closed(Run(api, w, events).token, limit)
    decreases |events|
  {
    if events != [] {
      hide Handle, UnderCap, Closed, Record;
      var v := Apply(api, w, events[0]);
      RunKeepsCap(api, v, events[1..], limit);
      match events[0]
      case Tick(_) =>
      case Upgrade(legacy) => UpgradeKeepsCap(w.token, legacy, limit);
      case Call(sender, msg) =>
        if Handle(w.token, api, w.now, sender, msg).Ok? {
          HandleKeepsCap(w.token, api, w.now, sender, msg, limit);
        }
    }
  }

  lemma UpgradeKeepsCap(s: State, legacy: bool, limit: Uint128)
    ensures UnderCap(Migrate(s, legacy), limit) == UnderCap(s, limit)
    ensures Closed(Migrate(s, legacy), limit) == Closed(s, limit)
  {
  }

  /** The cap given at the start bounds the supply for ever, through every mint, burn and
      change of minter; and once the minter is given up, the supply never rises again. */
  lemma CapHoldsForEver(api: string -> bool, start: World, origin: Origin, events: seq<Event>, more: seq<Event>)
    requires StartsFrom(api, start, origin)
    ensures var w := Run(api, start, events);
            var v := Run(api, w, more);
            && (start.token.mint.Some? && start.token.mint.value.cap.Some? ==>
                  w.token.supply <= start.token.mint.value.cap.value)
            && (w.token.mint.None? ==> v.token.mint.None? && v.token.supply <= w.token.supply)
  {
    StartInv(api, start, origin);
    var w := Run(api, start, events);
    if start.token.mint.Some? && start.token.mint.value.cap.Some? {
      RunKeepsCap(api, start, events, start.token.mint.value.cap.value);
    }
    RunKeepsCap(api, w, more, w.token.supply);
  }
}
