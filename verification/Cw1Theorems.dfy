/** What the proxy with subkeys promises: its query predicts its execution, a batch is worth
    its messages one by one, and no subkey spends more than it was granted. */
module Cw1Theorems {
  import opened Prelude
  import opened Cw1Coins
  import opened Cw1Subkeys
  import Paging

  // -------------------------------------------------------------- predictions

  lemma OneMessage(s: State, block: Block, sender: Addr, m: CosmosMsg)
    ensures ExecuteExecute(s, block, sender, [m]) ==
            if IsAdmin(s, sender) then Ok(s) else CheckOne(s, block, sender, m)
  {
    hide IsAdmin, CheckOne;
    assert [m][1..] == [];
    var one := CheckOne(s, block, sender, m);
    if one.Ok? {
      assert CheckAll(one.value, block, sender, []) == Ok(one.value);
    }
  }

  /** The query says yes exactly if that message, executed in the same state, is relayed. It
      fails only for a string that is neither an admin nor an address at all, which can not
      be the sender of a call. */
  lemma QueryAgreesWithExecution(s: State, api: string -> bool, block: Block, sender: string, m: CosmosMsg)
    ensures var answer := CanExecute(s, api, block, sender, m);
            && (answer == Ok(true) <==>
                  (IsAdmin(s, sender) || api(sender)) && ExecuteExecute(s, block, sender, [m]).Ok?)
            && (answer.Err? <==> !IsAdmin(s, sender) && !api(sender))
  {
    hide IsAdmin, SubAll, ExecuteExecute;
    OneMessage(s, block, sender, m);
  }

  // ------------------------------------------------------------------ batches

  /** The messages of a batch as calls of their own, one after the other. */
  function OneByOne(s: State, block: Block, sender: Addr, msgs: seq<CosmosMsg>): Result<State>
    decreases |msgs|
  {
    if msgs == [] then Ok(s)
    else
      var t :- ExecuteExecute(s, block, sender, [msgs[0]]);
      OneByOne(t, block, sender, msgs[1..])
  }

  lemma CheckOneConfig(s: State, block: Block, sender: Addr, m: CosmosMsg)
    ensures var r := CheckOne(s, block, sender, m);
            r.Ok? ==> r.value == s.(allowances := r.value.allowances) && IsAdmin(r.value, sender) == IsAdmin(s, sender)
  {
  }

  /** A batch succeeds exactly if its messages, sent one by one in the same block, all
      succeed; and then it leaves the same allowances. */
  lemma {:induction false} BatchIsOneByOne(s: State, block: Block, sender: Addr, msgs: seq<CosmosMsg>)
    ensures ExecuteExecute(s, block, sender, msgs) == OneByOne(s, block, sender, msgs)
    decreases |msgs|
  {
    hide IsAdmin, CheckOne;
    if msgs != [] {
      OneMessage(s, block, sender, msgs[0]);
      CheckOneConfig(s, block, sender, msgs[0]);
      if IsAdmin(s, sender) {
        BatchIsOneByOne(s, block, sender, msgs[1..]);
      } else if CheckOne(s, block, sender, msgs[0]).Ok? {
        BatchIsOneByOne(CheckOne(s, block, sender, msgs[0]).value, block, sender, msgs[1..]);
      }
    }
  }

  /** All coins that a batch sends, in order. */
  function CoinsOf(msgs: seq<CosmosMsg>): seq<Coin>
    decreases |msgs|
  {
    if msgs == [] then []
    else (if msgs[0].BankSend? then msgs[0].coins else []) + CoinsOf(msgs[1..])
  }

  predicate Sends(msgs: seq<CosmosMsg>) {
    exists i | 0 <= i < |msgs| :: msgs[i].BankSend?
  }

  /** The flag that a message without coins needs; some are never relayed. */
  predicate Flagged(p: Permissions, m: CosmosMsg) {
    match m
    case Staking(Delegate(_, _)) => p.delegate
    case Staking(Undelegate(_, _)) => p.undelegate
    case Staking(Redelegate(_, _, _)) => p.redelegate
    case Distribution(SetWithdrawAddress(_)) => p.withdraw
    case Distribution(WithdrawDelegatorReward(_)) => p.withdraw
    case _ => false
  }

  /** What the stored permissions say about a message that sends no coins. */
  predicate Permitted(s: State, sender: Addr, m: CosmosMsg) {
    m.BankSend? || (sender in s.permissions && Flagged(s.permissions[sender], m))
  }

  /** What each permission allows: a message without coins, sent by an account that is no
      admin, is relayed if and only if the account has permissions and the flag is set. */
  lemma FlagsDecide(s: State, block: Block, sender: Addr, m: CosmosMsg)
    requires !m.BankSend?
    ensures CheckOne(s, block, sender, m) == Ok(s) <==> Permitted(s, sender, m)
    ensures CheckOne(s, block, sender, m).Ok? <==> Permitted(s, sender, m)
  {
  }

  lemma {:induction false} SubAllAppend(balance: seq<Coin>, a: seq<Coin>, b: seq<Coin>)
    ensures SubAll(balance, a + b) ==
            match SubAll(balance, a)
            case Ok(left) => SubAll(left, b)
            case Err(e) => Err(e)
    decreases |a|
  {
    if a == [] {
      assert a + b == b;
    } else {
      assert (a + b)[1..] == a[1..] + b;
      var left := Sub(balance, a[0]);
      if left.Ok? {
        SubAllAppend(left.value, a[1..], b);
      }
    }
  }

  /** The state after a batch: all its coins are taken from the sender's allowance, as if
      they had been sent at once. */
  function Spent(s: State, block: Block, sender: Addr, msgs: seq<CosmosMsg>): Result<State> {
    if Sends(msgs) then Spend(s, block, sender, CoinsOf(msgs)) else Ok(s)
  }

  /** When a batch of an account that is no admin goes through: every message without coins
      is permitted, and one live allowance covers the coins of all others together. Nothing
      but that allowance changes. */
  lemma {:induction false} BatchSucceedsExactly(s: State, block: Block, sender: Addr, msgs: seq<CosmosMsg>)
    ensures var r := CheckAll(s, block, sender, msgs);
            && (r.Ok? <==> (forall i | 0 <= i < |msgs| :: Permitted(s, sender, msgs[i]))
                           && Spent(s, block, sender, msgs).Ok?)
            && (r.Ok? ==> r == Spent(s, block, sender, msgs))
    decreases |msgs|
  {
    if msgs != [] {
      hide Spent, CheckStaking, CheckDistribution, SubAll, CoinsOf, Permitted, Sends;
      var m, rest := msgs[0], msgs[1..];
      assert msgs == [m] + rest;
      FirstMessage(s, block, sender, m, rest);
      var one := CheckOne(s, block, sender, m);
      if one.Ok? {
        BatchSucceedsExactly(one.value, block, sender, rest);
        forall i | 0 <= i < |rest|
          ensures Permitted(one.value, sender, rest[i]) == Permitted(s, sender, rest[i])
          ensures rest[i] == msgs[i + 1]
        {
          SamePermissions(s, one.value, sender, rest[i]);
        }
        if forall i | 0 <= i < |rest| :: Permitted(s, sender, rest[i]) {
          assert forall i | 0 <= i < |msgs| :: Permitted(s, sender, msgs[i]) by {
            forall i | 0 <= i < |msgs|
              ensures Permitted(s, sender, msgs[i])
            {
              if i > 0 {
                assert msgs[i] == rest[i - 1];
              }
            }
          }
        }
      }
    } else {
      assert !Sends(msgs);
    }
  }

  lemma SamePermissions(s: State, t: State, sender: Addr, m: CosmosMsg)
    requires t.permissions == s.permissions
    ensures Permitted(t, sender, m) == Permitted(s, sender, m)
  {
  }

  /** The first message of a batch, and the batch without it. */
  lemma FirstMessage(s: State, block: Block, sender: Addr, m: CosmosMsg, rest: seq<CosmosMsg>)
    ensures var one := CheckOne(s, block, sender, m);
            && (one.Ok? ==> Permitted(s, sender, m) && one.value == s.(allowances := one.value.allowances))
            && (Permitted(s, sender, m) && Spent(s, block, sender, [m] + rest).Ok? ==> one.Ok?)
            && (one.Ok? ==> Spent(s, block, sender, [m] + rest) == Spent(one.value, block, sender, rest))
  {
    hide SubAll, CheckStaking, CheckDistribution, Flagged;
    var msgs := [m] + rest;
    assert msgs[1..] == rest;
    SendsCons(m, rest);
    if m.BankSend? {
      if sender in s.allowances {
        SubAllAppend(s.allowances[sender].balance, m.coins, CoinsOf(rest));
        var spent := Spend(s, block, sender, m.coins);
        if spent.Ok? && Spend(spent.value, block, sender, CoinsOf(rest)).Ok? {
          SetTwice(s.allowances, sender, spent.value.allowances[sender],
                   Spend(spent.value, block, sender, CoinsOf(rest)).value.allowances[sender]);
        }
      }
      if !Sends(rest) {
        NoSendNoCoins(rest);
        assert m.coins + [] == m.coins;
      }
    } else {
      FlagsDecide(s, block, sender, m);
      assert [] + CoinsOf(rest) == CoinsOf(rest);
    }
  }

  lemma SetTwice(allowances: map<Addr, Allowance>, a: Addr, x: Allowance, y: Allowance)
    ensures allowances[a := x][a := y] == allowances[a := y]
  {
  }

  lemma SendsCons(m: CosmosMsg, rest: seq<CosmosMsg>)
    ensures Sends([m] + rest) <==> m.BankSend? || Sends(rest)
  {
    var msgs := [m] + rest;
    if m.BankSend? {
      assert msgs[0].BankSend?;
    }
    if Sends(rest) {
      var i :| 0 <= i < |rest| && rest[i].BankSend?;
      assert msgs[i + 1].BankSend?;
    }
    if i :| 0 <= i < |msgs| && msgs[i].BankSend? && i > 0 {
      assert rest[i - 1].BankSend?;
    }
  }

  lemma {:induction false} NoSendNoCoins(msgs: seq<CosmosMsg>)
    requires !Sends(msgs)
    ensures CoinsOf(msgs) == []
    decreases |msgs|
  {
    if msgs != [] {
      assert msgs == [msgs[0]] + msgs[1..];
      SendsCons(msgs[0], msgs[1..]);
      NoSendNoCoins(msgs[1..]);
    }
  }

  // --------------------------------------------------------------------- runs

  /** The proxy, with all coins ever granted to, spent by, and taken back from a subkey. */
  datatype World = World(
    proxy: State,
    now: Block,
    granted: map<Addr, seq<Coin>>,
    spent: map<Addr, seq<Coin>>,
    revoked: map<Addr, seq<Coin>>,
    lapsed: map<Addr, seq<Coin>>)

  datatype Event = Call(sender: Addr, msg: Msg) | Tick(later: Block)

  function Log(ledger: map<Addr, seq<Coin>>, a: Addr): seq<Coin> {
    if a in ledger then ledger[a] else []
  }

  function Plus(ledger: map<Addr, seq<Coin>>, a: Addr, coins: seq<Coin>): map<Addr, seq<Coin>> {
    ledger[a := Log(ledger, a) + coins]
  }

  function BalanceOf(s: State, a: Addr): seq<Coin> {
    if a in s.allowances then s.allowances[a].balance else []
  }

  /** What a successful call means for the ledgers. What an admin sends is not limited, and
      an allowance that expired is lost when it is granted anew. */
  function Record(w: World, sender: Addr, msg: Msg): World {
    match msg
    case Execute(msgs) =>
      if IsAdmin(w.proxy, sender) then w else w.(spent := Plus(w.spent, sender, CoinsOf(msgs)))
    case IncreaseAllowance(spender, amount, _) =>
      var lost := if Lapsed(w.proxy, spender, w.now) then BalanceOf(w.proxy, spender) else [];
      w.(granted := Plus(w.granted, spender, [amount]), lapsed := Plus(w.lapsed, spender, lost))
    case DecreaseAllowance(spender, amount, _) => w.(revoked := Plus(w.revoked, spender, [amount]))
    case _ => w
  }

  function Apply(api: string -> bool, w: World, e: Event): World {
    match e
    case Tick(later) => if w.now.NotAfter(later) then w.(now := later) else w
    case Call(sender, msg) =>
      var r := Handle(w.proxy, api, w.now, sender, msg);
      if r.Err? then w else Record(w, sender, msg).(proxy := r.value.0)
  }

  function Run(api: string -> bool, w: World, events: seq<Event>): World
    decreases |events|
  {
    if events == [] then w else Run(api, Apply(api, w, events[0]), events[1..])
  }

  /** No subkey holds or spent more than it was granted; and nothing of a grant disappears
      but by being spent, revoked, or left to expire. */
  predicate Accounted(w: World, a: Addr, denom: string) {
    var held := Amount(BalanceOf(w.proxy, a), denom);
    var granted, spent := Amount(Log(w.granted, a), denom), Amount(Log(w.spent, a), denom);
    held + spent <= granted <=
    held + spent + Amount(Log(w.revoked, a), denom) + Amount(Log(w.lapsed, a), denom)
  }

  lemma PlusAmount(ledger: map<Addr, seq<Coin>>, b: Addr, coins: seq<Coin>, a: Addr, denom: string)
    ensures Amount(Log(Plus(ledger, b, coins), a), denom) ==
            Amount(Log(ledger, a), denom) + if a == b then Amount(coins, denom) else 0
  {
    AmountAppend(Log(ledger, b), coins, denom);
  }

  lemma SpendChange(s: State, block: Block, sender: Addr, msgs: seq<CosmosMsg>, a: Addr, denom: string)
    requires CheckAll(s, block, sender, msgs).Ok?
    ensures var t := CheckAll(s, block, sender, msgs).value;
            Amount(BalanceOf(t, a), denom) + (if a == sender then Amount(CoinsOf(msgs), denom) else 0)
            == Amount(BalanceOf(s, a), denom)
  {
    hide SubAll;
    BatchSucceedsExactly(s, block, sender, msgs);
    if Sends(msgs) {
      SubAllTakes(s.allowances[sender].balance, CoinsOf(msgs), denom);
    } else {
      NoSendNoCoins(msgs);
      assert Amount([], denom) == 0;
    }
  }

  lemma IncreaseChange(s: State, api: string -> bool, block: Block, sender: Addr, spender: string, amount: Coin,
                       expires: Option<Expiration>, a: Addr, denom: string)
    requires ExecuteIncrease(s, api, block, sender, spender, amount, expires).Ok?
    ensures var t := ExecuteIncrease(s, api, block, sender, spender, amount, expires).value;
            var lost := if Lapsed(s, spender, block) then BalanceOf(s, spender) else [];
            Amount(BalanceOf(t, a), denom) + (if a == spender then Amount(lost, denom) else 0)
            == Amount(BalanceOf(s, a), denom) + (if a == spender then Amount([amount], denom) else 0)
  {
    hide Add, Amount;
    var current := if Lapsed(s, spender, block) then [] else BalanceOf(s, spender);
    AddAdds(current, amount, denom);
    AmountOfNothing(denom);
  }

  lemma AmountOfNothing(denom: string)
    ensures Amount([], denom) == 0
  {
  }

  lemma DecreaseChange(s: State, api: string -> bool, block: Block, sender: Addr, spender: string, amount: Coin,
                       expires: Option<Expiration>, a: Addr, denom: string)
    requires ExecuteDecrease(s, api, block, sender, spender, amount, expires).Ok?
    ensures var t := ExecuteDecrease(s, api, block, sender, spender, amount, expires).value;
            Amount(BalanceOf(t, a), denom) <= Amount(BalanceOf(s, a), denom)
            <= Amount(BalanceOf(t, a), denom) + if a == spender then Amount([amount], denom) else 0
  {
    hide SubSaturating, Amount;
    var current := BalanceOf(s, spender);
    SaturatingLowers(current, amount, denom);
    AmountOfNothing(denom);
    var left := SubSaturating(current, amount).value;
    if IsEmpty(left) {
      EmptyIsNothing(left, denom);
    }
  }

  lemma CallKeeps(api: string -> bool, w: World, sender: Addr, msg: Msg, a: Addr, denom: string)
    requires Accounted(w, a, denom)
    ensures Accounted(Apply(api, w, Call(sender, msg)), a, denom)
  {
    hide Amount, Plus, Log, IsAdmin, CheckAll, ExecuteIncrease, ExecuteDecrease, ExecuteUpdateAdmins,
         ExecuteSetPermissions, CoinsOf, BalanceOf, Lapsed;
    var s := w.proxy;
    if Handle(s, api, w.now, sender, msg).Ok? {
      match msg
      case Execute(msgs) =>
        if !IsAdmin(s, sender) {
          SpendChange(s, w.now, sender, msgs, a, denom);
          PlusAmount(w.spent, sender, CoinsOf(msgs), a, denom);
        }
      case IncreaseAllowance(spender, amount, expires) =>
        IncreaseChange(s, api, w.now, sender, spender, amount, expires, a, denom);
        PlusAmount(w.granted, spender, [amount], a, denom);
        PlusAmount(w.lapsed, spender, if Lapsed(s, spender, w.now) then BalanceOf(s, spender) else [], a, denom);
      case DecreaseAllowance(spender, amount, expires) =>
        DecreaseChange(s, api, w.now, sender, spender, amount, expires, a, denom);
        PlusAmount(w.revoked, spender, [amount], a, denom);
      case _ =>
        GrantsNothing(s, api, w.now, sender, msg);
        SameBalances(s, Apply(api, w, Call(sender, msg)).proxy, a);
    }
  }

  lemma GrantsNothing(s: State, api: string -> bool, block: Block, sender: Addr, msg: Msg)
    requires !msg.Execute? && !msg.IncreaseAllowance? && !msg.DecreaseAllowance?
    ensures var r := Handle(s, api, block, sender, msg); r.Ok? ==> r.value.0.allowances == s.allowances
  {
    hide IsAdmin;
  }

  lemma SameBalances(s: State, t: State, a: Addr)
    requires t.allowances == s.allowances
    ensures BalanceOf(t, a) == BalanceOf(s, a)
  {
  }

  lemma {:induction false} RunKeeps(api: string -> bool, w: World, events: seq<Event>, a: Addr, denom: string)
    requires Accounted(w, a, denom)
    ensures Accounted(Run(api, w, events), a, denom)
    decreases |events|
  {
    if events != [] {
      hide Handle, Record, Amount;
      match events[0] {
        case Call(sender, msg) => CallKeeps(api, w, sender, msg, a, denom);
        case Tick(_) =>
      }
      RunKeeps(api, Apply(api, w, events[0]), events[1..], a, denom);
    }
  }

  /** Spend accounting over every run, for every subkey and denomination: what it spent and
      what it could still spend never exceed what admins granted it. */
  lemma SpendingWithinGrants(api: string -> bool, start: World, admins: seq<string>, mutable: bool,
                             events: seq<Event>, a: Addr, denom: string)
    requires Instantiate(api, admins, mutable) == Ok(start.proxy)
    requires start.granted == map[] && start.spent == map[] && start.revoked == map[] && start.lapsed == map[]
    ensures Accounted(Run(api, start, events), a, denom)
    ensures Amount(Log(Run(api, start, events).spent, a), denom)
            <= Amount(Log(Run(api, start, events).granted, a), denom)
  {
    hide Run;
    RunKeeps(api, start, events, a, denom);
  }

  /** What the call of an account that is no admin can do at most: relay messages, and pay
      for the coins in them from its own allowance. No right of anybody is changed. */
  lemma OnlyAdminsGrant(s: State, api: string -> bool, block: Block, sender: Addr, msg: Msg, denom: string)
    requires !IsAdmin(s, sender) && Handle(s, api, block, sender, msg).Ok?
    ensures var t := Handle(s, api, block, sender, msg).value.0;
            && msg.Execute? && t == s.(allowances := t.allowances)
            && (forall a: Addr | a != sender :: a in t.allowances <==> a in s.allowances)
            && (forall a: Addr | a != sender && a in t.allowances :: t.allowances[a] == s.allowances[a])
            && Amount(BalanceOf(t, sender), denom) + Amount(CoinsOf(msg.msgs), denom)
               == Amount(BalanceOf(s, sender), denom)
            && forall i | 0 <= i < |msg.msgs| :: Permitted(s, sender, msg.msgs[i])
  {
    hide IsAdmin, SubAll, Amount, CheckAll, Permitted;
    if msg.Execute? {
      SpendChange(s, block, sender, msg.msgs, sender, denom);
      BatchSucceedsExactly(s, block, sender, msg.msgs);
    }
  }

  /** Once the admin list is frozen it never changes again. */
  lemma {:induction false} FrozenForEver(api: string -> bool, w: World, events: seq<Event>)
    requires !w.proxy.config.mutable
    ensures Run(api, w, events).proxy.config == w.proxy.config
    decreases |events|
  {
    if events != [] {
      hide Record, CheckAll;
      if events[0].Call? {
        FrozenStep(w.proxy, api, w.now, events[0].sender, events[0].msg);
      }
      FrozenForEver(api, Apply(api, w, events[0]), events[1..]);
    }
  }

  lemma FrozenStep(s: State, api: string -> bool, block: Block, sender: Addr, msg: Msg)
    requires !s.config.mutable
    ensures var r := Handle(s, api, block, sender, msg); r.Ok? ==> r.value.0.config == s.config
  {
    hide CheckAll, IsAdmin, Spent;
    if msg.Execute? {
      BatchSucceedsExactly(s, block, sender, msg.msgs);
      SpentKeepsConfig(s, block, sender, msg.msgs);
    }
  }

  lemma SpentKeepsConfig(s: State, block: Block, sender: Addr, msgs: seq<CosmosMsg>)
    ensures var r := Spent(s, block, sender, msgs); r.Ok? ==> r.value.config == s.config
  {
  }

  // ------------------------------------------------------------------ listing

  function Live(block: Block): Allowance -> bool {
    (a: Allowance) => !a.expires.IsExpired(block)
  }

  ghost function QueryAllAllowances(s: State, block: Block, startAfter: Option<string>, limit: Option<nat>)
    : seq<(Addr, Allowance)>
  {
    Paging.Page(s.allowances, startAfter, Paging.CalcLimit(limit), Live(block))
  }

  /** A client that puts the query again and again, each time with the last address that it
      got, until it gets nothing. */
  ghost function Ask(s: State, block: Block, startAfter: Option<string>, limit: Option<nat>): seq<(Addr, Allowance)>
    decreases |Paging.Rest(s.allowances, startAfter, Live(block))|
  {
    var page := QueryAllAllowances(s, block, startAfter, limit);
    if page == [] then []
    else
      Paging.NextPage(s.allowances, startAfter, Paging.CalcLimit(limit), Live(block));
      page + Ask(s, block, Some(page[|page| - 1].0), limit)
  }

  lemma {:induction false} AskFollows(s: State, block: Block, startAfter: Option<string>, limit: Option<nat>)
    ensures Ask(s, block, startAfter, limit) ==
            Paging.Follow(s.allowances, startAfter, Paging.CalcLimit(limit), Live(block))
    decreases |Paging.Rest(s.allowances, startAfter, Live(block))|
  {
    var page := QueryAllAllowances(s, block, startAfter, limit);
    if page != [] {
      Paging.NextPage(s.allowances, startAfter, Paging.CalcLimit(limit), Live(block));
      AskFollows(s, block, Some(page[|page| - 1].0), limit);
    }
  }

  /** The pages of all allowances, taken in one block with any positive limit or none, hold
      every allowance that is not expired, once, by ascending address: expired ones take no
      place on a page. */
  lemma ListsAllLive(s: State, block: Block, limit: Option<nat>)
    requires limit != Some(0)
    ensures var listing := Ask(s, block, None, limit);
            && Paging.Increasing(Paging.Keys(listing))
            && forall a: Addr, allowance: Allowance ::
                 (a, allowance) in listing
                 <==> a in s.allowances && s.allowances[a] == allowance && !allowance.expires.IsExpired(block)
  {
    hide Paging.Rest, Paging.Increasing, Paging.Keys;
    AskFollows(s, block, None, limit);
    Paging.FollowIsComplete(s.allowances, None, Paging.CalcLimit(limit), Live(block));
    Paging.ListingIsExact(s.allowances, None, Live(block));
  }
}
