/** What the calls of the proxy do, told from the state before: which messages a subkey may
    have relayed, what its allowance must hold for that, and who may change which right. */
module Cw1Calls {
  import opened Prelude
  import opened Cw1Coins
  import opened Cw1Subkeys
  import opened Cw1Theorems

  // ----------------------------------------------------------------- balances

  /** One coin for each denomination. */
  predicate Tidy(balance: seq<Coin>) {
    forall i, j | 0 <= i < j < |balance| :: balance[i].denom != balance[j].denom
  }

  lemma HasCons(b: Coin, rest: seq<Coin>, denom: string)
    ensures Has([b] + rest, denom) <==> b.denom == denom || Has(rest, denom)
  {
    var all := [b] + rest;
    if b.denom == denom {
      assert all[0].denom == denom;
    }
    if Has(rest, denom) {
      var i :| 0 <= i < |rest| && rest[i].denom == denom;
      assert all[i + 1].denom == denom;
    }
    if i :| 0 <= i < |all| && all[i].denom == denom && i > 0 {
      assert rest[i - 1].denom == denom;
    }
  }

  lemma TidyCons(b: Coin, rest: seq<Coin>)
    ensures Tidy([b] + rest) <==> Tidy(rest) && !Has(rest, b.denom)
  {
    var all := [b] + rest;
    if Tidy(all) {
      forall i, j | 0 <= i < j < |rest|
        ensures rest[i].denom != rest[j].denom
      {
        assert all[i + 1] == rest[i] && all[j + 1] == rest[j];
      }
      forall i | 0 <= i < |rest|
        ensures rest[i].denom != b.denom
      {
        assert all[0].denom != all[i + 1].denom;
      }
    }
  }

  lemma {:induction false} AmountIfAbsent(balance: seq<Coin>, denom: string)
    requires !Has(balance, denom)
    ensures Amount(balance, denom) == 0
  {
    if balance != [] {
      assert balance == [balance[0]] + balance[1..];
      HasCons(balance[0], balance[1..], denom);
      AmountIfAbsent(balance[1..], denom);
    }
  }

  /** A balance taken apart. */
  lemma HeadAndRest(balance: seq<Coin>, denom: string)
    requires balance != [] && Tidy(balance)
    ensures Tidy(balance[1..]) && !Has(balance[1..], balance[0].denom)
    ensures Has(balance, denom) <==> balance[0].denom == denom || Has(balance[1..], denom)
    ensures Amount(balance, denom) ==
            if balance[0].denom == denom then balance[0].amount else Amount(balance[1..], denom)
  {
    assert balance == [balance[0]] + balance[1..];
    TidyCons(balance[0], balance[1..]);
    HasCons(balance[0], balance[1..], denom);
    AmountIfAbsent(balance[1..], balance[0].denom);
  }

  lemma NothingHad(denom: string)
    ensures !Has([], denom) && Amount([], denom) == 0 && Tidy([])
  {
  }

  /** A balance with one coin in front of the rest of another one. */
  lemma Rebuilt(b: Coin, rest: seq<Coin>, denom: string)
    requires Tidy(rest) && !Has(rest, b.denom)
    ensures Tidy([b] + rest) && (Has([b] + rest, denom) <==> b.denom == denom || Has(rest, denom))
    ensures Amount([b] + rest, denom) == if b.denom == denom then b.amount else Amount(rest, denom)
  {
    TidyCons(b, rest);
    HeadAndRest([b] + rest, denom);
    assert ([b] + rest)[1..] == rest;
  }

  /** A coin can be taken exactly if there is one of its denomination that is large enough;
      it leaves when nothing is left of it. */
  lemma {:induction false} SubTidy(balance: seq<Coin>, coin: Coin, d: string)
    requires Tidy(balance)
    ensures var r := Sub(balance, coin);
            && (r.Ok? <==> Has(balance, coin.denom) && coin.amount <= Amount(balance, coin.denom))
            && (r.Ok? ==>
                  Tidy(r.value)
                  && (Has(r.value, d) <==> Has(balance, d) && (d == coin.denom ==> coin.amount < Amount(balance, d))))
  {
    hide Tidy, Has, Amount;
    if balance == [] {
      NothingHad(coin.denom);
    } else {
      var b, rest := balance[0], balance[1..];
      HeadAndRest(balance, d);
      HeadAndRest(balance, coin.denom);
      if b.denom == coin.denom {
        if coin.amount < b.amount {
          Rebuilt(Coin(coin.denom, b.amount - coin.amount), rest, d);
        } else {
          assert [] + rest == rest;
        }
      } else {
        SubTidy(rest, coin, d);
        SubTidy(rest, coin, b.denom);
        if Sub(rest, coin).Ok? {
          Rebuilt(b, Sub(rest, coin).value, d);
        }
      }
    }
  }

  /** A saturating subtraction needs a coin of the denomination, and takes what it can. */
  lemma {:induction false} SaturatingTidy(balance: seq<Coin>, coin: Coin, d: string)
    requires Tidy(balance)
    ensures var r := SubSaturating(balance, coin);
            && (r.Ok? <==> Has(balance, coin.denom))
            && (r.Ok? ==>
                  && Tidy(r.value) && (Has(r.value, d) ==> Has(balance, d))
                  && Amount(r.value, d) ==
                       (if d != coin.denom then Amount(balance, d)
                        else if Amount(balance, d) < coin.amount then 0
                        else Amount(balance, d) - coin.amount))
  {
    hide Tidy, Has, Amount;
    if balance == [] {
      NothingHad(coin.denom);
    } else {
      var b, rest := balance[0], balance[1..];
      HeadAndRest(balance, d);
      HeadAndRest(balance, coin.denom);
      if b.denom == coin.denom {
        if coin.amount < b.amount {
          Rebuilt(Coin(coin.denom, b.amount - coin.amount), rest, d);
        } else {
          assert [] + rest == rest;
          AmountIfAbsent(rest, coin.denom);
        }
      } else {
        SaturatingTidy(rest, coin, d);
        SaturatingTidy(rest, coin, b.denom);
        if SubSaturating(rest, coin).Ok? {
          Rebuilt(b, SubSaturating(rest, coin).value, d);
        }
      }
    }
  }

  lemma {:induction false} RaiseTidy(balance: seq<Coin>, coin: Coin, d: string)
    requires Tidy(balance) && Has(balance, coin.denom)
    ensures var r := Raise(balance, coin);
            && (r.Ok? <==> Amount(balance, coin.denom) + coin.amount <= U128_MAX)
            && (r.Ok? ==> Tidy(r.value) && (Has(r.value, d) <==> Has(balance, d)))
  {
    hide Tidy, Has, Amount;
    if balance == [] {
      NothingHad(coin.denom);
    } else {
      var b, rest := balance[0], balance[1..];
      HeadAndRest(balance, d);
      HeadAndRest(balance, coin.denom);
      if b.denom == coin.denom {
        if b.amount + coin.amount <= U128_MAX {
          Rebuilt(Coin(coin.denom, b.amount + coin.amount), rest, d);
        }
      } else {
        RaiseTidy(rest, coin, d);
        RaiseTidy(rest, coin, b.denom);
        if Raise(rest, coin).Ok? {
          Rebuilt(b, Raise(rest, coin).value, d);
        }
      }
    }
  }

  lemma {:induction false} PlaceTidy(balance: seq<Coin>, coin: Coin, d: string)
    requires Tidy(balance) && !Has(balance, coin.denom)
    ensures var placed := Place(balance, coin); Tidy(placed) && (Has(placed, d) <==> Has(balance, d) || d == coin.denom)
  {
    hide Tidy, Has, Amount;
    Rebuilt(coin, balance, d);
    if balance != [] {
      HeadAndRest(balance, d);
      HeadAndRest(balance, coin.denom);
      PlaceTidy(balance[1..], coin, d);
      PlaceTidy(balance[1..], coin, balance[0].denom);
      Rebuilt(balance[0], Place(balance[1..], coin), d);
    } else {
      NothingHad(d);
    }
  }

  /** An addition traps exactly beyond 128 bits. */
  lemma AddTidy(balance: seq<Coin>, coin: Coin)
    requires Tidy(balance)
    ensures var r := Add(balance, coin);
            && (r.Ok? <==> Amount(balance, coin.denom) + coin.amount <= U128_MAX)
            && (r.Ok? ==> Tidy(r.value))
  {
    hide Tidy, Has;
    if Has(balance, coin.denom) {
      RaiseTidy(balance, coin, "");
    } else {
      AmountIfAbsent(balance, coin.denom);
      PlaceTidy(balance, coin, "");
    }
  }

  // ----------------------------------------------------------------- spending

  /** After the coins before it, this one can still be taken: enough is left, and the entry
      of its denomination has not been used up. */
  predicate Affordable(balance: seq<Coin>, coins: seq<Coin>, i: nat)
    requires i < |coins|
  {
    var d := coins[i].denom;
    && Has(balance, d) && Amount(coins[..i], d) + coins[i].amount <= Amount(balance, d)
    && (Has(coins[..i], d) ==> Amount(coins[..i], d) < Amount(balance, d))
  }

  predicate Covers(balance: seq<Coin>, coins: seq<Coin>) {
    forall i: nat | i < |coins| :: Affordable(balance, coins, i)
  }

  lemma HasSnoc(coins: seq<Coin>, c: Coin, d: string)
    ensures Has(coins + [c], d) <==> Has(coins, d) || c.denom == d
  {
    var all := coins + [c];
    if c.denom == d {
      assert all[|coins|].denom == d;
    }
    if Has(coins, d) {
      var i :| 0 <= i < |coins| && coins[i].denom == d;
      assert all[i].denom == d;
    }
    if i :| 0 <= i < |all| && all[i].denom == d && i < |coins| {
      assert coins[i].denom == d;
    }
  }

  lemma CoversSnoc(balance: seq<Coin>, coins: seq<Coin>, c: Coin)
    ensures Covers(balance, coins + [c]) <==> Covers(balance, coins) && Affordable(balance, coins + [c], |coins|)
  {
    hide Has, Amount;
    var all := coins + [c];
    forall i: nat | i < |coins|
      ensures Affordable(balance, all, i) == Affordable(balance, coins, i)
    {
      assert all[..i] == coins[..i] && all[i] == coins[i];
    }
  }

  /** Coins can be taken one after the other exactly if the balance covers them. */
  lemma {:induction false} SubAllExactly(balance: seq<Coin>, coins: seq<Coin>, d: string)
    requires Tidy(balance)
    ensures var r := SubAll(balance, coins);
            && (r.Ok? <==> Covers(balance, coins))
            && (r.Ok? ==>
                  && Tidy(r.value) && Amount(r.value, d) + Amount(coins, d) == Amount(balance, d)
                  && (Has(r.value, d) <==> Has(balance, d) && (Has(coins, d) ==> 0 < Amount(r.value, d))))
    decreases |coins|
  {
    hide Tidy, Has, Amount, Covers, Affordable;
    if coins == [] {
      NothingHad(d);
      NothingToCover(balance);
    } else {
      var n := |coins| - 1;
      var before, c := coins[..n], coins[n];
      assert coins == before + [c];
      SubAllAppend(balance, before, [c]);
      CoversSnoc(balance, before, c);
      SubAllExactly(balance, before, d);
      SubAllExactly(balance, before, c.denom);
      if SubAll(balance, before).Ok? {
        var left := SubAll(balance, before).value;
        OneMoreTaken(balance, before, left, c, d);
      }
    }
  }

  lemma NothingToCover(balance: seq<Coin>)
    ensures Covers(balance, [])
  {
  }

  lemma OneMoreTaken(balance: seq<Coin>, before: seq<Coin>, left: seq<Coin>, c: Coin, d: string)
    requires Tidy(left)
    requires forall e | e == d || e == c.denom :: Amount(left, e) + Amount(before, e) == Amount(balance, e)
    requires forall e | e == d || e == c.denom ::
               Has(left, e) <==> Has(balance, e) && (Has(before, e) ==> 0 < Amount(left, e))
    ensures var r := SubAll(left, [c]);
            var coins := before + [c];
            && (r.Ok? <==> Affordable(balance, coins, |before|))
            && (r.Ok? ==>
                  && Tidy(r.value) && Amount(r.value, d) + Amount(coins, d) == Amount(balance, d)
                  && (Has(r.value, d) <==> Has(balance, d) && (Has(coins, d) ==> 0 < Amount(r.value, d))))
  {
    hide Tidy, Has;
    var coins := before + [c];
    assert coins[..|before|] == before && [c][1..] == [];
    SubTidy(left, c, d);
    SubTakes(left, c, d);
    AmountAppend(before, [c], d);
    AmountOne(c, d);
    HasSnoc(before, c, d);
  }

  predicate Worth(coins: seq<Coin>) {
    forall i | 0 <= i < |coins| :: coins[i].amount > 0
  }

  /** There is enough of one denomination for all coins together. */
  predicate Enough(balance: seq<Coin>, coins: seq<Coin>, d: string) {
    Amount(coins, d) <= Amount(balance, d)
  }

  lemma EnoughOfEach(balance: seq<Coin>, coins: seq<Coin>, i: nat)
    requires Worth(coins) && i < |coins| && Enough(balance, coins, coins[i].denom)
    ensures Affordable(balance, coins, i)
  {
    hide Amount;
    var d := coins[i].denom;
    assert coins == coins[..i] + ([coins[i]] + coins[i + 1..]);
    AmountAppend(coins[..i], [coins[i]] + coins[i + 1..], d);
    AmountCons(coins[i], coins[i + 1..], d);
    AmountOne(coins[i], d);
    if !Has(balance, d) {
      AmountIfAbsent(balance, d);
    }
  }

  /** For coins that are all worth something: the totals of all denominations decide. */
  lemma CoversTotals(balance: seq<Coin>, coins: seq<Coin>)
    requires Tidy(balance) && Worth(coins)
    ensures Covers(balance, coins) <==> forall d: string :: Enough(balance, coins, d)
  {
    hide Tidy, Amount, Affordable;
    if Covers(balance, coins) {
      forall d: string
        ensures Enough(balance, coins, d)
      {
        SubAllExactly(balance, coins, d);
      }
    } else {
      var i: nat :| i < |coins| && !Affordable(balance, coins, i);
      if Enough(balance, coins, coins[i].denom) {
        EnoughOfEach(balance, coins, i);
      }
    }
  }

  // -------------------------------------------------------------------- calls

  predicate AllTidy(s: State) {
    forall a | a in s.allowances :: Tidy(s.allowances[a].balance)
  }

  predicate Live(s: State, a: Addr, block: Block) {
    a in s.allowances && !s.allowances[a].expires.IsExpired(block)
  }

  predicate MayGrant(s: State, api: string -> bool, sender: Addr, spender: string) {
    sender in s.config.admins && api(spender) && spender != sender
  }

  /** When each call goes through. */
  predicate Accepts(s: State, api: string -> bool, block: Block, sender: Addr, msg: Msg) {
    match msg
    case Execute(msgs) =>
      || sender in s.config.admins
      || (&& (forall i | 0 <= i < |msgs| :: Permitted(s, sender, msgs[i]))
          && (Sends(msgs) ==> Live(s, sender, block) && Covers(s.allowances[sender].balance, CoinsOf(msgs))))
    case Freeze => s.config.mutable && sender in s.config.admins
    case UpdateAdmins(admins) => s.config.mutable && sender in s.config.admins && forall a | a in admins :: api(a)
    case IncreaseAllowance(spender, amount, expires) =>
      && MayGrant(s, api, sender, spender) && NotOver(expires, block)
      && (expires.None? && spender in s.allowances ==> Live(s, spender, block))
      && (Live(s, spender, block) ==> Amount(s.allowances[spender].balance, amount.denom) + amount.amount <= U128_MAX)
    case DecreaseAllowance(spender, amount, expires) =>
      && MayGrant(s, api, sender, spender) && NotOver(expires, block)
      && Live(s, spender, block) && Has(s.allowances[spender].balance, amount.denom)
    case SetPermissions(spender, _) => MayGrant(s, api, sender, spender)
  }

  /** Only this allowance is another one. */
  predicate OnlyAllowance(s: State, t: State, a: Addr) {
    t == s.(allowances := t.allowances) && t.allowances - {a} == s.allowances - {a}
  }

  function HeldOf(s: State, a: Addr, denom: string): nat {
    if a in s.allowances then Amount(s.allowances[a].balance, denom) else 0
  }

  function LiveOf(s: State, a: Addr, block: Block, denom: string): nat {
    if Live(s, a, block) then HeldOf(s, a, denom) else 0
  }

  /** What each call does, with the messages that it relays; told for any denomination. */
  predicate Done(s: State, block: Block, sender: Addr, msg: Msg, t: State, relayed: seq<CosmosMsg>, d: string) {
    && relayed == (if msg.Execute? then msg.msgs else [])
    && match msg
       case Execute(msgs) =>
         if sender in s.config.admins || !Sends(msgs) then t == s
         else
           && OnlyAllowance(s, t, sender) && sender in s.allowances && sender in t.allowances
           && t.allowances[sender].expires == s.allowances[sender].expires
           && HeldOf(t, sender, d) + Amount(CoinsOf(msgs), d) == HeldOf(s, sender, d)
       case Freeze => t == s.(config := AdminList(s.config.admins, false))
       case UpdateAdmins(admins) => t == s.(config := AdminList(admins, s.config.mutable))
       case IncreaseAllowance(spender, amount, expires) =>
         && OnlyAllowance(s, t, spender) && spender in t.allowances
         && t.allowances[spender].expires ==
              (if expires.Some? then expires.value
               else if spender in s.allowances then s.allowances[spender].expires
               else Never)
         && HeldOf(t, spender, d) == LiveOf(s, spender, block, d) + (if d == amount.denom then amount.amount else 0)
       case DecreaseAllowance(spender, amount, expires) =>
         && OnlyAllowance(s, t, spender) && spender in s.allowances
         && (spender in t.allowances ==>
               && t.allowances[spender].expires == expires.UnwrapOr(s.allowances[spender].expires)
               && exists c | c in t.allowances[spender].balance :: c.amount > 0)
         && HeldOf(t, spender, d) ==
              (if d != amount.denom then HeldOf(s, spender, d)
               else if HeldOf(s, spender, d) < amount.amount then 0
               else HeldOf(s, spender, d) - amount.amount)
       case SetPermissions(spender, p) => t == s.(permissions := s.permissions[spender := p])
  }

  lemma ExecuteExactly(s: State, block: Block, sender: Addr, msgs: seq<CosmosMsg>, d: string)
    requires AllTidy(s) && sender !in s.config.admins
    ensures var r := CheckAll(s, block, sender, msgs);
            && (r.Ok? <==> (forall i | 0 <= i < |msgs| :: Permitted(s, sender, msgs[i]))
                           && (Sends(msgs) ==> Live(s, sender, block)
                                               && Covers(s.allowances[sender].balance, CoinsOf(msgs))))
            && (r.Ok? ==> AllTidy(r.value))
            && (r.Ok? && !Sends(msgs) ==> r.value == s)
            && (r.Ok? && Sends(msgs) ==>
                  && OnlyAllowance(s, r.value, sender) && sender in s.allowances && sender in r.value.allowances
                  && r.value.allowances[sender].expires == s.allowances[sender].expires
                  && HeldOf(r.value, sender, d) + Amount(CoinsOf(msgs), d) == HeldOf(s, sender, d))
  {
    hide Permitted, Sends, CoinsOf, Amount, Covers, Tidy, SubAll, CheckAll;
    BatchSucceedsExactly(s, block, sender, msgs);
    if sender in s.allowances {
      SubAllExactly(s.allowances[sender].balance, CoinsOf(msgs), d);
    }
  }

  lemma IncreaseExactly(s: State, api: string -> bool, block: Block, sender: Addr, spender: string, amount: Coin,
                        expires: Option<Expiration>, d: string)
    requires AllTidy(s)
    ensures var r := ExecuteIncrease(s, api, block, sender, spender, amount, expires);
            && (r.Ok? <==> Accepts(s, api, block, sender, IncreaseAllowance(spender, amount, expires)))
            && (r.Ok? ==> AllTidy(r.value)
                          && Done(s, block, sender, IncreaseAllowance(spender, amount, expires), r.value, [], d))
  {
    hide Tidy, Amount, Add;
    NothingHad(d);
    NothingHad(amount.denom);
    assert IsAdmin(s, sender) <==> sender in s.config.admins;
    var held := if Live(s, spender, block) then s.allowances[spender].balance else [];
    AddTidy(held, amount);
    AddAdds(held, amount, d);
    AmountOne(amount, d);
  }

  lemma WorthSomething(balance: seq<Coin>)
    requires !IsEmpty(balance)
    ensures exists c | c in balance :: c.amount > 0
  {
    var i :| 0 <= i < |balance| && balance[i].amount != 0;
    assert balance[i] in balance;
  }

  lemma DecreaseExactly(s: State, api: string -> bool, block: Block, sender: Addr, spender: string, amount: Coin,
                        expires: Option<Expiration>, d: string)
    requires AllTidy(s)
    ensures var r := ExecuteDecrease(s, api, block, sender, spender, amount, expires);
            && (r.Ok? <==> Accepts(s, api, block, sender, DecreaseAllowance(spender, amount, expires)))
            && (r.Ok? ==> AllTidy(r.value)
                          && Done(s, block, sender, DecreaseAllowance(spender, amount, expires), r.value, [], d))
  {
    hide Tidy, Amount, SubSaturating, IsEmpty, Has;
    assert IsAdmin(s, sender) <==> sender in s.config.admins;
    if Live(s, spender, block) {
      var held := s.allowances[spender].balance;
      SaturatingTidy(held, amount, d);
      if SubSaturating(held, amount).Ok? {
        var left := SubSaturating(held, amount).value;
        if IsEmpty(left) {
          EmptyIsNothing(left, d);
        } else {
          WorthSomething(left);
        }
      }
    }
  }

  /** Every call of the proxy, exactly: when it goes through, what it changes, what it
      relays; in every state whose balances are tidy, which they are in every run. */
  lemma CallExactly(s: State, api: string -> bool, block: Block, sender: Addr, msg: Msg, d: string)
    requires AllTidy(s)
    ensures var r := Handle(s, api, block, sender, msg);
            && (r.Ok? <==> Accepts(s, api, block, sender, msg))
            && (r.Ok? ==> AllTidy(r.value.0) && Done(s, block, sender, msg, r.value.0, r.value.1, d))
  {
    hide Amount, Tidy, Sends, CoinsOf, Permitted, Covers, CheckAll, ExecuteIncrease, ExecuteDecrease;
    assert IsAdmin(s, sender) <==> sender in s.config.admins;
    match msg
    case Execute(msgs) =>
      if sender !in s.config.admins {
        ExecuteExactly(s, block, sender, msgs, d);
      }
    case IncreaseAllowance(spender, amount, expires) =>
      IncreaseExactly(s, api, block, sender, spender, amount, expires, d);
    case DecreaseAllowance(spender, amount, expires) =>
      DecreaseExactly(s, api, block, sender, spender, amount, expires, d);
    case UpdateAdmins(admins) =>
      assert (forall i | 0 <= i < |admins| :: api(admins[i])) <==> forall a | a in admins :: api(a);
    case _ =>
  }

  lemma InstantiateExactly(api: string -> bool, admins: seq<string>, mutable: bool)
    ensures var r := Instantiate(api, admins, mutable);
            && (r.Ok? <==> forall a | a in admins :: api(a))
            && (r.Ok? ==> r.value == State(AdminList(admins, mutable), map[], map[]))
  {
    assert (forall i | 0 <= i < |admins| :: api(admins[i])) <==> forall a | a in admins :: api(a);
  }

  lemma {:induction false} RunTidy(api: string -> bool, w: World, events: seq<Event>)
    requires AllTidy(w.proxy)
    ensures AllTidy(Run(api, w, events).proxy)
    decreases |events|
  {
    hide AllTidy, Handle, Record;
    if events != [] {
      if events[0].Call? {
        CallExactly(w.proxy, api, w.now, events[0].sender, events[0].msg, "");
      }
      RunTidy(api, Apply(api, w, events[0]), events[1..]);
    }
  }

  /** So in every run. */
  lemma RunCallExactly(api: string -> bool, start: World, admins: seq<string>, mutable: bool, events: seq<Event>,
                       sender: Addr, msg: Msg, d: string)
    requires Instantiate(api, admins, mutable) == Ok(start.proxy)
    ensures start.proxy == State(AdminList(admins, mutable), map[], map[])
    ensures var w := Run(api, start, events);
            var r := Handle(w.proxy, api, w.now, sender, msg);
            && (r.Ok? <==> Accepts(w.proxy, api, w.now, sender, msg))
            && (r.Ok? ==> Done(w.proxy, w.now, sender, msg, r.value.0, r.value.1, d))
  {
    hide Run, Handle, Accepts, Done;
    RunTidy(api, start, events);
    var w := Run(api, start, events);
    CallExactly(w.proxy, api, w.now, sender, msg, d);
  }
}
