/** A balance of coins as a list (`NativeBalance` of cw-utils), as far as subkey allowances
    use it: the first coin of a denomination counts. */
module Cw1Coins {
  import opened Prelude
  import opened Sorting

  predicate Has(balance: seq<Coin>, denom: string) {
    exists i | 0 <= i < |balance| :: balance[i].denom == denom
  }

  /** No coin that is worth anything. */
  predicate IsEmpty(balance: seq<Coin>) {
    forall i | 0 <= i < |balance| :: balance[i].amount == 0
  }

  /** `balance - coin`: an error if there is no coin of the denomination, or too little; a
      coin that is used up leaves the list. */
  function Sub(balance: seq<Coin>, coin: Coin): Result<seq<Coin>> {
    if balance == [] then Err(Overflow)
    else if balance[0].denom == coin.denom then
      var left :- CheckedSub(balance[0].amount, coin.amount, Overflow);
      Ok((if left == 0 then [] else [Coin(coin.denom, left)]) + balance[1..])
    else
      var rest :- Sub(balance[1..], coin);
      Ok([balance[0]] + rest)
  }

  function SubAll(balance: seq<Coin>, coins: seq<Coin>): Result<seq<Coin>>
    decreases |coins|
  {
    if coins == [] then Ok(balance)
    else
      var left :- Sub(balance, coins[0]);
      SubAll(left, coins[1..])
  }

  /** `sub_saturating`: like `-`, but too little is taken for all there is. */
  function SubSaturating(balance: seq<Coin>, coin: Coin): Result<seq<Coin>> {
    if balance == [] then Err(Overflow)
    else if balance[0].denom == coin.denom then
      Ok((if balance[0].amount <= coin.amount then [] else [Coin(coin.denom, balance[0].amount - coin.amount)])
         + balance[1..])
    else
      var rest :- SubSaturating(balance[1..], coin);
      Ok([balance[0]] + rest)
  }

  /** `+=`: raises the coin of the denomination, or inserts one in denomination order. */
  function Add(balance: seq<Coin>, coin: Coin): Result<seq<Coin>> {
    if Has(balance, coin.denom) then Raise(balance, coin) else Ok(Place(balance, coin))
  }

  function Raise(balance: seq<Coin>, coin: Coin): Result<seq<Coin>> {
    if balance == [] then Err(NotFound)
    else if balance[0].denom == coin.denom then
      var sum :- CheckedAdd128(balance[0].amount, coin.amount, Panic);
      Ok([Coin(coin.denom, sum)] + balance[1..])
    else
      var rest :- Raise(balance[1..], coin);
      Ok([balance[0]] + rest)
  }

  function Place(balance: seq<Coin>, coin: Coin): seq<Coin> {
    if balance == [] || Leq(coin.denom, balance[0].denom) then [coin] + balance
    else [balance[0]] + Place(balance[1..], coin)
  }

  predicate InOrder(balance: seq<Coin>) {
    forall i, j | 0 <= i < j < |balance| :: Leq(balance[i].denom, balance[j].denom)
  }

  lemma OrderCons(b: Coin, rest: seq<Coin>)
    ensures InOrder([b] + rest) <==> InOrder(rest) && forall c | c in rest :: Leq(b.denom, c.denom)
  {
    var all := [b] + rest;
    assert forall i | 0 <= i < |rest| :: all[i + 1] == rest[i];
    if InOrder(all) {
      forall c | c in rest
        ensures Leq(b.denom, c.denom)
      {
        var i :| 0 <= i < |rest| && rest[i] == c;
        assert Leq(all[0].denom, all[i + 1].denom);
      }
      forall i, j | 0 <= i < j < |rest|
        ensures Leq(rest[i].denom, rest[j].denom)
      {
        assert Leq(all[i + 1].denom, all[j + 1].denom);
      }
    }
  }

  /** A new coin is put where the order of denominations has it. */
  lemma {:induction false} PlaceKeepsOrder(balance: seq<Coin>, coin: Coin)
    requires InOrder(balance)
    ensures InOrder(Place(balance, coin)) && multiset(Place(balance, coin)) == multiset(balance) + multiset{coin}
  {
    hide InOrder, Leq;
    if balance == [] {
      OrderCons(coin, []);
      assert InOrder([]) by {
        SingleOrder();
      }
    } else {
      var b, rest := balance[0], balance[1..];
      assert balance == [b] + rest;
      OrderCons(b, rest);
      LeqTotal(coin.denom, b.denom);
      if Leq(coin.denom, b.denom) {
        forall c | c in balance
          ensures Leq(coin.denom, c.denom)
        {
          if c in rest {
            LeqTransitive(coin.denom, b.denom, c.denom);
          }
        }
        OrderCons(coin, balance);
      } else {
        PlaceKeepsOrder(rest, coin);
        forall c | c in Place(rest, coin)
          ensures Leq(b.denom, c.denom)
        {
          assert c in multiset(Place(rest, coin));
        }
        OrderCons(b, Place(rest, coin));
      }
    }
  }

  lemma SingleOrder()
    ensures InOrder([])
  {
  }

  // ------------------------------------------------------------------ amounts

  /** All that a list holds of one denomination. */
  function Amount(coins: seq<Coin>, denom: string): nat {
    if coins == [] then 0
    else (if coins[0].denom == denom then coins[0].amount else 0) + Amount(coins[1..], denom)
  }

  lemma {:induction false} AmountAppend(a: seq<Coin>, b: seq<Coin>, denom: string)
    ensures Amount(a + b, denom) == Amount(a, denom) + Amount(b, denom)
  {
    if a == [] {
      assert a + b == b;
    } else {
      AmountAppend(a[1..], b, denom);
      assert (a + b)[1..] == a[1..] + b;
    }
  }

  lemma EmptyIsNothing(balance: seq<Coin>, denom: string)
    requires IsEmpty(balance)
    ensures Amount(balance, denom) == 0
  {
  }

  lemma AmountOne(c: Coin, denom: string)
    ensures Amount([c], denom) == if c.denom == denom then c.amount else 0
  {
  }

  lemma AmountCons(c: Coin, rest: seq<Coin>, denom: string)
    ensures Amount([c] + rest, denom) == Amount([c], denom) + Amount(rest, denom)
  {
    AmountAppend([c], rest, denom);
  }

  /** A subtraction takes exactly the coin. */
  lemma {:induction false} SubTakes(balance: seq<Coin>, coin: Coin, denom: string)
    ensures var r := Sub(balance, coin);
            r.Ok? ==> Amount(r.value, denom) + Amount([coin], denom) == Amount(balance, denom)
  {
    if balance != [] && Sub(balance, coin).Ok? {
      hide Amount;
      var b, rest := balance[0], balance[1..];
      assert balance == [b] + rest;
      AmountCons(b, rest, denom);
      AmountOne(b, denom);
      AmountOne(coin, denom);
      if b.denom == coin.denom {
        var left := b.amount - coin.amount;
        if left == 0 {
          assert [] + rest == rest;
        } else {
          AmountCons(Coin(coin.denom, left), rest, denom);
          AmountOne(Coin(coin.denom, left), denom);
        }
      } else {
        SubTakes(rest, coin, denom);
        AmountCons(b, Sub(rest, coin).value, denom);
      }
    }
  }

  lemma {:induction false} SubAllTakes(balance: seq<Coin>, coins: seq<Coin>, denom: string)
    ensures var r := SubAll(balance, coins);
            r.Ok? ==> Amount(r.value, denom) + Amount(coins, denom) == Amount(balance, denom)
    decreases |coins|
  {
    if coins != [] && SubAll(balance, coins).Ok? {
      SubTakes(balance, coins[0], denom);
      SubAllTakes(Sub(balance, coins[0]).value, coins[1..], denom);
      assert coins == [coins[0]] + coins[1..];
      AmountCons(coins[0], coins[1..], denom);
    }
  }

  /** A saturating subtraction takes no more than the coin, and gives nothing. */
  lemma {:induction false} SaturatingLowers(balance: seq<Coin>, coin: Coin, denom: string)
    ensures var r := SubSaturating(balance, coin);
            r.Ok? ==> Amount(r.value, denom) <= Amount(balance, denom) <= Amount(r.value, denom) + Amount([coin], denom)
  {
    if balance != [] && SubSaturating(balance, coin).Ok? {
      hide Amount;
      var b, rest := balance[0], balance[1..];
      assert balance == [b] + rest;
      AmountCons(b, rest, denom);
      AmountOne(b, denom);
      AmountOne(coin, denom);
      if b.denom == coin.denom {
        if b.amount <= coin.amount {
          assert [] + rest == rest;
        } else {
          AmountCons(Coin(coin.denom, b.amount - coin.amount), rest, denom);
          AmountOne(Coin(coin.denom, b.amount - coin.amount), denom);
        }
      } else {
        SaturatingLowers(rest, coin, denom);
        AmountCons(b, SubSaturating(rest, coin).value, denom);
      }
    }
  }

  lemma {:induction false} RaiseAdds(balance: seq<Coin>, coin: Coin, denom: string)
    ensures var r := Raise(balance, coin);
            r.Ok? ==> Amount(r.value, denom) == Amount(balance, denom) + Amount([coin], denom)
  {
    if balance != [] && Raise(balance, coin).Ok? {
      hide Amount;
      var b, rest := balance[0], balance[1..];
      assert balance == [b] + rest;
      AmountCons(b, rest, denom);
      AmountOne(b, denom);
      AmountOne(coin, denom);
      if b.denom == coin.denom {
        AmountCons(Coin(coin.denom, b.amount + coin.amount), rest, denom);
        AmountOne(Coin(coin.denom, b.amount + coin.amount), denom);
      } else {
        RaiseAdds(rest, coin, denom);
        AmountCons(b, Raise(rest, coin).value, denom);
      }
    }
  }

  lemma {:induction false} PlaceAdds(balance: seq<Coin>, coin: Coin, denom: string)
    ensures Amount(Place(balance, coin), denom) == Amount(balance, denom) + Amount([coin], denom)
  {
    AmountCons(coin, balance, denom);
    if balance != [] && !Leq(coin.denom, balance[0].denom) {
      PlaceAdds(balance[1..], coin, denom);
      assert balance == [balance[0]] + balance[1..];
      AmountCons(balance[0], balance[1..], denom);
      AmountCons(balance[0], Place(balance[1..], coin), denom);
    }
  }

  /** An addition adds exactly the coin. */
  lemma AddAdds(balance: seq<Coin>, coin: Coin, denom: string)
    ensures var r := Add(balance, coin);
            r.Ok? ==> Amount(r.value, denom) == Amount(balance, denom) + Amount([coin], denom)
  {
    RaiseAdds(balance, coin, denom);
    PlaceAdds(balance, coin, denom);
  }
}
