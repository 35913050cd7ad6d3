/** The paginated listings of the token (contracts/cw20-base/src/enumerable.rs). */
module Cw20Listings {
  import opened Prelude
  import opened Sorting
  import opened Cw20Base
  import opened Paging
  import Cw20Theorems

  function All<V>(): V -> bool {
    (v: V) => true
  }

  /** `allowances.prefix(first)`: what the map holds under one first address. */
  function Prefix(allowances: Allowances, first: Addr): map<Addr, Allowance> {
    map pair | pair in allowances && pair.0 == first :: pair.1 := allowances[pair]
  }

  /** `query_owner_allowances` on the owner-keyed map, and `query_spender_allowances` on the
      spender-keyed one. */
  ghost function QueryAllowances(allowances: Allowances, api: string -> bool, first: string,
                                 startAfter: Option<string>, limit: Option<nat>): Result<seq<(Addr, Allowance)>>
  {
    if !api(first) then Err(InvalidAddress)
    else Ok(Page(Prefix(allowances, first), startAfter, CalcLimit(limit), All()))
  }

  /** A client that puts the query again and again, each time with the last address that it
      got, until it gets nothing. */
  ghost function Ask(allowances: Allowances, api: string -> bool, first: string,
                     startAfter: Option<string>, limit: Option<nat>): seq<(Addr, Allowance)>
    decreases |Rest(Prefix(allowances, first), startAfter, All())|
  {
    var answer := QueryAllowances(allowances, api, first, startAfter, limit);
    if answer.Err? || answer.value == [] then []
    else
      NextPage(Prefix(allowances, first), startAfter, CalcLimit(limit), All());
      answer.value + Ask(allowances, api, first, Some(answer.value[|answer.value| - 1].0), limit)
  }

  lemma {:induction false} AskFollows(allowances: Allowances, api: string -> bool, first: string,
                                      startAfter: Option<string>, limit: Option<nat>)
    requires api(first)
    ensures Ask(allowances, api, first, startAfter, limit) ==
            Follow(Prefix(allowances, first), startAfter, CalcLimit(limit), All())
    decreases |Rest(Prefix(allowances, first), startAfter, All())|
  {
    hide Rest, Prefix, CalcLimit;
    var page := Page(Prefix(allowances, first), startAfter, CalcLimit(limit), All());
    if page != [] {
      NextPage(Prefix(allowances, first), startAfter, CalcLimit(limit), All());
      AskFollows(allowances, api, first, Some(page[|page| - 1].0), limit);
    }
  }

  lemma PrefixAt(allowances: Allowances, first: Addr, second: Addr)
    ensures second in Prefix(allowances, first) <==> (first, second) in allowances
    ensures second in Prefix(allowances, first) ==> Prefix(allowances, first)[second] == allowances[(first, second)]
  {
  }

  /** A client that pages through the allowances of an owner (or, on the other map, of a
      spender) with any positive limit, or none, collects each of them once, by ascending
      address. With the limit 0 it collects nothing. */
  lemma AllowanceListingComplete(allowances: Allowances, api: string -> bool, first: Addr, limit: Option<nat>)
    requires api(first)
    ensures var listing := Ask(allowances, api, first, None, limit);
            && (limit == Some(0) ==> listing == [])
            && (limit != Some(0) ==>
                  && Increasing(Keys(listing))
                  && forall second: Addr, a: Allowance ::
                       (second, a) in listing <==> Entry(allowances, (first, second)) == Some(a))
  {
    hide Rest, Increasing, Keys;
    var m := Prefix(allowances, first);
    AskFollows(allowances, api, first, None, limit);
    if limit != Some(0) {
      FollowIsComplete(m, None, CalcLimit(limit), All());
      ListingIsExact(m, None, All<Allowance>());
      forall second: Addr, a: Allowance
        ensures (second, a) in Rest(m, None, All()) <==> Entry(allowances, (first, second)) == Some(a)
      {
        PrefixAt(allowances, first, second);
      }
    }
  }

  /** In every reachable state the two listings of allowances tell the same: a spender finds
      an owner in the own listing exactly if that owner's listing has the spender, with the
      same amount and expiration. */
  lemma ListingsAgree(api: string -> bool, start: Cw20Theorems.World, origin: Cw20Theorems.Origin,
                      events: seq<Cw20Theorems.Event>, owner: Addr, spender: Addr, a: Allowance,
                      mine: Option<nat>, theirs: Option<nat>)
    requires Cw20Theorems.StartsFrom(api, start, origin) && api(owner) && api(spender)
    requires mine != Some(0) && theirs != Some(0)
    ensures var s := Cw20Theorems.Run(api, start, events).token;
            (spender, a) in Ask(s.allowances, api, owner, None, mine)
            <==> (owner, a) in Ask(s.bySpender, api, spender, None, theirs)
  {
    hide CalcLimit, Prefix, Increasing, Keys, Ask;
    var s := Cw20Theorems.Run(api, start, events).token;
    Cw20Theorems.MirrorExact(api, start, origin, events, owner, spender);
    AllowanceListingComplete(s.allowances, api, owner, mine);
    AllowanceListingComplete(s.bySpender, api, spender, theirs);
  }

  /** Paging through all accounts (`query_all_accounts`, which keeps the keys only) with a
      positive limit lists every account once. */
  lemma AccountsListingComplete(s: State, limit: Option<nat>)
    requires limit != Some(0)
    ensures var accounts := Keys(Follow(s.balances, None, CalcLimit(limit), All()));
            Increasing(accounts) && forall a: Addr :: a in accounts <==> a in s.balances
  {
    hide Rest, Increasing;
    FollowIsComplete(s.balances, None, CalcLimit(limit), All());
    ListingIsExact(s.balances, None, All<Uint128>());
    var listing := Rest(s.balances, None, All());
    forall a: Addr
      ensures a in Keys(listing) <==> a in s.balances
    {
      if a in s.balances {
        assert (a, s.balances[a]) in listing;
        var i :| 0 <= i < |listing| && listing[i] == (a, s.balances[a]);
        assert Keys(listing)[i] == a;
      }
      if a in Keys(listing) {
        var i :| 0 <= i < |listing| && Keys(listing)[i] == a;
        assert listing[i] in listing;
      }
    }
  }
}
