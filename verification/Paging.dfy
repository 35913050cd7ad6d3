/** Listings in pages (contracts/cw20-base/src/enumerable.rs:14-79,
    contracts/cw1-subkeys/src/contract.rs:394-453): a range of a stored map in key order,
    optionally filtered, cut to a limit; and a client that follows `start_after`. */
module Paging {
  import opened Prelude
  import opened Sorting

  const MAX_LIMIT: nat := 30
  const DEFAULT_LIMIT: nat := 10

  function CalcLimit(request: Option<nat>): nat {
    var limit := request.UnwrapOr(DEFAULT_LIMIT);
    if limit < MAX_LIMIT then limit else MAX_LIMIT
  }

  // ------------------------------------------------------------ key order

  ghost predicate Least(keys: set<string>, k: string) {
    k in keys && forall j | j in keys :: Leq(k, j)
  }

  lemma {:induction false} LeastExists(keys: set<string>)
    requires keys != {}
    ensures exists k :: Least(keys, k)
    decreases |keys|
  {
    var k :| k in keys;
    LeqTotal(k, k);
    if keys == {k} {
      assert Least(keys, k);
    } else {
      LeastExists(keys - {k});
      var j :| Least(keys - {k}, j);
      LeqTotal(j, k);
      if Leq(k, j) {
        forall i | i in keys
          ensures Leq(k, i)
        {
          if i != k {
            LeqTransitive(k, j, i);
          }
        }
        assert Least(keys, k);
      } else {
        assert Least(keys, j);
      }
    }
  }

  /** The keys of a stored map in ascending order. */
  ghost function Ascending(keys: set<string>): seq<string>
    decreases |keys|
  {
    if keys == {} then []
    else
      LeastExists(keys);
      var k :| Least(keys, k);
      [k] + Ascending(keys - {k})
  }

  predicate Increasing(keys: seq<string>) {
    forall i, j | 0 <= i < j < |keys| :: Less(keys[i], keys[j])
  }

  lemma {:induction false} AscendingIsIncreasing(keys: set<string>)
    ensures Increasing(Ascending(keys))
    ensures forall k :: k in Ascending(keys) <==> k in keys
    decreases |keys|
  {
    if keys != {} {
      LeastExists(keys);
      var k :| Least(keys, k) && Ascending(keys) == [k] + Ascending(keys - {k});
      var rest := Ascending(keys - {k});
      AscendingIsIncreasing(keys - {k});
      forall j | 0 <= j < |rest|
        ensures Less(k, rest[j])
      {
        assert rest[j] in rest;
        LessOrder(k, rest[j], k);
      }
      assert forall j :: j in keys <==> j == k || j in keys - {k};
    }
  }

  /** An increasing listing is determined by its elements. */
  lemma {:induction false} IncreasingUnique(a: seq<string>, b: seq<string>)
    requires Increasing(a) && Increasing(b) && forall k :: k in a <==> k in b
    ensures a == b
  {
    assert (a != [] ==> a[0] in b) && (b != [] ==> b[0] in a);
    if a != [] && b != [] {
      FirstIsLeast(a, b);
      FirstIsLeast(b, a);
      LessOrder(a[0], b[0], a[0]);
      TailElements(a);
      TailElements(b);
      IncreasingUnique(a[1..], b[1..]);
      assert a == [a[0]] + a[1..] && b == [b[0]] + b[1..];
    }
  }

  lemma FirstIsLeast(a: seq<string>, b: seq<string>)
    requires Increasing(a) && a != [] && b != [] && b[0] in a
    ensures a[0] == b[0] || Less(a[0], b[0])
  {
    var i :| 0 <= i < |a| && a[i] == b[0];
  }

  lemma TailElements(a: seq<string>)
    requires Increasing(a) && a != []
    ensures Increasing(a[1..])
    ensures forall k :: k in a[1..] <==> k in a && k != a[0]
  {
    assert a == [a[0]] + a[1..];
    forall k | k in a[1..]
      ensures k != a[0]
    {
      var i :| 0 <= i < |a| - 1 && a[1..][i] == k;
      assert Less(a[0], a[i + 1]);
      LessOrder(a[0], a[0], a[0]);
    }
  }

  // -------------------------------------------------------------- ranges

  predicate Beyond(start: Option<string>, k: string) {
    start.None? || Less(start.value, k)
  }

  /** `map.range(store, start, None, Ascending)` with an exclusive start. */
  ghost function RangeKeys<V>(m: map<string, V>, start: Option<string>): seq<string> {
    Ascending(set k | k in m && Beyond(start, k))
  }

  /** A range that starts after some key of another range is the rest of it. */
  lemma RangeAfter<V>(m: map<string, V>, start: Option<string>, i: nat)
    requires i < |RangeKeys(m, start)|
    ensures RangeKeys(m, Some(RangeKeys(m, start)[i])) == RangeKeys(m, start)[i + 1..]
  {
    hide Increasing, Ascending;
    var all := RangeKeys(m, start);
    var rest, tail := RangeKeys(m, Some(all[i])), all[i + 1..];
    AscendingIsIncreasing(set k | k in m && Beyond(start, k));
    AscendingIsIncreasing(set k | k in m && Beyond(Some(all[i]), k));
    assert all[i] in all;
    SuffixElements(all, i);
    forall k
      ensures k in rest <==> k in tail
    {
      if k in rest {
        BeyondMore(start, all[i], k);
      }
    }
    IncreasingUnique(rest, tail);
  }

  /** The part of an increasing listing after one of its keys: all the greater keys. */
  lemma SuffixElements(a: seq<string>, i: nat)
    requires Increasing(a) && i < |a|
    ensures Increasing(a[i + 1..])
    ensures forall k :: k in a[i + 1..] <==> k in a && Less(a[i], k)
  {
    var tail := a[i + 1..];
    forall k
      ensures k in tail <==> k in a && Less(a[i], k)
    {
      if k in a && Less(a[i], k) {
        var j :| 0 <= j < |a| && a[j] == k;
        LessOrder(a[i], k, a[i]);
        assert j > i;
        assert tail[j - i - 1] == k;
      }
      if k in tail {
        var j :| 0 <= j < |tail| && tail[j] == k;
        assert a[i + 1 + j] == k;
      }
    }
  }

  lemma BeyondMore(start: Option<string>, k: string, j: string)
    requires Beyond(start, k) && Less(k, j)
    ensures Beyond(start, j)
  {
    if start.Some? {
      LessOrder(start.value, k, j);
    }
  }

  // --------------------------------------------------------------- pages

  /** `.filter(…)` on the entries under a range of keys. */
  ghost function Kept<V>(m: map<string, V>, keys: seq<string>, keep: V -> bool): seq<(string, V)> {
    if keys == [] then []
    else if keys[0] in m && keep(m[keys[0]]) then [(keys[0], m[keys[0]])] + Kept(m, keys[1..], keep)
    else Kept(m, keys[1..], keep)
  }

  /** All that is left to list, and one page of it: the filter comes before the limit. */
  ghost function Rest<V>(m: map<string, V>, start: Option<string>, keep: V -> bool): seq<(string, V)> {
    Kept(m, RangeKeys(m, start), keep)
  }

  ghost function Page<V>(m: map<string, V>, start: Option<string>, limit: nat, keep: V -> bool): seq<(string, V)> {
    var rest := Rest(m, start, keep);
    if limit < |rest| then rest[..limit] else rest
  }

  function Keys<V>(entries: seq<(string, V)>): (keys: seq<string>) {
    seq(|entries|, i requires 0 <= i < |entries| => entries[i].0)
  }

  lemma {:induction false} KeptElements<V>(m: map<string, V>, keys: seq<string>, keep: V -> bool)
    ensures forall e :: e in Kept(m, keys, keep) <==> e.0 in keys && e.0 in m && m[e.0] == e.1 && keep(e.1)
  {
    if keys != [] {
      KeptElements(m, keys[1..], keep);
      assert keys == [keys[0]] + keys[1..];
    }
  }

  /** Cutting a filtered listing after its `n`-th entry cuts the keys under it there. */
  lemma {:induction false} KeptCut<V>(m: map<string, V>, keys: seq<string>, keep: V -> bool, n: nat) returns (i: nat)
    requires n < |Kept(m, keys, keep)|
    ensures i < |keys| && keys[i] == Kept(m, keys, keep)[n].0
    ensures Kept(m, keys[i + 1..], keep) == Kept(m, keys, keep)[n + 1..]
  {
    if keys[0] in m && keep(m[keys[0]]) {
      if n == 0 {
        i := 0;
      } else {
        var j := KeptCut(m, keys[1..], keep, n - 1);
        i := j + 1;
        assert keys[1..][j + 1..] == keys[i + 1..];
      }
    } else {
      var j := KeptCut(m, keys[1..], keep, n);
      i := j + 1;
      assert keys[1..][j + 1..] == keys[i + 1..];
    }
  }

  /** A page is the beginning of what is left, and never longer than 30 entries; it is cut
      only at the number asked for, at 10 if none is, or at 30. */
  lemma PageSize<V>(m: map<string, V>, start: Option<string>, request: Option<nat>, keep: V -> bool)
    ensures var page, rest := Page(m, start, CalcLimit(request), keep), Rest(m, start, keep);
            && page <= rest && |page| <= 30
            && (page != rest ==> |page| == match request
                                           case None => 10
                                           case Some(n) => if n <= 30 then n else 30)
  {
    hide Rest;
  }

  /** Starting after the last key of a page, exactly the rest of the listing is left. */
  lemma NextPage<V>(m: map<string, V>, start: Option<string>, limit: nat, keep: V -> bool)
    requires Page(m, start, limit, keep) != []
    ensures var page := Page(m, start, limit, keep);
            page + Rest(m, Some(page[|page| - 1].0), keep) == Rest(m, start, keep)
  {
    var keys, page, rest := RangeKeys(m, start), Page(m, start, limit, keep), Rest(m, start, keep);
    var i := KeptCut(m, keys, keep, |page| - 1);
    RangeAfter(m, start, i);
    assert page == rest[..|page|];
  }

  /** A client that asks for page after page, each after the last key of the one before,
      until a page is empty. */
  ghost function Follow<V>(m: map<string, V>, start: Option<string>, limit: nat, keep: V -> bool): seq<(string, V)>
    decreases |Rest(m, start, keep)|
  {
    var page := Page(m, start, limit, keep);
    if page == [] then []
    else
      NextPage(m, start, limit, keep);
      page + Follow(m, Some(page[|page| - 1].0), limit, keep)
  }

  /** Following the pages lists everything, in order, with no gap and no repeat, if and only
      if there is nothing to list or the limit is positive. */
  lemma {:induction false} FollowIsComplete<V>(m: map<string, V>, start: Option<string>, limit: nat, keep: V -> bool)
    ensures Follow(m, start, limit, keep) == Rest(m, start, keep) <==> limit > 0 || Rest(m, start, keep) == []
    decreases |Rest(m, start, keep)|
  {
    hide Rest;
    var page := Page(m, start, limit, keep);
    if page != [] {
      NextPage(m, start, limit, keep);
      FollowIsComplete(m, Some(page[|page| - 1].0), limit, keep);
    }
  }

  /** What the whole listing is: every entry that is kept, once, in ascending key order. */
  lemma ListingIsExact<V>(m: map<string, V>, start: Option<string>, keep: V -> bool)
    ensures forall e :: e in Rest(m, start, keep)
                        <==> e.0 in m && Beyond(start, e.0) && m[e.0] == e.1 && keep(e.1)
    ensures Increasing(Keys(Rest(m, start, keep)))
  {
    var keys := RangeKeys(m, start);
    AscendingIsIncreasing(set k | k in m && Beyond(start, k));
    KeptElements(m, keys, keep);
    KeptIncreasing(m, keys, keep);
  }

  lemma {:induction false} KeptIncreasing<V>(m: map<string, V>, keys: seq<string>, keep: V -> bool)
    requires Increasing(keys)
    ensures Increasing(Keys(Kept(m, keys, keep)))
  {
    if keys != [] {
      TailElements(keys);
      KeptIncreasing(m, keys[1..], keep);
      var rest := Kept(m, keys[1..], keep);
      forall j | 0 <= j < |rest|
        ensures Less(keys[0], Keys(rest)[j])
      {
        var i := KeptCut(m, keys[1..], keep, j);
        assert keys[1..][i] == keys[i + 1];
      }
      if keys[0] in m && keep(m[keys[0]]) {
        assert Keys(Kept(m, keys, keep)) == [keys[0]] + Keys(rest);
      }
    }
  }
}
