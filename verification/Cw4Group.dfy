/** The voting group (contracts/cw4-group/src/{contract,helpers}.rs): its updates as
    functions, the contract object, and what every update keeps. */
module Cw4Group {
  import opened Prelude
  import opened Sums
  import opened Sorting

  datatype Member = Member(addr: string, weight: Uint64)

  /** The old and new weight of one member, as hooks are told. */
  datatype MemberDiff = MemberDiff(key: string, before: Option<Uint64>, after: Option<Uint64>)

  type Members = map<Addr, Uint64>

  datatype State = State(admin: Option<Addr>, members: Members, total: Uint64)

  /** Where a loop of `update_members` stands. */
  datatype Progress = Progress(members: Members, total: Uint64, diffs: seq<MemberDiff>)

  const ADDR_OF: Member -> string := (m: Member) => m.addr

  function Lookup(members: Members, addr: Addr): Option<Uint64> {
    if addr in members then Some(members[addr]) else None
  }

  function AddOne(api: string -> bool, p: Progress, m: Member): Result<Progress> {
    var addr :- AddrValidate(api, m.addr);
    var prior := Lookup(p.members, addr);
    var without :- CheckedSub(p.total, prior.UnwrapOr(0), Overflow);
    var total :- CheckedAdd64(without, m.weight, Overflow);
    Ok(Progress(p.members[addr := m.weight], total, p.diffs + [MemberDiff(addr, prior, Some(m.weight))]))
  }

  function AddAll(api: string -> bool, p: Progress, add: seq<Member>): Result<Progress>
    decreases |add|
  {
    if add == [] then Ok(p)
    else
      var q :- AddOne(api, p, add[0]);
      AddAll(api, q, add[1..])
  }

  function RemoveOne(api: string -> bool, p: Progress, remove: string): Result<Progress> {
    var addr :- AddrValidate(api, remove);
    var prior := Lookup(p.members, addr);
    if prior.None? then Ok(p)
    else
      var total :- CheckedSub(p.total, prior.value, Overflow);
      Ok(Progress(p.members - {addr}, total, p.diffs + [MemberDiff(addr, prior, None)]))
  }

  function RemoveAll(api: string -> bool, p: Progress, remove: seq<string>): Result<Progress>
    decreases |remove|
  {
    if remove == [] then Ok(p)
    else
      var q :- RemoveOne(api, p, remove[0]);
      RemoveAll(api, q, remove[1..])
  }

  /** The sorted list, if no address is in it twice. */
  function ValidateUniqueMembers(members: seq<Member>): Result<seq<Member>> {
    if Distinct(members, ADDR_OF) then Ok(Sort(members, ADDR_OF)) else Err(DuplicateMember)
  }

  function UpdateMembers(s: State, api: string -> bool, sender: Addr, add: seq<Member>, remove: seq<string>)
    : Result<(State, seq<MemberDiff>)>
  {
    var sorted :- ValidateUniqueMembers(add);
    :- Need(s.admin == Some(sender), Unauthorized);
    var added :- AddAll(api, Progress(s.members, s.total, []), sorted);
    var done :- RemoveAll(api, added, remove);
    Ok((s.(members := done.members, total := done.total), done.diffs))
  }

  /** `create`: saves every member and adds up the total; no diffs. */
  function CreateOne(api: string -> bool, p: Progress, m: Member): Result<Progress> {
    var total :- CheckedAdd64(p.total, m.weight, Overflow);
    var addr :- AddrValidate(api, m.addr);
    Ok(p.(members := p.members[addr := m.weight], total := total))
  }

  function CreateAll(api: string -> bool, p: Progress, members: seq<Member>): Result<Progress>
    decreases |members|
  {
    if members == [] then Ok(p)
    else
      var q :- CreateOne(api, p, members[0]);
      CreateAll(api, q, members[1..])
  }

  function Create(api: string -> bool, admin: Option<string>, members: seq<Member>): Result<State> {
    var sorted :- ValidateUniqueMembers(members);
    var adminAddr :- if admin.None? then Ok(None) else
                       (match AddrValidate(api, admin.value) case Ok(a) => Ok(Some(a)) case Err(e) => Err(e));
    var done :- CreateAll(api, Progress(map[], 0, []), sorted);
    Ok(State(adminAddr, done.members, done.total))
  }

  // ------------------------------------------------------------- the contract

  /** A listing has a duplicate exactly when its sorted form has two equal neighbours. */
  lemma UniqueIfNeighboursDiffer(members: seq<Member>)
    ensures var sorted := Sort(members, ADDR_OF);
            && |sorted| == |members|
            && (Distinct(members, ADDR_OF) <==>
                  forall i | 0 <= i < |sorted| - 1 :: sorted[i].addr != sorted[i + 1].addr)
  {
    var sorted := Sort(members, ADDR_OF);
    SortIsSorted(members, ADDR_OF);
    SortKeepsDistinct(members, ADDR_OF);
    NeighboursSuffice(sorted, ADDR_OF);
    assert |multiset(sorted)| == |sorted| && |multiset(members)| == |members|;
    assert forall i | 0 <= i < |sorted| :: ADDR_OF(sorted[i]) == sorted[i].addr;
  }

  /** Sorts the slice in place and looks for equal neighbours. */
  method CheckUnique(members: array<Member>) returns (r: Result<()>)
    modifies members
    ensures members[..] == Sort(old(members[..]), ADDR_OF)
    ensures r == if Distinct(old(members[..]), ADDR_OF) then Ok(()) else Err(DuplicateMember)
  {
    hide Distinct, Ordered, Sort;
    var sorted := Sort(members[..], ADDR_OF);
    UniqueIfNeighboursDiffer(members[..]);
    forall i | 0 <= i < members.Length {
      members[i] := sorted[i];
    }
    assert members[..] == sorted;
    for i := 0 to members.Length
      invariant members[..] == sorted
      invariant forall j | 0 <= j < i - 1 :: sorted[j].addr != sorted[j + 1].addr
    {
      if i > 0 && members[i - 1].addr == members[i].addr {
        assert sorted[i - 1].addr == sorted[i - 1 + 1].addr;
        return Err(DuplicateMember);
      }
    }
    return Ok(());
  }

  class Group {
    const api: string -> bool
    var admin: Option<Addr>
    var members: Members
    var total: Uint64

    function Storage(): State
      reads this
    {
      State(admin, members, total)
    }

    constructor (api: string -> bool)
      ensures this.api == api && Storage() == State(None, map[], 0)
    {
      this.api, admin, members, total := api, None, map[], 0;
    }

    method Setup(adminName: Option<string>, init: array<Member>) returns (r: Result<()>)
      requires members == map[] && total == 0
      modifies this, init
      ensures match Create(api, adminName, old(init[..]))
              case Ok(s) => r.Ok? && Storage() == s
              case Err(e) => r == Err(e)
    {
      hide Distinct, Sort, CreateAll;
      var unique := CheckUnique(init);
      if unique.Err? {
        return Err(unique.error);
      }
      admin := None;
      if adminName.Some? {
        if !api(adminName.value) {
          return Err(InvalidAddress);
        }
        admin := Some(adminName.value);
      }
      var filled := Fill(init);
      if filled.Err? {
        return Err(filled.error);
      }
      total := filled.value;
      return Ok(());
    }

    method Fill(init: array<Member>) returns (r: Result<Uint64>)
      requires members == map[]
      modifies this`members
      ensures match CreateAll(api, Progress(map[], 0, []), init[..])
              case Ok(done) => r == Ok(done.total) && members == done.members
              case Err(e) => r == Err(e)
    {
      var sum: Uint64 := 0;
      ghost var all := CreateAll(api, Progress(map[], 0, []), init[..]);
      assert init[0..] == init[..];
      for i := 0 to init.Length
        invariant CreateAll(api, Progress(members, sum, []), init[i..]) == all
      {
        assert init[i..][0] == init[i] && init[i..][1..] == init[i + 1..];
        if sum + init[i].weight > U64_MAX {
          return Err(Overflow);
        }
        sum := sum + init[i].weight;
        if !api(init[i].addr) {
          return Err(InvalidAddress);
        }
        members := members[init[i].addr := init[i].weight];
      }
      return Ok(sum);
    }

    /** The two loops of `update_members`; the chain takes back the writes of a failed call. */
    method Update(sender: Addr, toAdd: array<Member>, toRemove: seq<string>) returns (r: Result<seq<MemberDiff>>)
      modifies this`members, this`total, toAdd
      ensures match UpdateMembers(old(Storage()), api, sender, old(toAdd[..]), toRemove)
              case Ok((s, diffs)) => r == Ok(diffs) && Storage() == s
              case Err(e) => r == Err(e) && Storage() == old(Storage())
    {
      hide Distinct, Sort, AddAll, RemoveAll;
      var unique := CheckUnique(toAdd);
      if unique.Err? {
        return Err(unique.error);
      }
      if admin != Some(sender) {
        return Err(Unauthorized);
      }
      var before := members;
      r := ApplyChanges(toAdd, toRemove);
      if r.Err? {
        members := before;
      }
    }

    method ApplyChanges(toAdd: array<Member>, toRemove: seq<string>) returns (r: Result<seq<MemberDiff>>)
      modifies this`members, this`total
      ensures r.Err? ==> total == old(total)
      ensures match AddAll(api, Progress(old(members), old(total), []), toAdd[..])
              case Err(e) => r == Err(e)
              case Ok(added) =>
                (match RemoveAll(api, added, toRemove)
                 case Err(e) => r == Err(e)
                 case Ok(done) => r == Ok(done.diffs) && members == done.members && total == done.total)
    {
      hide AddAll, RemoveAll;
      var added := AddMembers(toAdd);
      if added.Err? {
        return Err(added.error);
      }
      var removed := RemoveMembers(toRemove, added.value.0, added.value.1);
      if removed.Err? {
        return Err(removed.error);
      }
      total := removed.value.0;
      return Ok(removed.value.1);
    }

    method AddMembers(toAdd: array<Member>) returns (r: Result<(Uint64, seq<MemberDiff>)>)
      modifies this`members
      ensures match AddAll(api, Progress(old(members), total, []), toAdd[..])
              case Ok(p) => r == Ok((p.total, p.diffs)) && members == p.members
              case Err(e) => r == Err(e)
    {
      var sum: Uint64 := total;
      var diffs: seq<MemberDiff> := [];
      ghost var adds := AddAll(api, Progress(members, sum, diffs), toAdd[..]);
      assert toAdd[0..] == toAdd[..];
      for i := 0 to toAdd.Length
        invariant AddAll(api, Progress(members, sum, diffs), toAdd[i..]) == adds
      {
        assert toAdd[i..][0] == toAdd[i] && toAdd[i..][1..] == toAdd[i + 1..];
        var add := toAdd[i];
        if !api(add.addr) {
          return Err(InvalidAddress);
        }
        var prior := Lookup(members, add.addr);
        if sum < prior.UnwrapOr(0) {
          return Err(Overflow);
        }
        sum := sum - prior.UnwrapOr(0);
        if sum + add.weight > U64_MAX {
          return Err(Overflow);
        }
        sum := sum + add.weight;
        diffs := diffs + [MemberDiff(add.addr, prior, Some(add.weight))];
        members := members[add.addr := add.weight];
      }
      return Ok((sum, diffs));
    }

    method RemoveMembers(toRemove: seq<string>, before: Uint64, added: seq<MemberDiff>)
      returns (r: Result<(Uint64, seq<MemberDiff>)>)
      modifies this`members
      ensures match RemoveAll(api, Progress(old(members), before, added), toRemove)
              case Ok(p) => r == Ok((p.total, p.diffs)) && members == p.members
              case Err(e) => r == Err(e)
    {
      var sum, diffs := before, added;
      ghost var removes := RemoveAll(api, Progress(members, sum, diffs), toRemove);
      for i := 0 to |toRemove|
        invariant RemoveAll(api, Progress(members, sum, diffs), toRemove[i..]) == removes
      {
        assert toRemove[i..][0] == toRemove[i] && toRemove[i..][1..] == toRemove[i + 1..];
        var remove := toRemove[i];
        if !api(remove) {
          return Err(InvalidAddress);
        }
        if remove in members {
          var weight := members[remove];
          diffs := diffs + [MemberDiff(remove, Some(weight), None)];
          if sum < weight {
            return Err(Overflow);
          }
          sum := sum - weight;
          members := members - {remove};
        }
      }
      return Ok((sum, diffs));
    }
  }

  // ------------------------------------------------------------------ results

  function Weights(members: Members): map<Addr, nat> {
    map a | a in members :: members[a]
  }

  /** The stored total is the sum of the stored weights. */
  ghost predicate TotalIsSum(members: Members, total: nat) {
    total == Sum(Weights(members))
  }

  lemma SetWeight(members: Members, addr: Addr, weight: Uint64)
    ensures Sum(Weights(members[addr := weight])) + Lookup(members, addr).UnwrapOr(0) == Sum(Weights(members)) + weight
  {
    assert Weights(members[addr := weight]) == Weights(members)[addr := weight];
    SumUpdate(Weights(members), addr, weight);
  }

  lemma DropWeight(members: Members, addr: Addr)
    ensures Sum(Weights(members - {addr})) + Lookup(members, addr).UnwrapOr(0) == Sum(Weights(members))
  {
    assert Weights(members - {addr}) == Weights(members) - {addr};
    SumRemove(Weights(members), addr);
  }

  /** What one diff says to do. */
  function Step(members: Members, d: MemberDiff): Members {
    match d.after
    case Some(w) => members[d.key := w]
    case None => members - {d.key}
  }

  /** Applying a list of diffs to a map of members. */
  function Replay(members: Members, diffs: seq<MemberDiff>): Members
    decreases |diffs|
  {
    if diffs == [] then members else Step(Replay(members, diffs[..|diffs| - 1]), diffs[|diffs| - 1])
  }

  /** The diffs lead from `start` to `members`, each with the weight that it really found. */
  predicate Tells(start: Members, diffs: seq<MemberDiff>, members: Members) {
    && Replay(start, diffs) == members
    && forall i | 0 <= i < |diffs| :: diffs[i].before == Lookup(Replay(start, diffs[..i]), diffs[i].key)
  }

  lemma TellsOneMore(start: Members, diffs: seq<MemberDiff>, members: Members, d: MemberDiff)
    requires Tells(start, diffs, members) && d.before == Lookup(members, d.key)
    ensures Tells(start, diffs + [d], Step(members, d))
  {
    var all := diffs + [d];
    assert all[..|diffs|] == diffs;
    forall i | 0 <= i < |all|
      ensures all[i].before == Lookup(Replay(start, all[..i]), all[i].key)
    {
      assert all[..i] == diffs[..i];
    }
  }

  /** The later entry of an address wins; used on lists without duplicates. */
  function Added(add: seq<Member>): Members
    decreases |add|
  {
    if add == [] then map[] else map[add[0].addr := add[0].weight] + Added(add[1..])
  }

  function Removed(remove: seq<string>): set<string> {
    set i | 0 <= i < |remove| :: remove[i]
  }

  /** Invariant of both loops: the running total is the sum of the running map, so no
      subtraction fails; an addition fails only if the true sum does not fit 64 bits. */
  ghost predicate Going(start: Members, p: Progress) {
    TotalIsSum(p.members, p.total) && Tells(start, p.diffs, p.members)
  }

  lemma AddOneKeeps(api: string -> bool, start: Members, p: Progress, m: Member)
    requires Going(start, p)
    ensures var r := AddOne(api, p, m);
            && (r.Ok? <==> api(m.addr) && Sum(Weights(p.members[m.addr := m.weight])) <= U64_MAX)
            && (r.Ok? ==> Going(start, r.value) && r.value.members == p.members[m.addr := m.weight])
  {
    hide Tells;
    SetWeight(p.members, m.addr, m.weight);
    SumAtLeast(Weights(p.members), m.addr);
    var d := MemberDiff(m.addr, Lookup(p.members, m.addr), Some(m.weight));
    TellsOneMore(start, p.diffs, p.members, d);
  }

  lemma RemoveOneKeeps(api: string -> bool, start: Members, p: Progress, remove: string)
    requires Going(start, p)
    ensures var r := RemoveOne(api, p, remove);
            && (r.Ok? <==> api(remove))
            && (r.Ok? ==> Going(start, r.value) && r.value.members == p.members - {remove})
  {
    hide Tells;
    if remove in p.members {
      DropWeight(p.members, remove);
      var d := MemberDiff(remove, Lookup(p.members, remove), None);
      TellsOneMore(start, p.diffs, p.members, d);
    } else {
      assert p.members - {remove} == p.members;
    }
  }

  lemma NoneAdded(members: Members)
    ensures members + Added([]) == members
  {
  }

  lemma AddedFirst(members: Members, add: seq<Member>)
    requires add != []
    ensures members[add[0].addr := add[0].weight] + Added(add[1..]) == members + Added(add)
  {
  }

  /** The weights fit 64 bits after each of the additions, in their order. */
  ghost predicate FitsAlong(members: Members, add: seq<Member>) {
    forall n | 0 < n <= |add| :: Sum(Weights(members + Added(add[..n]))) <= U64_MAX
  }

  lemma FitsFirst(members: Members, add: seq<Member>)
    requires add != []
    ensures var next := members[add[0].addr := add[0].weight];
            FitsAlong(members, add) <==> Sum(Weights(next)) <= U64_MAX && FitsAlong(next, add[1..])
  {
    hide Added, Weights, Sum;
    var next := members[add[0].addr := add[0].weight];
    forall n | 0 < n <= |add|
      ensures members + Added(add[..n]) == next + Added(add[1..][..n - 1])
    {
      assert add[..n][0] == add[0] && add[..n][1..] == add[1..][..n - 1];
      AddedFirst(members, add[..n]);
    }
    NoneAdded(next);
    assert add[1..][..0] == [];
    if FitsAlong(members, add) {
      assert Sum(Weights(members + Added(add[..1]))) <= U64_MAX;
      forall n | 0 < n <= |add| - 1
        ensures Sum(Weights(next + Added(add[1..][..n]))) <= U64_MAX
      {
        assert Sum(Weights(members + Added(add[..n + 1]))) <= U64_MAX;
      }
    }
    if Sum(Weights(next)) <= U64_MAX && FitsAlong(next, add[1..]) {
      forall n | 0 < n <= |add|
        ensures Sum(Weights(members + Added(add[..n]))) <= U64_MAX
      {
        if n > 1 {
          assert Sum(Weights(next + Added(add[1..][..n - 1]))) <= U64_MAX;
        }
      }
    }
  }

  /** Additions fail exactly for a malformed address, or where a sum on the way does not fit. */
  lemma {:induction false} AddAllKeeps(api: string -> bool, start: Members, p: Progress, add: seq<Member>)
    requires Going(start, p)
    ensures var r := AddAll(api, p, add);
            && (r.Ok? <==> (forall i | 0 <= i < |add| :: api(add[i].addr)) && FitsAlong(p.members, add))
            && (r.Ok? ==> Going(start, r.value) && r.value.members == p.members + Added(add))
    decreases |add|
  {
    hide Going, AddOne, Added, FitsAlong;
    if add != [] {
      AddOneKeeps(api, start, p, add[0]);
      FitsFirst(p.members, add);
      var q := AddOne(api, p, add[0]);
      if q.Ok? {
        AddAllKeeps(api, start, q.value, add[1..]);
        AddedFirst(p.members, add);
      }
      assert (forall i | 0 <= i < |add| :: api(add[i].addr))
             <==> api(add[0].addr) && forall i | 0 <= i < |add| - 1 :: api(add[1..][i].addr) by {
        ApiFirst(api, add);
      }
    } else {
      NoneAdded(p.members);
      FitsNone(p.members);
    }
  }

  lemma ApiFirst(api: string -> bool, add: seq<Member>)
    requires add != []
    ensures (forall i | 0 <= i < |add| :: api(add[i].addr))
            <==> api(add[0].addr) && forall i | 0 <= i < |add| - 1 :: api(add[1..][i].addr)
  {
    if api(add[0].addr) && forall i | 0 <= i < |add| - 1 :: api(add[1..][i].addr) {
      forall i | 0 <= i < |add|
        ensures api(add[i].addr)
      {
        if i > 0 {
          assert add[1..][i - 1] == add[i];
        }
      }
    }
  }

  lemma FitsNone(members: Members)
    ensures FitsAlong(members, [])
  {
  }

  /** A removal fails for a malformed address only, however often it is repeated. */
  lemma {:induction false} RemoveAllKeeps(api: string -> bool, start: Members, p: Progress, remove: seq<string>)
    requires Going(start, p)
    ensures var r := RemoveAll(api, p, remove);
            && (r.Ok? <==> forall i | 0 <= i < |remove| :: api(remove[i]))
            && (r.Ok? ==> Going(start, r.value) && r.value.members == p.members - Removed(remove))
    decreases |remove|
  {
    hide Going, RemoveOne;
    if remove != [] {
      RemoveOneKeeps(api, start, p, remove[0]);
      var q := RemoveOne(api, p, remove[0]);
      if q.Ok? {
        RemoveAllKeeps(api, start, q.value, remove[1..]);
        assert Removed(remove) == {remove[0]} + Removed(remove[1..]);
        assert p.members - {remove[0]} - Removed(remove[1..]) == p.members - Removed(remove);
      }
    } else {
      assert p.members - Removed(remove) == p.members;
    }
  }

  lemma {:induction false} AddedAt(add: seq<Member>, i: nat)
    requires i < |add| && Distinct(add, ADDR_OF)
    ensures add[i].addr in Added(add) && Added(add)[add[i].addr] == add[i].weight
    decreases |add|
  {
    DistinctTail(add);
    if i > 0 {
      AddedAt(add[1..], i - 1);
    } else {
      AddedKeys(add[1..]);
      if m :| m in add[1..] && m.addr == add[0].addr {
        DistinctHead(add, m);
      }
    }
  }

  lemma DistinctTail(add: seq<Member>)
    requires add != [] && Distinct(add, ADDR_OF)
    ensures Distinct(add[1..], ADDR_OF)
  {
    forall i, j | 0 <= i < j < |add| - 1
      ensures ADDR_OF(add[1..][i]) != ADDR_OF(add[1..][j])
    {
      assert ADDR_OF(add[i + 1]) != ADDR_OF(add[j + 1]);
    }
  }

  lemma {:induction false} AddedKeys(add: seq<Member>)
    ensures forall a :: a in Added(add) <==> exists m :: m in add && m.addr == a
    decreases |add|
  {
    if add != [] {
      AddedKeys(add[1..]);
      assert add == [add[0]] + add[1..];
      forall a
        ensures a in Added(add) <==> exists m :: m in add && m.addr == a
      {
        if a in Added(add[1..]) {
          var m :| m in add[1..] && m.addr == a;
          assert m in add;
        }
      }
    }
  }

  /** When an update goes through: no address is added twice, the admin calls, all addresses
      are well formed, and the weights fit 64 bits after each of the sorted additions, even
      where the removals after them would bring them back. No subtraction ever fails. */
  lemma UpdateMembersExactly(s: State, api: string -> bool, sender: Addr, add: seq<Member>, remove: seq<string>)
    requires TotalIsSum(s.members, s.total)
    ensures UpdateMembers(s, api, sender, add, remove).Ok? <==>
              && Distinct(add, ADDR_OF) && s.admin == Some(sender)
              && (forall m | m in add :: api(m.addr)) && (forall a | a in remove :: api(a))
              && FitsAlong(s.members, Sort(add, ADDR_OF))
  {
    hide Distinct, Sort, AddAll, RemoveAll, Tells, TotalIsSum, FitsAlong;
    var sorted := Sort(add, ADDR_OF);
    TellsNothing(s.members);
    var p := Progress(s.members, s.total, []);
    AddAllKeeps(api, s.members, p, sorted);
    SortIsSorted(add, ADDR_OF);
    SameElements(sorted, add);
    assert (forall i | 0 <= i < |sorted| :: api(sorted[i].addr)) <==> forall m | m in add :: api(m.addr) by {
      assert (forall i | 0 <= i < |sorted| :: api(sorted[i].addr)) <==> forall m | m in sorted :: api(m.addr);
    }
    if AddAll(api, p, sorted).Ok? {
      RemoveAllKeeps(api, s.members, AddAll(api, p, sorted).value, remove);
    }
  }

  /** Replacing the only member, who holds all the weight that fits, by another one: it fails,
      since the new member is added before the old one is removed. */
  lemma ReplacementOverflows(api: string -> bool)
    requires api("a") && api("b")
    ensures var s := State(Some("adm"), map["a" := U64_MAX], U64_MAX);
            && TotalIsSum(s.members, s.total)
            && UpdateMembers(s, api, "adm", [Member("b", 1)], ["a"]) == Err(Overflow)
  {
    var s := State(Some("adm"), map["a" := U64_MAX], U64_MAX);
    assert Weights(s.members) == map[]["a" := U64_MAX];
    SumUpdate<Addr>(map[], "a", U64_MAX);
    var add := [Member("b", 1)];
    assert add[1..] == [];
    assert Sort(add, ADDR_OF) == Insert(add[0], Sort([], ADDR_OF), ADDR_OF) == add;
  }

  /** The group after an update, for every address: removed addresses are gone however
      often they are listed, added ones have their new weight, all others their old one;
      the stored total is the sum of the weights; and replaying the returned diffs on the
      old members gives the new ones. */
  lemma UpdateMembersResult(s: State, api: string -> bool, sender: Addr, add: seq<Member>, remove: seq<string>)
    requires TotalIsSum(s.members, s.total)
    ensures var r := UpdateMembers(s, api, sender, add, remove);
            r.Ok? ==>
              var (t, diffs) := r.value;
              && s.admin == Some(sender) && t.admin == s.admin && Distinct(add, ADDR_OF)
              && TotalIsSum(t.members, t.total)
              && Tells(s.members, diffs, t.members)
              && (forall a :: a in t.members <==>
                    a !in remove && (a in s.members || exists m :: m in add && m.addr == a))
              && (forall m | m in add && m.addr !in remove :: t.members[m.addr] == m.weight)
              && (forall a | a in t.members && (forall m | m in add :: m.addr != a) ::
                    a in s.members && t.members[a] == s.members[a])
  {
    hide Distinct, Sort, AddAll, RemoveAll, Tells, TotalIsSum;
    var r := UpdateMembers(s, api, sender, add, remove);
    if r.Ok? {
      var sorted := Sort(add, ADDR_OF);
      assert Going(s.members, Progress(s.members, s.total, [])) by {
        TellsNothing(s.members);
      }
      AddAllKeeps(api, s.members, Progress(s.members, s.total, []), sorted);
      var added := AddAll(api, Progress(s.members, s.total, []), sorted).value;
      RemoveAllKeeps(api, s.members, added, remove);
      SortIsSorted(add, ADDR_OF);
      SortKeepsDistinct(add, ADDR_OF);
      SameElements(sorted, add);
      AddedKeys(sorted);
      assert forall a :: a in Removed(remove) <==> a in remove;
      forall m | m in add && m.addr !in remove
        ensures r.value.0.members[m.addr] == m.weight
      {
        var i :| 0 <= i < |sorted| && sorted[i] == m;
        AddedAt(sorted, i);
      }
    }
  }

  lemma TellsNothing(start: Members)
    ensures Tells(start, [], start)
  {
  }

  lemma CreateOneKeeps(api: string -> bool, p: Progress, m: Member)
    requires TotalIsSum(p.members, p.total) && m.addr !in p.members
    ensures var r := CreateOne(api, p, m);
            r.Ok? ==> TotalIsSum(r.value.members, r.value.total) && r.value.members == p.members[m.addr := m.weight]
  {
    SetWeight(p.members, m.addr, m.weight);
  }

  lemma DistinctHead(members: seq<Member>, m: Member)
    requires members != [] && Distinct(members, ADDR_OF) && m in members[1..]
    ensures m.addr != members[0].addr
  {
    var i :| 0 <= i < |members| - 1 && members[1..][i] == m;
    assert ADDR_OF(members[0]) != ADDR_OF(members[i + 1]);
  }

  lemma {:induction false} CreateAllKeeps(api: string -> bool, p: Progress, members: seq<Member>)
    requires TotalIsSum(p.members, p.total) && Distinct(members, ADDR_OF)
    requires forall m | m in members :: m.addr !in p.members
    ensures var r := CreateAll(api, p, members);
            r.Ok? ==> TotalIsSum(r.value.members, r.value.total) && r.value.members == p.members + Added(members)
    decreases |members|
  {
    hide TotalIsSum, Distinct, CreateOne, Added;
    if members != [] {
      var m := members[0];
      DistinctTail(members);
      CreateOneKeeps(api, p, m);
      var q := CreateOne(api, p, m);
      if q.Ok? {
        forall n | n in members[1..]
          ensures n.addr !in q.value.members
        {
          DistinctHead(members, n);
        }
        CreateAllKeeps(api, q.value, members[1..]);
        AddedFirst(p.members, members);
      }
    } else {
      NoneAdded(p.members);
    }
  }

  /** A new group holds exactly the listed members, and their sum as its total: without the
      refusal of duplicates the total would count a replaced weight. */
  lemma CreateResult(api: string -> bool, admin: Option<string>, members: seq<Member>)
    ensures var r := Create(api, admin, members);
            && (r.Ok? ==> Distinct(members, ADDR_OF) && TotalIsSum(r.value.members, r.value.total)
                          && forall m | m in members :: Lookup(r.value.members, m.addr) == Some(m.weight))
  {
    if Create(api, admin, members).Ok? {
      hide Distinct, Sort, CreateAll, TotalIsSum;
      var sorted := Sort(members, ADDR_OF);
      SortIsSorted(members, ADDR_OF);
      SortKeepsDistinct(members, ADDR_OF);
      SameElements(sorted, members);
      EmptyTotal();
      CreateAllKeeps(api, Progress(map[], 0, []), sorted);
      forall m | m in members
        ensures Lookup(Create(api, admin, members).value.members, m.addr) == Some(m.weight)
      {
        var i :| 0 <= i < |sorted| && sorted[i] == m;
        AddedAt(sorted, i);
      }
    }
  }

  function Listed(members: seq<Member>): nat {
    if members == [] then 0 else members[0].weight + Listed(members[1..])
  }

  lemma {:induction false} InsertListed(m: Member, members: seq<Member>)
    ensures Listed(Insert(m, members, ADDR_OF)) == m.weight + Listed(members)
  {
    var all := Insert(m, members, ADDR_OF);
    if all == [m] + members {
      assert all[1..] == members;
    } else {
      InsertListed(m, members[1..]);
      assert all[1..] == Insert(m, members[1..], ADDR_OF);
    }
  }

  lemma {:induction false} SortListed(members: seq<Member>)
    ensures Listed(Sort(members, ADDR_OF)) == Listed(members)
  {
    if members != [] {
      SortListed(members[1..]);
      InsertListed(members[0], Sort(members[1..], ADDR_OF));
    }
  }

  lemma {:induction false} CreateAllExactly(api: string -> bool, p: Progress, members: seq<Member>)
    ensures var r := CreateAll(api, p, members);
            && (r.Ok? <==> (forall m | m in members :: api(m.addr)) && p.total + Listed(members) <= U64_MAX)
            && (r.Ok? ==> r.value.members.Keys == p.members.Keys + set m | m in members :: m.addr)
    decreases |members|
  {
    if members != [] {
      var m, rest := members[0], members[1..];
      assert members == [m] + rest;
      var q := CreateOne(api, p, m);
      if q.Ok? {
        CreateAllExactly(api, q.value, rest);
      }
    }
  }

  /** When a group can be created: no address twice, all addresses and the admin's well
      formed, and 64 bits hold all weights together; and then it has that admin, and just the
      listed members. */
  lemma CreateExactly(api: string -> bool, admin: Option<string>, members: seq<Member>)
    ensures var r := Create(api, admin, members);
            && (r.Ok? <==> && Distinct(members, ADDR_OF) && (admin.Some? ==> api(admin.value))
                           && (forall m | m in members :: api(m.addr)) && Listed(members) <= U64_MAX)
            && (r.Ok? ==> r.value.admin == admin && r.value.members.Keys == set m | m in members :: m.addr)
  {
    hide Distinct, Sort, CreateAll;
    var sorted := Sort(members, ADDR_OF);
    SortIsSorted(members, ADDR_OF);
    SameElements(sorted, members);
    SortListed(members);
    CreateAllExactly(api, Progress(map[], 0, []), sorted);
  }

  lemma EmptyTotal()
    ensures TotalIsSum(map[], 0)
  {
    assert Weights(map[]) == map[];
  }
}
