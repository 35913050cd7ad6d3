/** The standard library's string order and stable sort, as far as the contracts rely on
    them: a sorted listing puts equal keys side by side. */
module Sorting {

  predicate Leq(s: string, t: string) {
    s == [] || (t != [] && (s[0] < t[0] || (s[0] == t[0] && Leq(s[1..], t[1..]))))
  }

  predicate Less(s: string, t: string) {
    !Leq(t, s)
  }

  lemma {:induction false} LeqTotal(s: string, t: string)
    ensures Leq(s, t) || Leq(t, s)
    ensures Leq(s, t) && Leq(t, s) ==> s == t
    ensures Leq(s, s)
  {
    if s != [] {
      LeqTotal(s[1..], if t == [] then [] else t[1..]);
      assert s == [s[0]] + s[1..];
      if t != [] {
        assert t == [t[0]] + t[1..];
      }
    }
  }

  lemma {:induction false} LeqTransitive(s: string, t: string, u: string)
    requires Leq(s, t) && Leq(t, u)
    ensures Leq(s, u)
  {
    if s != [] && s[0] == t[0] == u[0] {
      LeqTransitive(s[1..], t[1..], u[1..]);
    }
  }

  /** Strict order, as listings use it: irreflexive, transitive and total. */
  lemma LessOrder(s: string, t: string, u: string)
    ensures !Less(s, s)
    ensures Less(s, t) <==> Leq(s, t) && s != t
    ensures Less(s, t) && Less(t, u) ==> Less(s, u)
    ensures Less(s, t) || s == t || Less(t, s)
  {
    LeqTotal(s, t);
    LeqTotal(s, u);
    LeqTotal(t, u);
    if Less(s, t) && Less(t, u) {
      LeqTransitive(s, t, u);
      if Leq(u, s) {
        LeqTransitive(t, u, s);
      }
    }
  }

  predicate Ordered<T>(s: seq<T>, key: T -> string) {
    forall i, j | 0 <= i < j < |s| :: Leq(key(s[i]), key(s[j]))
  }

  /** No two elements share a key. */
  predicate Distinct<T>(s: seq<T>, key: T -> string) {
    forall i, j | 0 <= i < j < |s| :: key(s[i]) != key(s[j])
  }

  function Insert<T>(x: T, s: seq<T>, key: T -> string): seq<T> {
    if s == [] || Leq(key(x), key(s[0])) then [x] + s else [s[0]] + Insert(x, s[1..], key)
  }

  function Sort<T>(s: seq<T>, key: T -> string): seq<T> {
    if s == [] then [] else Insert(s[0], Sort(s[1..], key), key)
  }

  /** Where `Insert` puts the new element. */
  lemma {:induction false} InsertAt<T>(x: T, s: seq<T>, key: T -> string) returns (k: nat)
    requires Ordered(s, key)
    ensures k <= |s| && Insert(x, s, key) == s[..k] + [x] + s[k..]
    ensures Ordered(Insert(x, s, key), key)
  {
    if s == [] || Leq(key(x), key(s[0])) {
      k := 0;
      forall j | 0 <= j < |s|
        ensures Leq(key(x), key(s[j]))
      {
        if j > 0 {
          LeqTransitive(key(x), key(s[0]), key(s[j]));
        }
      }
    } else {
      var j := InsertAt(x, s[1..], key);
      k := j + 1;
      var rest := Insert(x, s[1..], key);
      assert s[..k] == [s[0]] + s[1..][..j] && s[k..] == s[1..][j..];
      LeqTotal(key(x), key(s[0]));
      assert forall i | 0 <= i < |rest| :: Leq(key(s[0]), key(rest[i]));
    }
  }

  lemma {:induction false} SortIsSorted<T>(s: seq<T>, key: T -> string)
    ensures Ordered(Sort(s, key), key)
    ensures multiset(Sort(s, key)) == multiset(s)
  {
    if s != [] {
      hide Leq, Ordered;
      var rest := Sort(s[1..], key);
      SortIsSorted(s[1..], key);
      var k := InsertAt(s[0], rest, key);
      MultisetAt(s[0], rest, k);
      assert s == [s[0]] + s[1..];
    }
  }

  lemma MultisetAt<T>(x: T, s: seq<T>, k: nat)
    requires k <= |s|
    ensures multiset(s[..k] + [x] + s[k..]) == multiset([x]) + multiset(s)
  {
    assert s == s[..k] + s[k..];
  }

  /** Sorting neither makes nor hides duplicates. */
  lemma {:induction false} SortKeepsDistinct<T>(s: seq<T>, key: T -> string)
    ensures Distinct(Sort(s, key), key) <==> Distinct(s, key)
  {
    if s != [] {
      hide Leq, Ordered, Insert, Distinct;
      var x, tail := s[0], s[1..];
      var rest := Sort(tail, key);
      SortKeepsDistinct(tail, key);
      SortIsSorted(tail, key);
      SameElements(tail, rest);
      InsertKeepsDistinct(x, rest, key);
      DistinctCons(x, rest, key);
      DistinctCons(x, tail, key);
      assert s == [x] + tail;
      assert Sort(s, key) == Insert(x, rest, key);
      assert (forall y | y in rest :: key(y) != key(x)) <==> (forall y | y in tail :: key(y) != key(x));
    }
  }

  lemma InsertKeepsDistinct<T>(x: T, s: seq<T>, key: T -> string)
    requires Ordered(s, key)
    ensures Distinct(Insert(x, s, key), key) <==> Distinct([x] + s, key)
  {
    hide Leq, Ordered, Insert, Distinct;
    var k := InsertAt(x, s, key);
    DistinctAt(x, s, key, k);
    DistinctCons(x, s, key);
  }

  lemma DistinctCons<T>(x: T, s: seq<T>, key: T -> string)
    ensures Distinct([x] + s, key) <==> Distinct(s, key) && forall y | y in s :: key(y) != key(x)
  {
    hide Distinct;
    DistinctAt(x, s, key, 0);
    assert s[..0] + [x] + s[0..] == [x] + s;
  }

  lemma SameElements<T>(s: seq<T>, t: seq<T>)
    requires multiset(s) == multiset(t)
    ensures forall x :: x in s <==> x in t
  {
    forall x
      ensures x in s <==> x in t
    {
      assert x in s <==> x in multiset(s);
      assert x in t <==> x in multiset(t);
    }
  }

  /** Putting one element in, at any place, keeps keys distinct exactly if its key is new. */
  lemma DistinctAt<T>(x: T, s: seq<T>, key: T -> string, k: nat)
    requires k <= |s|
    ensures Distinct(s[..k] + [x] + s[k..], key)
            <==> Distinct(s, key) && forall y | y in s :: key(y) != key(x)
  {
    var t := s[..k] + [x] + s[k..];
    assert t[k] == x;
    assert forall i | 0 <= i < |s| :: s[i] == t[if i < k then i else i + 1];
    if Distinct(t, key) {
      forall i, j | 0 <= i < j < |s|
        ensures key(s[i]) != key(s[j])
      {
        assert key(t[if i < k then i else i + 1]) != key(t[if j < k then j else j + 1]);
      }
      forall y | y in s
        ensures key(y) != key(x)
      {
        var i :| 0 <= i < |s| && s[i] == y;
        assert if i < k then key(t[i]) != key(t[k]) else key(t[k]) != key(t[i + 1]);
      }
    }
  }

  /** In a sorted listing it is enough to look at neighbours. */
  lemma NeighboursSuffice<T>(s: seq<T>, key: T -> string)
    requires Ordered(s, key)
    ensures Distinct(s, key) <==> forall i | 0 <= i < |s| - 1 :: key(s[i]) != key(s[i + 1])
  {
    if i, j :| 0 <= i < j < |s| && key(s[i]) == key(s[j]) {
      LeqTotal(key(s[i]), key(s[i + 1]));
      assert Leq(key(s[i]), key(s[i + 1]));
      if i + 1 < j {
        assert Leq(key(s[i + 1]), key(s[j]));
      } else {
        LeqTotal(key(s[i]), key(s[i]));
      }
      assert key(s[i]) == key(s[i + 1]);
    }
  }
}
