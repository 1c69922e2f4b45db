/** Sorting by rank and dropping adjacent repetitions, as a list and in place. */
module Sorting {

  predicate Ascending<T>(s: seq<T>, rank: T -> int) {
    forall i, j :: 0 <= i < j < |s| ==> rank(s[i]) <= rank(s[j])
  }

  predicate StrictlyAscending<T>(s: seq<T>, rank: T -> int) {
    forall i, j :: 0 <= i < j < |s| ==> rank(s[i]) < rank(s[j])
  }

  ghost predicate Injective<T(!new)>(rank: T -> int) {
    forall x, y :: rank(x) == rank(y) ==> x == y
  }

  function Insert<T>(s: seq<T>, x: T, rank: T -> int): seq<T> {
    if s == [] || rank(x) <= rank(s[0]) then [x] + s else [s[0]] + Insert(s[1..], x, rank)
  }

  function Sort<T>(s: seq<T>, rank: T -> int): seq<T> {
    if s == [] then [] else Insert(Sort(s[1..], rank), s[0], rank)
  }

  /** Keeps an element unless it repeats the one before it. */
  function Compact<T(==)>(s: seq<T>): seq<T> {
    if |s| < 2 then s
    else
      var init := Compact(s[..|s| - 1]);
      if s[|s| - 1] == s[|s| - 2] then init else init + [s[|s| - 1]]
  }

  function Canonical<T(==)>(s: seq<T>, rank: T -> int): seq<T> { Compact(Sort(s, rank)) }

  lemma {:induction false} InsertHolds<T>(s: seq<T>, x: T, rank: T -> int)
    ensures multiset(Insert(s, x, rank)) == multiset(s) + multiset{x}
  {
    if s == [] || rank(x) <= rank(s[0]) {
    } else {
      InsertHolds(s[1..], x, rank);
      assert s == [s[0]] + s[1..];
    }
  }

  lemma PrependAscends<T>(x: T, s: seq<T>, rank: T -> int)
    requires Ascending(s, rank) && forall y :: y in s ==> rank(x) <= rank(y)
    ensures Ascending([x] + s, rank)
  {
  }

  lemma {:induction false} InsertAscends<T>(s: seq<T>, x: T, rank: T -> int)
    requires Ascending(s, rank)
    ensures Ascending(Insert(s, x, rank), rank)
  {
    if s == [] {
    } else if rank(x) <= rank(s[0]) {
      PrependAscends(x, s, rank);
    } else {
      var t := Insert(s[1..], x, rank);
      InsertAscends(s[1..], x, rank);
      InsertHolds(s[1..], x, rank);
      forall y | y in t ensures rank(s[0]) <= rank(y) {
        assert y in multiset(s[1..]) + multiset{x};
      }
      PrependAscends(s[0], t, rank);
    }
  }

  lemma {:induction false} SortAscends<T>(s: seq<T>, rank: T -> int)
    ensures Ascending(Sort(s, rank), rank)
    ensures multiset(Sort(s, rank)) == multiset(s)
  {
    if s != [] {
      SortAscends(s[1..], rank);
      InsertAscends(Sort(s[1..], rank), s[0], rank);
      InsertHolds(Sort(s[1..], rank), s[0], rank);
      assert s == [s[0]] + s[1..];
    }
  }

  lemma {:induction false} CompactHolds<T(!new)>(s: seq<T>)
    ensures forall x :: x in Compact(s) <==> x in s
    ensures s != [] ==> Compact(s) != [] && Compact(s)[|Compact(s)| - 1] == s[|s| - 1]
  {
    if |s| >= 2 {
      CompactHolds(s[..|s| - 1]);
      assert s == s[..|s| - 1] + [s[|s| - 1]];
    }
  }

  lemma AppendAscends<T>(s: seq<T>, x: T, rank: T -> int)
    requires StrictlyAscending(s, rank) && (s != [] ==> rank(s[|s| - 1]) < rank(x))
    ensures StrictlyAscending(s + [x], rank)
  {
  }

  lemma {:induction false} CompactAscends<T(!new)>(s: seq<T>, rank: T -> int)
    requires Ascending(s, rank) && Injective(rank)
    ensures StrictlyAscending(Compact(s), rank)
  {
    if |s| >= 2 {
      var front, x := s[..|s| - 1], s[|s| - 1];
      CompactAscends(front, rank);
      CompactHolds(front);
      if x != s[|s| - 2] { AppendAscends(Compact(front), x, rank); }
    }
  }

  /** The canonical list is strictly ascending and holds exactly the given elements. */
  lemma CanonicalSorts<T(!new)>(s: seq<T>, rank: T -> int)
    requires Injective(rank)
    ensures StrictlyAscending(Canonical(s, rank), rank)
    ensures forall x :: x in Canonical(s, rank) <==> x in s
  {
    SortAscends(s, rank);
    CompactAscends(Sort(s, rank), rank);
    CompactHolds(Sort(s, rank));
    forall x ensures x in Sort(s, rank) <==> x in s {
      assert x in multiset(Sort(s, rank)) <==> x in multiset(s);
    }
  }

  /** A strictly ascending list is determined by its elements. */
  lemma {:induction false} AscendingUnique<T(!new)>(a: seq<T>, b: seq<T>, rank: T -> int)
    requires StrictlyAscending(a, rank) && StrictlyAscending(b, rank)
    requires forall x :: x in a <==> x in b
    ensures a == b
  {
    if b != [] { assert b[0] in a; }
    if a != [] {
      assert a[0] in b;
      assert a[0] == b[0];
      forall x ensures x in a[1..] <==> x in b[1..] {
        assert x in a[1..] ==> x in a;
        assert x in b[1..] ==> x in b;
        assert x in a <==> x == a[0] || x in a[1..];
        assert x in b <==> x == b[0] || x in b[1..];
      }
      AscendingUnique(a[1..], b[1..], rank);
    }
  }

  predicate NoRepeats<T(==)>(s: seq<T>) {
    forall i, j :: 0 <= i < j < |s| ==> s[i] != s[j]
  }

  lemma {:induction false} NoRepeatsCounts<T>(s: seq<T>, x: T)
    requires NoRepeats(s)
    ensures multiset(s)[x] <= 1
  {
    if s != [] {
      var rest := s[1..];
      assert s == [s[0]] + rest;
      assert s[0] !in rest;
      NoRepeatsCounts(rest, x);
    }
  }

  lemma CountsNoRepeats<T>(s: seq<T>, i: nat, j: nat)
    requires i < j < |s| && multiset(s)[s[i]] <= 1
    ensures s[i] != s[j]
  {
    var front, back := s[..j], s[j..];
    assert s == front + back;
    assert front[i] == s[i] && multiset(front)[front[i]] >= 1;
    assert back[0] == s[j] && multiset(back)[back[0]] >= 1;
  }

  lemma SortHolds<T>(s: seq<T>, rank: T -> int, x: T)
    ensures x in Sort(s, rank) <==> x in s
  {
    SortAscends(s, rank);
    assert x in multiset(Sort(s, rank)) <==> x in multiset(s);
  }

  /** Sorting a list without repetitions by a rank that tells its elements apart. */
  lemma SortWithoutRepeats<T>(s: seq<T>, rank: T -> int)
    requires NoRepeats(s)
    requires forall x, y :: x in s && y in s && rank(x) == rank(y) ==> x == y
    ensures StrictlyAscending(Sort(s, rank), rank)
    ensures forall x :: x in Sort(s, rank) <==> x in s
  {
    var t := Sort(s, rank);
    SortAscends(s, rank);
    forall x ensures x in t <==> x in s {
      SortHolds(s, rank, x);
    }
    forall i, j | 0 <= i < j < |t| ensures rank(t[i]) < rank(t[j]) {
      RanksDiffer(s, t, rank, i, j);
    }
  }

  lemma RanksDiffer<T>(s: seq<T>, t: seq<T>, rank: T -> int, i: nat, j: nat)
    requires NoRepeats(s) && Ascending(t, rank) && multiset(t) == multiset(s) && i < j < |t|
    requires forall x, y :: x in s && y in s && rank(x) == rank(y) ==> x == y
    ensures rank(t[i]) < rank(t[j])
  {
    NoRepeatsCounts(s, t[i]);
    CountsNoRepeats(t, i, j);
    assert t[i] in multiset(t) && t[j] in multiset(t);
    assert t[i] in s && t[j] in s;
  }

  /** Compacts an array in place and returns how many elements are kept. */
  method CompactInPlace<T(==)>(a: array<T>) returns (n: nat)
    modifies a
    ensures n <= a.Length && a[..n] == Compact(old(a[..]))
  {
    ghost var was := a[..];
    n := 0;
    for i := 0 to a.Length
      invariant n <= i && a[..n] == Compact(was[..i]) && (i > 0 ==> n > 0 && a[n - 1] == was[i - 1])
      invariant forall k :: i <= k < a.Length ==> a[k] == was[k]
    {
      assert was[..i + 1][..i] == was[..i];
      if n == 0 || a[n - 1] != a[i] {
        a[n] := a[i];
        n := n + 1;
      }
    }
    assert was[..a.Length] == was;
  }

  // ---------------------------------------------------------------- sets of numbers in ascending order

  predicate Least(ids: set<nat>, x: nat) {
    x in ids && forall id :: id in ids ==> x <= id
  }

  lemma {:induction false} LeastExists(ids: set<nat>, bound: nat)
    requires bound in ids
    ensures exists x :: Least(ids, x)
    decreases bound
  {
    if !Least(ids, bound) {
      var smaller :| smaller in ids && smaller < bound;
      LeastExists(ids, smaller);
    }
  }

  predicate Ordered(ids: seq<nat>) {
    forall i, j :: 0 <= i < j < |ids| ==> ids[i] < ids[j]
  }

  lemma PrependOrdered(x: nat, ids: seq<nat>)
    requires Ordered(ids) && forall id :: id in ids ==> x < id
    ensures Ordered([x] + ids)
  {
    var all := [x] + ids;
    forall i, j | 0 <= i < j < |all| ensures all[i] < all[j] {
      assert all[j] == ids[j - 1] && ids[j - 1] in ids;
    }
  }

  /** A set of identifiers in ascending order. */
  ghost function InOrder(ids: set<nat>): (r: seq<nat>)
    ensures Ordered(r) && forall id :: id in r <==> id in ids
  {
    if ids == {} then []
    else
      var any :| any in ids;
      LeastExists(ids, any);
      var least :| Least(ids, least);
      PrependOrdered(least, InOrder(ids - {least}));
      [least] + InOrder(ids - {least})
  }

  function ByValueOf(): nat -> int { (x: nat) => x }

  /** Sorting any listing of a set gives its elements in ascending order. */
  lemma ListingInOrder(s: seq<nat>, ids: set<nat>)
    requires NoRepeats(s) && forall x :: x in s <==> x in ids
    ensures Sort(s, ByValueOf()) == InOrder(ids)
  {
    SortWithoutRepeats(s, ByValueOf());
    AscendingUnique(Sort(s, ByValueOf()), InOrder(ids), ByValueOf());
  }
}
