/**
 * `Array.prototype.sort` with a comparator, as ECMAScript specifies it
 * since 2019: a STABLE sort. The comparator is given as `le(a, b)`, "a may
 * come before b" (the comparator's result is at most 0). The model is an
 * insertion sort; the lemmas show that its result is ordered, a
 * permutation of the input, and keeps equivalent elements in input order.
 */
module Sorting {
  import opened Lists

  /** `le` is total and transitive, as a consistent comparator is. */
  ghost predicate TotalPreorder<T(!new)>(le: (T, T) -> bool) {
    && (forall a, b :: le(a, b) || le(b, a))
    && (forall a, b, c :: le(a, b) && le(b, c) ==> le(a, c))
  }

  predicate Sorted<T>(s: seq<T>, le: (T, T) -> bool) {
    forall i, j :: 0 <= i < j < |s| ==> le(s[i], s[j])
  }

  /** Neither element must precede the other: the comparator returns 0. */
  predicate Equivalent<T>(le: (T, T) -> bool, a: T, b: T) {
    le(a, b) && le(b, a)
  }

  /** The elements of `s` equivalent to `x`, in their order in `s`. */
  function Peers<T>(s: seq<T>, le: (T, T) -> bool, x: T): seq<T>
  {
    if s == [] then []
    else (if Equivalent(le, s[0], x) then [s[0]] else []) + Peers(s[1..], le, x)
  }

  /** Puts `x` in front of the first element it may precede. */
  function Insert<T>(x: T, s: seq<T>, le: (T, T) -> bool): (r: seq<T>)
    ensures multiset(r) == multiset(s) + multiset{x}
    ensures |r| == |s| + 1
  {
    if s == [] || le(x, s[0]) then [x] + s
    else
      assert s == [s[0]] + s[1..];
      [s[0]] + Insert(x, s[1..], le)
  }

  function SortBy<T>(s: seq<T>, le: (T, T) -> bool): (r: seq<T>)
    ensures multiset(r) == multiset(s)
    ensures |r| == |s|
  {
    if s == [] then []
    else
      assert s == [s[0]] + s[1..];
      Insert(s[0], SortBy(s[1..], le), le)
  }

  lemma {:induction false} InsertSorted<T(!new)>(x: T, s: seq<T>, le: (T, T) -> bool)
    requires TotalPreorder(le) && Sorted(s, le)
    ensures Sorted(Insert(x, s, le), le)
  {
    if s == [] || le(x, s[0]) {
    } else {
      var rest := Insert(x, s[1..], le);
      InsertSorted(x, s[1..], le);
      assert le(s[0], x);
      forall y | y in rest ensures le(s[0], y) {
        assert y in multiset(rest);
        if y != x {
          assert y in multiset(s[1..]);
          var k :| 0 <= k < |s[1..]| && s[1..][k] == y;
          assert s[k + 1] == y;
        }
      }
      assert Insert(x, s, le) == [s[0]] + rest;
    }
  }

  /** The result of the sort is ordered by `le`. */
  lemma {:induction false} SortBySorted<T(!new)>(s: seq<T>, le: (T, T) -> bool)
    requires TotalPreorder(le)
    ensures Sorted(SortBy(s, le), le)
  {
    if s != [] {
      SortBySorted(s[1..], le);
      InsertSorted(s[0], SortBy(s[1..], le), le);
    }
  }

  lemma {:induction false} InsertPeers<T(!new)>(x: T, s: seq<T>, le: (T, T) -> bool, y: T)
    requires TotalPreorder(le)
    ensures Peers(Insert(x, s, le), le, y)
         == (if Equivalent(le, x, y) then [x] else []) + Peers(s, le, y)
  {
    var hx := if Equivalent(le, x, y) then [x] else [];
    if s == [] || le(x, s[0]) {
      assert ([x] + s)[1..] == s;
    } else {
      var h0 := if Equivalent(le, s[0], y) then [s[0]] else [];
      InsertPeers(x, s[1..], le, y);
      assert ([s[0]] + Insert(x, s[1..], le))[1..] == Insert(x, s[1..], le);
      assert Peers(Insert(x, s, le), le, y) == h0 + (hx + Peers(s[1..], le, y));
      // x and s[0] are not equivalent, so at most one of them is y's peer.
      assert h0 == [] || hx == [];
      assert Peers(s, le, y) == h0 + Peers(s[1..], le, y);
    }
  }

  /** Stability: the sort keeps each class of equivalent elements in input order. */
  lemma {:induction false} SortByStable<T(!new)>(s: seq<T>, le: (T, T) -> bool, y: T)
    requires TotalPreorder(le)
    ensures Peers(SortBy(s, le), le, y) == Peers(s, le, y)
  {
    if s != [] {
      SortByStable(s[1..], le, y);
      InsertPeers(s[0], SortBy(s[1..], le), le, y);
    }
  }

  /** Filtering an ordered sequence leaves it ordered. */
  lemma {:induction false} FilterSorted<T(!new)>(s: seq<T>, le: (T, T) -> bool, p: T -> bool)
    requires Sorted(s, le)
    ensures Sorted(Filter(s, p), le)
  {
    if s != [] {
      FilterSorted(s[1..], le, p);
      var rest := Filter(s[1..], p);
      if p(s[0]) {
        forall y | y in rest ensures le(s[0], y) {
          FilterMembers(s[1..], p, y);
          var k :| 0 <= k < |s[1..]| && s[1..][k] == y;
          assert s[k + 1] == y;
        }
        assert Filter(s, p) == [s[0]] + rest;
      } else {
        assert Filter(s, p) == rest;
      }
    }
  }

  /** In an ordered sequence every element before position `i` may precede the one at `i`. */
  lemma SortedPrefixBound<T>(s: seq<T>, le: (T, T) -> bool, i: nat)
    requires Sorted(s, le) && i < |s|
    ensures forall x :: x in s[..i] ==> le(x, s[i])
  {
    forall x | x in s[..i] ensures le(x, s[i]) {
      var j :| 0 <= j < i && s[j] == x;
    }
  }

  /** Sorting neither adds nor drops elements. */
  lemma SortByMembers<T>(s: seq<T>, le: (T, T) -> bool)
    ensures forall x :: x in SortBy(s, le) <==> x in s
  {
    forall x ensures x in SortBy(s, le) <==> x in s {
      assert x in SortBy(s, le) <==> x in multiset(SortBy(s, le));
      assert x in s <==> x in multiset(s);
    }
  }

  /** Removing by id keeps an ordered sequence ordered. */
  lemma RemoveByIdSorted<T(!new)>(s: seq<T>, key: T -> string, id: string, le: (T, T) -> bool)
    requires Sorted(s, le)
    ensures Sorted(RemoveById(s, key, id), le)
  {
    RemoveByIdIsFilter(s, key, id);
    FilterSorted(s, le, (x: T) => key(x) != id);
  }
}
