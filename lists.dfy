/**
 * The Array.prototype operations the tracker applies to its cached lists:
 * `filter`, `find` by id, `map` that replaces by id, `filter` that removes
 * by id, and `reduce` as a sum.
 */
module Lists {
  import opened Types

  /** `s.filter(p)`: the elements satisfying `p`, in their original order. */
  function Filter<T>(s: seq<T>, p: T -> bool): (r: seq<T>)
    ensures |r| <= |s|
  {
    if s == [] then []
    else (if p(s[0]) then [s[0]] else []) + Filter(s[1..], p)
  }

  /** An element is kept exactly when it occurs in `s` and satisfies `p`. */
  lemma {:induction false} FilterMembers<T>(s: seq<T>, p: T -> bool, x: T)
    ensures x in Filter(s, p) <==> x in s && p(x)
  {
    if s != [] {
      FilterMembers(s[1..], p, x);
      assert s == [s[0]] + s[1..];
    }
  }

  lemma {:induction false} FilterAppend<T(!new)>(a: seq<T>, b: seq<T>, p: T -> bool)
    ensures Filter(a + b, p) == Filter(a, p) + Filter(b, p)
  {
    if a != [] {
      assert (a + b)[0] == a[0];
      assert (a + b)[1..] == a[1..] + b;
      FilterAppend(a[1..], b, p);
      var h := if p(a[0]) then [a[0]] else [];
      calc {
        Filter(a + b, p);
        h + Filter(a[1..] + b, p);
        h + (Filter(a[1..], p) + Filter(b, p));
        (h + Filter(a[1..], p)) + Filter(b, p);
        Filter(a, p) + Filter(b, p);
      }
    } else {
      assert a + b == b;
    }
  }

  /** `a` is obtained from `b` by deleting elements (order is kept). */
  predicate IsSubsequence<T(==)>(a: seq<T>, b: seq<T>)
    decreases |b|
  {
    if a == [] then true
    else if b == [] then false
    else (a[0] == b[0] && IsSubsequence(a[1..], b[1..])) || IsSubsequence(a, b[1..])
  }

  /** Every sequence is a subsequence of itself. */
  lemma {:induction false} SubsequenceOfItself<T>(s: seq<T>)
    ensures IsSubsequence(s, s)
  {
    if s != [] {
      SubsequenceOfItself(s[1..]);
    }
  }

  lemma SubsequenceOfTail<T>(a: seq<T>, b: seq<T>)
    requires b != [] && IsSubsequence(a, b[1..])
    ensures IsSubsequence(a, b)
  {
  }

  lemma {:induction false} FilterIsSubsequence<T(!new)>(s: seq<T>, p: T -> bool)
    ensures IsSubsequence(Filter(s, p), s)
  {
    if s != [] {
      FilterIsSubsequence(s[1..], p);
      if p(s[0]) {
        assert Filter(s, p) == [s[0]] + Filter(s[1..], p);
        assert Filter(s, p)[1..] == Filter(s[1..], p);
      } else {
        assert Filter(s, p) == Filter(s[1..], p);
        SubsequenceOfTail(Filter(s[1..], p), s);
      }
    }
  }

  /** Filtering a subsequence of `b` again yields a subsequence of `b`. */
  lemma {:induction false} FilterKeepsSubsequence<T(!new)>(a: seq<T>, b: seq<T>, p: T -> bool)
    requires IsSubsequence(a, b)
    ensures IsSubsequence(Filter(a, p), b)
    decreases |b|
  {
    if a == [] {
    } else if a[0] == b[0] && IsSubsequence(a[1..], b[1..]) {
      FilterKeepsSubsequence(a[1..], b[1..], p);
      if p(a[0]) {
        assert Filter(a, p) == [a[0]] + Filter(a[1..], p);
        assert Filter(a, p)[1..] == Filter(a[1..], p);
      } else {
        assert Filter(a, p) == Filter(a[1..], p);
        SubsequenceOfTail(Filter(a[1..], p), b);
      }
    } else {
      FilterKeepsSubsequence(a, b[1..], p);
      SubsequenceOfTail(Filter(a, p), b);
    }
  }

  /** `s.find(x => key(x) === id)`: the first element with that id. */
  function FindById<T>(s: seq<T>, key: T -> string, id: string): (r: Option<T>)
    ensures r.None? <==> forall x :: x in s ==> key(x) != id
    ensures r.Some? ==> exists i :: 0 <= i < |s| && s[i] == r.value && key(s[i]) == id
                          && forall j :: 0 <= j < i ==> key(s[j]) != id
  {
    if s == [] then None
    else if key(s[0]) == id then Some(s[0])
    else
      var r := FindById(s[1..], key, id);
      assert r.Some? ==> exists i :: 1 <= i < |s| && s[i] == r.value && key(s[i]) == id
                          && forall j :: 0 <= j < i ==> key(s[j]) != id
        by {
          if r.Some? {
            var i :| 0 <= i < |s| - 1 && s[1..][i] == r.value && key(s[1..][i]) == id
                       && forall j :: 0 <= j < i ==> key(s[1..][j]) != id;
            assert forall j :: 1 <= j < i + 1 ==> key(s[j]) == key(s[1..][j - 1]);
          }
        }
      r
  }

  /** `s.map(x => key(x) === id ? y : x)`. */
  function ReplaceById<T>(s: seq<T>, key: T -> string, id: string, y: T): (r: seq<T>)
    ensures |r| == |s|
    ensures forall i :: 0 <= i < |s| && key(s[i]) != id ==> r[i] == s[i]
    ensures forall i :: 0 <= i < |s| && key(s[i]) == id ==> r[i] == y
  {
    if s == [] then []
    else [if key(s[0]) == id then y else s[0]] + ReplaceById(s[1..], key, id, y)
  }

  /** `s.filter(x => key(x) !== id)`. */
  function RemoveById<T(!new)>(s: seq<T>, key: T -> string, id: string): (r: seq<T>)
    ensures forall x :: x in r <==> x in s && key(x) != id
    ensures forall x :: key(x) != id ==> multiset(r)[x] == multiset(s)[x]
    ensures IsSubsequence(r, s)
  {
    if s == [] then []
    else
      var rest := RemoveById(s[1..], key, id);
      assert s == [s[0]] + s[1..];
      if key(s[0]) == id then
        SubsequenceOfTail(rest, s);
        rest
      else
        [s[0]] + rest
  }

  /** `s.reduce((sum, x) => sum + f(x), 0)`, summed from the right. */
  function Sum<T>(s: seq<T>, f: T -> Money): Money
  {
    if s == [] then 0.0 else f(s[0]) + Sum(s[1..], f)
  }

  lemma {:induction false} SumAppend<T>(a: seq<T>, b: seq<T>, f: T -> Money)
    ensures Sum(a + b, f) == Sum(a, f) + Sum(b, f)
  {
    if a != [] {
      assert (a + b)[0] == a[0];
      assert (a + b)[1..] == a[1..] + b;
      SumAppend(a[1..], b, f);
    } else {
      assert a + b == b;
    }
  }

  /** Taking one term out of a sum. */
  lemma SumRemoveAt<T>(b: seq<T>, i: nat, f: T -> Money)
    requires i < |b|
    ensures Sum(b, f) == f(b[i]) + Sum(b[..i] + b[i + 1..], f)
  {
    assert b == b[..i] + ([b[i]] + b[i + 1..]);
    SumAppend(b[..i], [b[i]] + b[i + 1..], f);
    assert ([b[i]] + b[i + 1..])[1..] == b[i + 1..];
    SumAppend(b[..i], b[i + 1..], f);
  }

  lemma MultisetRemoveAt<T>(b: seq<T>, i: nat)
    requires i < |b|
    ensures multiset(b[..i] + b[i + 1..]) == multiset(b) - multiset{b[i]}
  {
    assert b == b[..i] + [b[i]] + b[i + 1..];
  }

  /** A sum does not depend on the order of its terms. */
  lemma {:induction false} SumPermutation<T>(a: seq<T>, b: seq<T>, f: T -> Money)
    requires multiset(a) == multiset(b)
    ensures Sum(a, f) == Sum(b, f)
    decreases |a|
  {
    if a == [] {
      assert |b| == |multiset(b)| == 0;
    } else {
      assert a[0] in multiset(b);
      var i :| 0 <= i < |b| && b[i] == a[0];
      var rest := b[..i] + b[i + 1..];
      SumRemoveAt(b, i, f);
      MultisetRemoveAt(b, i);
      assert a == [a[0]] + a[1..];
      assert multiset(a[1..]) == multiset(a) - multiset{a[0]};
      assert multiset(a[1..]) == multiset(rest);
      SumPermutation(a[1..], rest, f);
    }
  }

  lemma {:induction false} SumNonNegative<T>(s: seq<T>, f: T -> Money)
    requires forall x :: x in s ==> f(x) >= 0.0
    ensures Sum(s, f) >= 0.0
  {
    if s != [] {
      SumNonNegative(s[1..], f);
    }
  }

  /** `filter` keeps every copy of an accepted element and no copy of a rejected one. */
  lemma {:induction false} FilterCount<T(!new)>(s: seq<T>, p: T -> bool, x: T)
    ensures multiset(Filter(s, p))[x] == if p(x) then multiset(s)[x] else 0
  {
    if s != [] {
      FilterCount(s[1..], p, x);
      assert s == [s[0]] + s[1..];
      var h := if p(s[0]) then [s[0]] else [];
      assert Filter(s, p) == h + Filter(s[1..], p);
      assert multiset(Filter(s, p)) == multiset(h) + multiset(Filter(s[1..], p));
    }
  }

  /** Filtering two permutations of each other gives permutations of each other. */
  lemma FilterPermutation<T(!new)>(a: seq<T>, b: seq<T>, p: T -> bool)
    requires multiset(a) == multiset(b)
    ensures multiset(Filter(a, p)) == multiset(Filter(b, p))
  {
    forall x ensures multiset(Filter(a, p))[x] == multiset(Filter(b, p))[x] {
      FilterCount(a, p, x);
      FilterCount(b, p, x);
    }
  }

  /** `filter` over a sequence extended by one element. */
  lemma FilterSnoc<T(!new)>(s: seq<T>, x: T, p: T -> bool)
    ensures Filter(s + [x], p) == Filter(s, p) + (if p(x) then [x] else [])
  {
    FilterAppend(s, [x], p);
    assert [x][1..] == [];
  }

  /** Every element of a `map` that replaces by id is the replacement or an untouched original. */
  lemma ReplaceByIdMembers<T>(s: seq<T>, key: T -> string, id: string, y: T)
    ensures forall x :: x in ReplaceById(s, key, id, y) ==> x == y || (x in s && key(x) != id)
  {
    var r := ReplaceById(s, key, id, y);
    forall x | x in r ensures x == y || (x in s && key(x) != id) {
      var i :| 0 <= i < |r| && r[i] == x;
      if key(s[i]) != id {
        assert r[i] == s[i];
      }
    }
  }

  /** Removing by id is the filter that keeps the other ids. */
  lemma {:induction false} RemoveByIdIsFilter<T(!new)>(s: seq<T>, key: T -> string, id: string)
    ensures RemoveById(s, key, id) == Filter(s, (x: T) => key(x) != id)
  {
    if s != [] {
      RemoveByIdIsFilter(s[1..], key, id);
    }
  }

  /** Summing a filtered sequence, one element at a time. */
  lemma SumFilterStep<T>(s: seq<T>, p: T -> bool, f: T -> Money)
    requires s != []
    ensures Sum(Filter(s, p), f) == (if p(s[0]) then f(s[0]) else 0.0) + Sum(Filter(s[1..], p), f)
  {
    var rest := Filter(s[1..], p);
    if p(s[0]) {
      assert Filter(s, p) == [s[0]] + rest;
      assert ([s[0]] + rest)[1..] == rest;
    } else {
      assert Filter(s, p) == rest;
    }
  }
}
