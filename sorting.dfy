/**
 * Insertion sort on a numeric sort key, standing in for `ORDER BY` and Mongo's `sort`:
 * a permutation of the input in ascending key order.
 */
module Sorting {

  predicate SortedBy<T>(s: seq<T>, key: T -> real)
  {
    forall i, j :: 0 <= i < j < |s| ==> key(s[i]) <= key(s[j])
  }

  /** Insert `x` before the first element with a larger-or-equal key. */
  function InsertBy<T>(x: T, s: seq<T>, key: T -> real): (r: seq<T>)
    ensures multiset(r) == multiset(s) + multiset{x}
  {
    if s == [] then [x]
    else if key(x) <= key(s[0]) then [x] + s
    else
      assert s == [s[0]] + s[1..];
      [s[0]] + InsertBy(x, s[1..], key)
  }

  /** Every element of the insertion is `x` or an element of `s`. */
  lemma InsertMembers<T>(x: T, s: seq<T>, key: T -> real)
    ensures forall y :: y in InsertBy(x, s, key) ==> y == x || y in s
  {
    var r := InsertBy(x, s, key);
    forall y | y in r ensures y == x || y in s {
      assert y in multiset(r);
    }
  }

  lemma {:induction false} InsertSorted<T>(x: T, s: seq<T>, key: T -> real)
    requires SortedBy(s, key)
    ensures SortedBy(InsertBy(x, s, key), key)
  {
    if s != [] && key(x) > key(s[0]) {
      var t := s[1..];
      var rest := InsertBy(x, t, key);
      InsertSorted(x, t, key);
      InsertMembers(x, t, key);
      forall j | 0 <= j < |rest| ensures key(s[0]) <= key(rest[j]) {
        assert rest[j] in rest;
        if rest[j] != x {
          var k :| 0 <= k < |t| && t[k] == rest[j];
          assert t[k] == s[k + 1];
        }
      }
      var r := [s[0]] + rest;
      assert InsertBy(x, s, key) == r;
      forall i, j | 0 <= i < j < |r| ensures key(r[i]) <= key(r[j]) {
        if i == 0 { assert r[j] == rest[j - 1]; } else { assert r[i] == rest[i - 1] && r[j] == rest[j - 1]; }
      }
    }
  }

  /** `s` in ascending key order: a sorted permutation. */
  function SortBy<T>(s: seq<T>, key: T -> real): (r: seq<T>)
    ensures multiset(r) == multiset(s)
    ensures SortedBy(r, key)
  {
    if s == [] then []
    else
      assert s == [s[0]] + s[1..];
      var t := SortBy(s[1..], key);
      InsertSorted(s[0], t, key);
      InsertBy(s[0], t, key)
  }

  /** The elements of `s` whose key is `v`, in their order in `s`. */
  function WithKey<T>(s: seq<T>, key: T -> real, v: real): seq<T>
  {
    if s == [] then [] else (if key(s[0]) == v then [s[0]] else []) + WithKey(s[1..], key, v)
  }

  /** The insertion puts `x` before every element of equal key and moves nothing else. */
  lemma {:induction false} InsertWithKey<T>(x: T, s: seq<T>, key: T -> real, v: real)
    ensures WithKey(InsertBy(x, s, key), key, v) == (if key(x) == v then [x] else []) + WithKey(s, key, v)
  {
    if s == [] {
      WithKeyCons(x, [], key, v);
    } else if key(x) <= key(s[0]) {
      WithKeyCons(x, s, key, v);
    } else {
      var t := InsertBy(x, s[1..], key);
      assert InsertBy(x, s, key) == [s[0]] + t;
      InsertWithKey(x, s[1..], key, v);
      WithKeyCons(s[0], t, key, v);
      KeptSwap(s[0], x, WithKey(s[1..], key, v), key, v);
    }
  }

  /** Two elements with different keys can trade places in a WithKey result: at most one is kept. */
  lemma KeptSwap<T>(a: T, b: T, rest: seq<T>, key: T -> real, v: real)
    requires key(a) < key(b)
    ensures (if key(a) == v then [a] else []) + ((if key(b) == v then [b] else []) + rest)
         == (if key(b) == v then [b] else []) + ((if key(a) == v then [a] else []) + rest)
  {
  }

  lemma WithKeyCons<T>(y: T, t: seq<T>, key: T -> real, v: real)
    ensures WithKey([y] + t, key, v) == (if key(y) == v then [y] else []) + WithKey(t, key, v)
  {
    assert ([y] + t)[0] == y && ([y] + t)[1..] == t;
  }

  /** The sort is stable: for every key, the elements of that key keep their input order. */
  lemma {:induction false} SortStable<T>(s: seq<T>, key: T -> real, v: real)
    ensures WithKey(SortBy(s, key), key, v) == WithKey(s, key, v)
  {
    if s != [] {
      SortStable(s[1..], key, v);
      InsertWithKey(s[0], SortBy(s[1..], key), key, v);
    }
  }

  /** No two elements share an identity. */
  predicate DistinctBy<T(==), K(==)>(s: seq<T>, id: T -> K)
  {
    forall i, j :: 0 <= i < j < |s| ==> id(s[i]) != id(s[j])
  }

  lemma {:induction false} InsertKeepsDistinct<T, K>(x: T, s: seq<T>, key: T -> real, id: T -> K)
    requires DistinctBy(s, id) && forall y :: y in s ==> id(y) != id(x)
    ensures DistinctBy(InsertBy(x, s, key), id)
  {
    if s != [] && key(x) > key(s[0]) {
      var t := s[1..];
      assert forall y :: y in t ==> y in s;
      InsertKeepsDistinct(x, t, key, id);
      InsertMembers(x, t, key);
      var rest := InsertBy(x, t, key);
      var r := [s[0]] + rest;
      assert InsertBy(x, s, key) == r;
      forall i, j | 0 <= i < j < |r| ensures id(r[i]) != id(r[j]) {
        if i == 0 {
          assert r[j] in rest;
          if r[j] != x {
            var k :| 0 <= k < |t| && t[k] == r[j];
            assert r[j] == s[k + 1];
          }
        } else {
          assert r[i] == rest[i - 1] && r[j] == rest[j - 1];
        }
      }
    } else if s != [] {
      var r := [x] + s;
      forall i, j | 0 <= i < j < |r| ensures id(r[i]) != id(r[j]) {
        if i == 0 { assert r[j] == s[j - 1]; } else { assert r[i] == s[i - 1] && r[j] == s[j - 1]; }
      }
    }
  }

  /** Sorting does not make two elements share an identity. */
  lemma {:induction false} SortKeepsDistinct<T, K>(s: seq<T>, key: T -> real, id: T -> K)
    requires DistinctBy(s, id)
    ensures DistinctBy(SortBy(s, key), id)
  {
    if s != [] {
      var t := s[1..];
      assert DistinctBy(t, id) by {
        forall i, j | 0 <= i < j < |t| ensures id(t[i]) != id(t[j]) {
          assert t[i] == s[i + 1] && t[j] == s[j + 1];
        }
      }
      SortKeepsDistinct(t, key, id);
      forall y | y in SortBy(t, key) ensures id(y) != id(s[0]) {
        assert y in multiset(SortBy(t, key));
        assert y in multiset(t);
        var k :| 0 <= k < |t| && t[k] == y;
        assert y == s[k + 1];
      }
      InsertKeepsDistinct(s[0], SortBy(t, key), key, id);
    }
  }
}
