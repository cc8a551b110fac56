/**
 * Python's sorted(xs, key=k) / list.sort(key=k): a stable sort by a numeric
 * key, modelled as insertion sort. Proved: the result is sorted, is a
 * permutation of the input, and keeps the input order among equal keys.
 */
module Sorting {

  ghost predicate SortedBy<T>(s: seq<T>, key: T -> real) {
    forall i, j :: 0 <= i < j < |s| ==> key(s[i]) <= key(s[j])
  }

  /** The elements of s whose key is k, in their order in s. */
  function WithKey<T>(s: seq<T>, key: T -> real, k: real): seq<T> {
    if s == [] then []
    else WithKey(s[..|s| - 1], key, k) + (if key(s[|s| - 1]) == k then [s[|s| - 1]] else [])
  }

  /** Insert x after every element whose key is at most key(x). */
  function Insert<T>(x: T, s: seq<T>, key: T -> real): seq<T> {
    if s == [] then [x]
    else if key(s[|s| - 1]) <= key(x) then s + [x]
    else Insert(x, s[..|s| - 1], key) + [s[|s| - 1]]
  }

  function SortBy<T>(s: seq<T>, key: T -> real): seq<T> {
    if s == [] then [] else Insert(s[|s| - 1], SortBy(s[..|s| - 1], key), key)
  }

  lemma {:induction false} InsertMultiset<T>(x: T, s: seq<T>, key: T -> real)
    ensures multiset(Insert(x, s, key)) == multiset(s) + multiset{x}
    ensures |Insert(x, s, key)| == |s| + 1
  {
    if s != [] && key(s[|s| - 1]) > key(x) {
      InsertMultiset(x, s[..|s| - 1], key);
      assert s == s[..|s| - 1] + [s[|s| - 1]];
    }
  }

  lemma {:induction false} InsertBounded<T>(x: T, s: seq<T>, key: T -> real, m: real)
    requires forall i :: 0 <= i < |s| ==> key(s[i]) <= m
    requires key(x) <= m
    ensures forall i :: 0 <= i < |Insert(x, s, key)| ==> key(Insert(x, s, key)[i]) <= m
  {
    if s != [] && key(s[|s| - 1]) > key(x) {
      InsertBounded(x, s[..|s| - 1], key, m);
    }
  }

  lemma {:induction false} InsertSorted<T>(x: T, s: seq<T>, key: T -> real)
    requires SortedBy(s, key)
    ensures SortedBy(Insert(x, s, key), key)
  {
    if s != [] && key(s[|s| - 1]) > key(x) {
      var init, last := s[..|s| - 1], s[|s| - 1];
      InsertSorted(x, init, key);
      InsertBounded(x, init, key, key(last));
    }
  }

  /** The sorted result is ordered and a permutation of the input. */
  lemma {:induction false} SortByFacts<T>(s: seq<T>, key: T -> real)
    ensures SortedBy(SortBy(s, key), key)
    ensures multiset(SortBy(s, key)) == multiset(s)
    ensures |SortBy(s, key)| == |s|
  {
    if s != [] {
      SortByFacts(s[..|s| - 1], key);
      InsertSorted(s[|s| - 1], SortBy(s[..|s| - 1], key), key);
      InsertMultiset(s[|s| - 1], SortBy(s[..|s| - 1], key), key);
      assert s == s[..|s| - 1] + [s[|s| - 1]];
    }
  }

  lemma {:induction false} WithKeyAppend<T>(a: seq<T>, b: seq<T>, key: T -> real, k: real)
    ensures WithKey(a + b, key, k) == WithKey(a, key, k) + WithKey(b, key, k)
    decreases |b|
  {
    if b == [] {
      assert a + b == a;
    } else {
      assert (a + b)[..|a + b| - 1] == a + b[..|b| - 1];
      WithKeyAppend(a, b[..|b| - 1], key, k);
    }
  }

  lemma {:induction false} InsertStable<T>(x: T, s: seq<T>, key: T -> real, k: real)
    requires SortedBy(s, key)
    ensures WithKey(Insert(x, s, key), key, k)
         == WithKey(s, key, k) + (if key(x) == k then [x] else [])
  {
    if s == [] {
      assert WithKey([x], key, k) == WithKey([], key, k) + (if key(x) == k then [x] else []);
    } else if key(s[|s| - 1]) <= key(x) {
      WithKeyAppend(s, [x], key, k);
      assert WithKey([x], key, k) == WithKey([], key, k) + (if key(x) == k then [x] else []);
    } else {
      var init, last := s[..|s| - 1], s[|s| - 1];
      InsertStable(x, init, key, k);
      var r0 := Insert(x, init, key);
      assert (r0 + [last])[..|r0 + [last]| - 1] == r0;
      assert s == init + [last];
    }
  }

  /** Stability: among equal keys the sort keeps the input order. */
  lemma {:induction false} SortByStable<T>(s: seq<T>, key: T -> real, k: real)
    ensures WithKey(SortBy(s, key), key, k) == WithKey(s, key, k)
  {
    if s != [] {
      SortByStable(s[..|s| - 1], key, k);
      SortByFacts(s[..|s| - 1], key);
      InsertStable(s[|s| - 1], SortBy(s[..|s| - 1], key), key, k);
    }
  }

  /** Sorting a list that is already in order changes nothing. */
  lemma {:induction false} SortBySortedIsIdentity<T>(s: seq<T>, key: T -> real)
    requires SortedBy(s, key)
    ensures SortBy(s, key) == s
  {
    if s != [] {
      var init := s[..|s| - 1];
      SortBySortedIsIdentity(init, key);
      assert s == init + [s[|s| - 1]];
    }
  }

  /** Inserting lands x just after the last element whose key is at most key(x), scanning from the end. */
  lemma {:induction false} InsertAt<T>(x: T, s: seq<T>, key: T -> real, j: nat)
    requires j <= |s|
    requires forall k :: j <= k < |s| ==> key(s[k]) > key(x)
    requires j > 0 ==> key(s[j - 1]) <= key(x)
    ensures Insert(x, s, key) == s[..j] + [x] + s[j..]
    decreases |s|
  {
    if s == [] {
    } else if key(s[|s| - 1]) <= key(x) {
      assert j == |s|;
    } else {
      var init := s[..|s| - 1];
      InsertAt(x, init, key, j);
      assert init[j..] + [s[|s| - 1]] == s[j..];
    }
  }

  /** No two elements share a key, and keys increase along the sequence. */
  ghost predicate StrictlySortedBy<T>(s: seq<T>, key: T -> real) {
    forall i, j :: 0 <= i < j < |s| ==> key(s[i]) < key(s[j])
  }

  /** Inserting an element of a new key at its place keeps keys strictly increasing and adds just that element. */
  lemma InsertStrictlySorted<T>(s: seq<T>, x: T, key: T -> real, j: nat)
    requires StrictlySortedBy(s, key) && j <= |s|
    requires forall k :: j <= k < |s| ==> key(s[k]) > key(x)
    requires j > 0 ==> key(s[j - 1]) < key(x)
    ensures StrictlySortedBy(s[..j] + [x] + s[j..], key)
  {
    var r := s[..j] + [x] + s[j..];
    InsertedAt(s, x, j);
    forall a, b | 0 <= a < b < |r|
      ensures key(r[a]) < key(r[b])
    {
      if a == j {
        assert key(s[b - 1]) > key(x);
      } else if b == j {
        assert key(s[a]) <= key(s[j - 1]);
      } else if a < j < b {
        assert key(s[a]) < key(x) < key(s[b - 1]);
      } else if a < j {
        assert key(s[a]) < key(s[b]);
      } else {
        assert key(s[a - 1]) < key(s[b - 1]);
      }
    }
  }

  /** Inserting adds exactly one occurrence of x. */
  lemma InsertedContents<T>(s: seq<T>, x: T, j: nat)
    requires j <= |s|
    ensures multiset(s[..j] + [x] + s[j..]) == multiset(s) + multiset{x}
    ensures forall w :: w in s[..j] + [x] + s[j..] <==> w in s || w == x
  {
    assert s == s[..j] + s[j..];
    assert multiset(s[..j] + [x] + s[j..]) == multiset(s[..j]) + multiset{x} + multiset(s[j..]);
    forall w
      ensures w in s[..j] + [x] + s[j..] <==> w in s || w == x
    {
      assert w in s[..j] + [x] + s[j..] <==> w in multiset(s[..j] + [x] + s[j..]);
      assert w in s <==> w in multiset(s);
    }
  }

  /** Where each element of s[..j] + [x] + s[j..] comes from. */
  lemma InsertedAt<T>(s: seq<T>, x: T, j: nat)
    requires j <= |s|
    ensures forall k :: 0 <= k < j ==> (s[..j] + [x] + s[j..])[k] == s[k]
    ensures (s[..j] + [x] + s[j..])[j] == x
    ensures forall k :: j < k <= |s| ==> (s[..j] + [x] + s[j..])[k] == s[k - 1]
  {
  }
}
