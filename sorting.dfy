/** The two uses of `Array.prototype.sort` in the core: a comparator on an integer
    key (`a.key - b.key`), which ECMA-262 (2019 edition, section 22.1.3.27)
    requires to be stable, and the default sort of strings by code units. */
module Sorting {

  import opened Lists
  import opened Strings

  /** Non-decreasing in `key`. */
  predicate SortedByKey<T>(s: seq<T>, key: T -> int) {
    forall i, j :: 0 <= i < j < |s| ==> key(s[i]) <= key(s[j])
  }

  /** The elements of `s` whose key is `k`, in order. */
  function WithKey<T(!new)>(s: seq<T>, key: T -> int, k: int): seq<T> {
    Filter(s, x => key(x) == k)
  }

  /** Inserts `x` in front of the first element whose key is not smaller. */
  function InsertByKey<T(!new)>(x: T, s: seq<T>, key: T -> int): (r: seq<T>)
    ensures |r| == |s| + 1
    ensures multiset(r) == multiset(s) + multiset{x}
    decreases |s|
  {
    if s == [] then [x]
    else if key(x) <= key(s[0]) then [x] + s
    else
      assert s == [s[0]] + s[1..];
      [s[0]] + InsertByKey(x, s[1..], key)
  }

  lemma {:induction false} InsertByKeySorted<T(!new)>(x: T, s: seq<T>, key: T -> int)
    requires SortedByKey(s, key)
    ensures SortedByKey(InsertByKey(x, s, key), key)
    decreases |s|
  {
    if s != [] && key(x) > key(s[0]) {
      var t := s[1..];
      var rest := InsertByKey(x, t, key);
      InsertByKeySorted(x, t, key);
      assert key(s[0]) <= key(rest[0]) by {
        if t != [] && key(x) > key(t[0]) {
          assert rest[0] == t[0] == s[1];
        }
      }
      var r := InsertByKey(x, s, key);
      assert r == [s[0]] + rest;
      forall i, j | 0 <= i < j < |r| ensures key(r[i]) <= key(r[j]) {
        if i == 0 && j > 1 {
          assert key(rest[0]) <= key(rest[j - 1]);
        }
      }
    }
  }

  /** A stable sort by `key` (insertion sort). */
  function SortByKey<T(!new)>(s: seq<T>, key: T -> int): (r: seq<T>)
    ensures |r| == |s|
    ensures multiset(r) == multiset(s)
    ensures SortedByKey(r, key)
    decreases |s|
  {
    if s == [] then []
    else
      assert s == [s[0]] + s[1..];
      InsertByKeySorted(s[0], SortByKey(s[1..], key), key);
      InsertByKey(s[0], SortByKey(s[1..], key), key)
  }

  lemma {:induction false} InsertByKeyStable<T(!new)>(x: T, s: seq<T>, key: T -> int, k: int)
    ensures WithKey(InsertByKey(x, s, key), key, k) == (if key(x) == k then [x] else []) + WithKey(s, key, k)
    decreases |s|
  {
    if s == [] {
    } else if key(x) <= key(s[0]) {
      assert InsertByKey(x, s, key) == [x] + s;
      WithKeyCons(x, s, key, k);
    } else {
      var rest := InsertByKey(x, s[1..], key);
      var hx: seq<T> := if key(x) == k then [x] else [];
      var h0: seq<T> := if key(s[0]) == k then [s[0]] else [];
      calc {
        WithKey(InsertByKey(x, s, key), key, k);
      == { assert InsertByKey(x, s, key) == [s[0]] + rest; }
        WithKey([s[0]] + rest, key, k);
      == { WithKeyCons(s[0], rest, key, k); }
        h0 + WithKey(rest, key, k);
      == { InsertByKeyStable(x, s[1..], key, k); }
        h0 + (hx + WithKey(s[1..], key, k));
      == { SwapEmpty(h0, hx, WithKey(s[1..], key, k)); }
        hx + (h0 + WithKey(s[1..], key, k));
      == { WithKeyCons(s[0], s[1..], key, k); assert s == [s[0]] + s[1..]; }
        hx + WithKey(s, key, k);
      }
    }
  }

  lemma SwapEmpty<T>(a: seq<T>, b: seq<T>, c: seq<T>)
    requires a == [] || b == []
    ensures a + (b + c) == b + (a + c)
  {
    if a == [] {
      assert a + (b + c) == b + c == b + (a + c);
    } else {
      assert a + (b + c) == a + c == b + (a + c);
    }
  }

  /** `WithKey` of a list with a known head. */
  lemma WithKeyCons<T(!new)>(a: T, s: seq<T>, key: T -> int, k: int)
    ensures WithKey([a] + s, key, k) == (if key(a) == k then [a] else []) + WithKey(s, key, k)
  {
    assert ([a] + s)[1..] == s;
  }

  /** Stability: the elements that share a key keep their input order. */
  lemma {:induction false} SortByKeyStable<T(!new)>(s: seq<T>, key: T -> int, k: int)
    ensures WithKey(SortByKey(s, key), key, k) == WithKey(s, key, k)
    decreases |s|
  {
    if s != [] {
      SortByKeyStable(s[1..], key, k);
      InsertByKeyStable(s[0], SortByKey(s[1..], key), key, k);
    }
  }

  /** Sorting a sorted list does not change it. */
  lemma {:induction false} SortByKeySorted<T(!new)>(s: seq<T>, key: T -> int)
    requires SortedByKey(s, key)
    ensures SortByKey(s, key) == s
    decreases |s|
  {
    if s != [] {
      SortByKeySorted(s[1..], key);
      assert s == [s[0]] + s[1..];
    }
  }

  /** Non-decreasing in the string order. */
  predicate SortedStrings(s: seq<string>) {
    forall i, j :: 0 <= i < j < |s| ==> StrLe(s[i], s[j])
  }

  /** Inserts `x` in front of the first string not below it. */
  function InsertString(x: string, s: seq<string>): (r: seq<string>)
    ensures |r| == |s| + 1
    ensures multiset(r) == multiset(s) + multiset{x}
    decreases |s|
  {
    if s == [] then [x]
    else if StrLe(x, s[0]) then [x] + s
    else
      assert s == [s[0]] + s[1..];
      [s[0]] + InsertString(x, s[1..])
  }

  lemma {:induction false} InsertStringSorted(x: string, s: seq<string>)
    requires SortedStrings(s)
    ensures SortedStrings(InsertString(x, s))
    decreases |s|
  {
    if s != [] {
      if StrLe(x, s[0]) {
        var r := [x] + s;
        forall j | 0 < j < |r| ensures StrLe(x, r[j]) {
          if j > 1 { StrLeTransitive(x, s[0], s[j - 1]); }
        }
      } else {
        StrLeTotal(x, s[0]);
        var t := s[1..];
        var rest := InsertString(x, t);
        InsertStringSorted(x, t);
        assert StrLe(s[0], rest[0]) by {
          if t != [] && !StrLe(x, t[0]) {
            assert rest[0] == t[0] == s[1];
          }
        }
        var r := InsertString(x, s);
        assert r == [s[0]] + rest;
        forall i, j | 0 <= i < j < |r| ensures StrLe(r[i], r[j]) {
          if i == 0 && j > 1 {
            StrLeTransitive(s[0], rest[0], rest[j - 1]);
          }
        }
      }
    }
  }

  /** `strings.sort()`: an insertion sort in the code-unit order. */
  function SortStrings(s: seq<string>): (r: seq<string>)
    ensures |r| == |s|
    ensures multiset(r) == multiset(s)
    ensures SortedStrings(r)
    decreases |s|
  {
    if s == [] then []
    else
      assert s == [s[0]] + s[1..];
      InsertStringSorted(s[0], SortStrings(s[1..]));
      InsertString(s[0], SortStrings(s[1..]))
  }

  /** A sorted permutation of a duplicate-free list is strictly increasing. */
  lemma SortedDistinctStrings(s: seq<string>, r: seq<string>)
    requires NoDup(s) && multiset(r) == multiset(s) && SortedStrings(r)
    ensures NoDup(r)
    ensures forall i, j :: 0 <= i < j < |r| ==> StrLe(r[i], r[j]) && r[i] != r[j]
  {
    NoDupMultiset(s, r);
  }

  /** A permutation of a duplicate-free list is duplicate-free. */
  lemma NoDupMultiset<T>(s: seq<T>, r: seq<T>)
    requires NoDup(s) && multiset(r) == multiset(s)
    ensures NoDup(r)
  {
    forall i, j | 0 <= i < j < |r| ensures r[i] != r[j] {
      if r[i] == r[j] {
        var pre := r[..j];
        assert r == pre + r[j..];
        assert r[i] in multiset(pre) && r[j] in multiset(r[j..]);
        assert multiset(r)[r[i]] >= 2;
        CountAtMostOne(s, r[i]);
      }
    }
  }

  lemma {:induction false} CountAtMostOne<T>(s: seq<T>, x: T)
    requires NoDup(s)
    ensures multiset(s)[x] <= 1
    decreases |s|
  {
    if s != [] {
      assert s == [s[0]] + s[1..];
      CountAtMostOne(s[1..], x);
      if s[0] == x {
        assert x !in s[1..];
      }
    }
  }
}
