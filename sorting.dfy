/** Python's `sorted(..., key=..., reverse=True)` / `list.sort(key=...,
    reverse=True)`: a stable sort that puts larger keys first and keeps
    elements with equal keys in their input order.  The key order `le` is a
    parameter so that one definition serves strings, counts and reals. */
module Sorting {

  ghost predicate TotalOrder<K(!new)>(le: (K, K) -> bool) {
    && (forall a :: le(a, a))
    && (forall a, b :: le(a, b) && le(b, a) ==> a == b)
    && (forall a, b, c :: le(a, b) && le(b, c) ==> le(a, c))
    && (forall a, b :: le(a, b) || le(b, a))
  }

  /** Non-increasing by key: every later element's key is `le` every earlier one's. */
  ghost predicate SortedDesc<T, K>(s: seq<T>, key: T -> K, le: (K, K) -> bool) {
    forall i, j :: 0 <= i < j < |s| ==> le(key(s[j]), key(s[i]))
  }

  /** Places `x` in front of the first element whose key is not above `x`'s. */
  function Insert<T, K>(x: T, s: seq<T>, key: T -> K, le: (K, K) -> bool): (r: seq<T>)
    ensures multiset(r) == multiset(s) + multiset{x}
    ensures |r| == |s| + 1
  {
    if s == [] then [x]
    else if le(key(s[0]), key(x)) then [x] + s
    else
      assert s == [s[0]] + s[1..];
      [s[0]] + Insert(x, s[1..], key, le)
  }

  function SortDesc<T, K>(s: seq<T>, key: T -> K, le: (K, K) -> bool): (r: seq<T>)
    ensures multiset(r) == multiset(s)
    ensures |r| == |s|
  {
    if s == [] then []
    else
      assert s == [s[0]] + s[1..];
      Insert(s[0], SortDesc(s[1..], key, le), key, le)
  }

  /** The elements of `s` whose key is `k`, in order. */
  function WithKey<T, K(==)>(s: seq<T>, key: T -> K, k: K): seq<T> {
    if s == [] then []
    else (if key(s[0]) == k then [s[0]] else []) + WithKey(s[1..], key, k)
  }

  lemma {:induction false} InsertSorted<T, K(!new)>(x: T, s: seq<T>, key: T -> K, le: (K, K) -> bool)
    requires TotalOrder(le)
    requires SortedDesc(s, key, le)
    ensures SortedDesc(Insert(x, s, key, le), key, le)
  {
    if s == [] {
    } else if le(key(s[0]), key(x)) {
      var r := [x] + s;
      forall i, j | 0 <= i < j < |r| ensures le(key(r[j]), key(r[i])) {
        if i == 0 {
          assert r[j] == s[j - 1];
          if j > 1 { assert le(key(s[j - 1]), key(s[0])); }
        } else {
          assert r[i] == s[i - 1] && r[j] == s[j - 1];
        }
      }
    } else {
      var t := s[1..];
      assert SortedDesc(t, key, le) by {
        forall i, j | 0 <= i < j < |t| ensures le(key(t[j]), key(t[i])) {
          assert t[i] == s[i + 1] && t[j] == s[j + 1];
        }
      }
      InsertSorted(x, t, key, le);
      var it := Insert(x, t, key, le);
      assert Insert(x, s, key, le) == [s[0]] + it;
      InsertBelow(x, s, key, le);
      var r := [s[0]] + it;
      forall i, j | 0 <= i < j < |r| ensures le(key(r[j]), key(r[i])) {
        if i == 0 {
          assert r[j] == it[j - 1];
        } else {
          assert r[i] == it[i - 1] && r[j] == it[j - 1];
        }
      }
    }
  }

  /** When `x` goes below the head of a sorted `s`, everything after the head ranks at most the head. */
  lemma InsertBelow<T, K(!new)>(x: T, s: seq<T>, key: T -> K, le: (K, K) -> bool)
    requires TotalOrder(le)
    requires SortedDesc(s, key, le)
    requires s != [] && !le(key(s[0]), key(x))
    ensures forall j :: 0 <= j < |Insert(x, s[1..], key, le)| ==> le(key(Insert(x, s[1..], key, le)[j]), key(s[0]))
  {
    var t := s[1..];
    var it := Insert(x, t, key, le);
    assert multiset(it) == multiset(t) + multiset{x};
    forall j | 0 <= j < |it| ensures le(key(it[j]), key(s[0])) {
      assert it[j] in multiset(it);
      if it[j] == x {
        assert le(key(s[0]), key(x)) || le(key(x), key(s[0]));
      } else {
        assert it[j] in multiset(t);
        var m :| 0 <= m < |t| && t[m] == it[j];
        assert t[m] == s[m + 1];
      }
    }
  }

  lemma {:induction false} SortDescSorted<T, K(!new)>(s: seq<T>, key: T -> K, le: (K, K) -> bool)
    requires TotalOrder(le)
    ensures SortedDesc(SortDesc(s, key, le), key, le)
  {
    if s != [] {
      SortDescSorted(s[1..], key, le);
      InsertSorted(s[0], SortDesc(s[1..], key, le), key, le);
    }
  }

  lemma {:induction false} WithKeyAppend<T, K>(a: seq<T>, b: seq<T>, key: T -> K, k: K)
    ensures WithKey(a + b, key, k) == WithKey(a, key, k) + WithKey(b, key, k)
  {
    if a == [] {
      assert a + b == b;
    } else {
      var ab := a + b;
      assert ab[0] == a[0] && ab[1..] == a[1..] + b;
      WithKeyAppend(a[1..], b, key, k);
      var h := if key(a[0]) == k then [a[0]] else [];
      assert WithKey(ab, key, k) == h + WithKey(a[1..] + b, key, k);
      assert WithKey(a, key, k) == h + WithKey(a[1..], key, k);
    }
  }

  lemma {:induction false} InsertWithKey<T, K(!new)>(x: T, s: seq<T>, key: T -> K, le: (K, K) -> bool, k: K)
    requires forall a :: le(a, a)
    ensures WithKey(Insert(x, s, key, le), key, k)
         == (if key(x) == k then [x] else []) + WithKey(s, key, k)
  {
    if s == [] {
    } else if le(key(s[0]), key(x)) {
      assert ([x] + s)[1..] == s;
    } else {
      var it := Insert(x, s[1..], key, le);
      InsertWithKey(x, s[1..], key, le, k);
      var w := WithKey(s[1..], key, k);
      assert Insert(x, s, key, le) == [s[0]] + it;
      assert ([s[0]] + it)[0] == s[0] && ([s[0]] + it)[1..] == it;
      assert WithKey([s[0]] + it, key, k) == (if key(s[0]) == k then [s[0]] else []) + WithKey(it, key, k);
      assert WithKey(s, key, k) == (if key(s[0]) == k then [s[0]] else []) + w;
      // s[0] ranks strictly above x, so the two keys differ
      assert le(key(x), key(x));
      if key(x) == k {
        assert key(s[0]) != k;
      } else {
        assert WithKey(it, key, k) == w;
      }
    }
  }

  /** Stability: for every key, the elements with that key keep their order. */
  lemma {:induction false} SortDescStable<T, K(!new)>(s: seq<T>, key: T -> K, le: (K, K) -> bool, k: K)
    requires TotalOrder(le)
    ensures WithKey(SortDesc(s, key, le), key, k) == WithKey(s, key, k)
  {
    if s != [] {
      SortDescStable(s[1..], key, le, k);
      InsertWithKey(s[0], SortDesc(s[1..], key, le), key, le, k);
    }
  }
}
