/**
 * A stable sort by an integer key: the behaviour the client relies on from
 * `Array.prototype.sort` with a numeric comparator `(a, b) => key(a) - key(b)`,
 * which the language guarantees to be stable.
 */
module Sorting {

  /** Keys never decrease from left to right. */
  ghost predicate SortedBy<T>(s: seq<T>, key: T -> int) {
    forall i, j :: 0 <= i < j < |s| ==> key(s[i]) <= key(s[j])
  }

  /** The elements of `s` whose key is `k`, in their order in `s`. */
  function WithKey<T>(s: seq<T>, key: T -> int, k: int): (r: seq<T>)
    ensures |r| <= |s|
  {
    if s == [] then []
    else (if key(s[0]) == k then [s[0]] else []) + WithKey(s[1..], key, k)
  }

  /** Length of the longest prefix of `s` whose keys are at most `v`. */
  function PrefixAtMost<T>(s: seq<T>, key: T -> int, v: int): (m: nat)
    ensures m <= |s|
    ensures forall i :: 0 <= i < m ==> key(s[i]) <= v
    ensures m < |s| ==> key(s[m]) > v
  {
    if s == [] || key(s[0]) > v then 0 else 1 + PrefixAtMost(s[1..], key, v)
  }

  /** Puts `x` into the sorted `s` after every element whose key is not larger. */
  function Insert<T>(x: T, s: seq<T>, key: T -> int): (r: seq<T>)
    requires SortedBy(s, key)
    ensures |r| == |s| + 1
    ensures multiset(r) == multiset(s) + multiset{x}
    ensures SortedBy(r, key)
  {
    var m := PrefixAtMost(s, key, key(x));
    SpliceSorted(x, s, key, m);
    SpliceMultiset(x, s, m);
    s[..m] + [x] + s[m..]
  }

  lemma {:induction false} SpliceMultiset<T>(x: T, s: seq<T>, m: nat)
    requires m <= |s|
    ensures multiset(s[..m] + [x] + s[m..]) == multiset(s) + multiset{x}
  {
    assert s == s[..m] + s[m..];
  }

  lemma {:induction false} SpliceSorted<T>(x: T, s: seq<T>, key: T -> int, m: nat)
    requires SortedBy(s, key)
    requires m <= |s|
    requires forall i :: 0 <= i < m ==> key(s[i]) <= key(x)
    requires m < |s| ==> key(x) < key(s[m])
    ensures SortedBy(s[..m] + [x] + s[m..], key)
  {
    var r := s[..m] + [x] + s[m..];
    forall i, j | 0 <= i < j < |r|
      ensures key(r[i]) <= key(r[j])
    {
      if j < m {
        assert r[i] == s[i] && r[j] == s[j];
      } else if j == m {
        assert r[i] == s[i] && r[j] == x;
      } else if i < m {
        assert r[i] == s[i] && r[j] == s[j - 1];
      } else if i == m {
        assert r[i] == x && r[j] == s[j - 1];
      } else {
        assert r[i] == s[i - 1] && r[j] == s[j - 1];
      }
    }
  }

  /** Insertion sort: every prefix is sorted before the next element goes in. */
  function SortBy<T>(s: seq<T>, key: T -> int): (r: seq<T>)
    ensures |r| == |s|
    ensures multiset(r) == multiset(s)
    ensures SortedBy(r, key)
  {
    if s == [] then []
    else
      assert s == s[..|s| - 1] + [s[|s| - 1]];
      Insert(s[|s| - 1], SortBy(s[..|s| - 1], key), key)
  }

  lemma {:induction false} WithKeyConcat<T>(a: seq<T>, b: seq<T>, key: T -> int, k: int)
    ensures WithKey(a + b, key, k) == WithKey(a, key, k) + WithKey(b, key, k)
  {
    if a == [] {
      assert a + b == b;
    } else {
      assert (a + b)[1..] == a[1..] + b;
      WithKeyConcat(a[1..], b, key, k);
      var h := if key(a[0]) == k then [a[0]] else [];
      calc {
        WithKey(a + b, key, k);
        { assert (a + b)[0] == a[0]; }
        h + WithKey(a[1..] + b, key, k);
        h + (WithKey(a[1..], key, k) + WithKey(b, key, k));
        (h + WithKey(a[1..], key, k)) + WithKey(b, key, k);
      }
    }
  }

  lemma {:induction false} WithKeyNone<T>(s: seq<T>, key: T -> int, k: int)
    requires forall i :: 0 <= i < |s| ==> key(s[i]) != k
    ensures WithKey(s, key, k) == []
  {
    if s != [] {
      WithKeyNone(s[1..], key, k);
    }
  }

  lemma {:induction false} WithKeySplice<T>(lo: seq<T>, x: T, hi: seq<T>, key: T -> int, k: int)
    ensures WithKey(lo + [x] + hi, key, k)
         == WithKey(lo, key, k) + (if key(x) == k then [x] else []) + WithKey(hi, key, k)
  {
    WithKeyConcat(lo + [x], hi, key, k);
    WithKeyConcat(lo, [x], key, k);
    assert WithKey([x], key, k) == (if key(x) == k then [x] else []) + WithKey([], key, k);
  }

  lemma {:induction false} InsertWithKey<T>(x: T, s: seq<T>, key: T -> int, k: int)
    requires SortedBy(s, key)
    ensures WithKey(Insert(x, s, key), key, k)
         == WithKey(s, key, k) + (if key(x) == k then [x] else [])
  {
    var m := PrefixAtMost(s, key, key(x));
    if key(x) == k {
      WithKeyAboveNone(s, key, m, k);
    }
    SpliceWithKey(x, s, key, k, m);
  }

  /** Splicing `x` in at `m` adds it after the elements of its key, when none of them lie beyond `m`. */
  lemma {:induction false} SpliceWithKey<T>(x: T, s: seq<T>, key: T -> int, k: int, m: nat)
    requires m <= |s|
    requires key(x) == k ==> WithKey(s[m..], key, k) == []
    ensures WithKey(s[..m] + [x] + s[m..], key, k)
         == WithKey(s, key, k) + (if key(x) == k then [x] else [])
  {
    var lo, hi := s[..m], s[m..];
    var a, b := WithKey(lo, key, k), WithKey(hi, key, k);
    var mid := if key(x) == k then [x] else [];
    assert WithKey(s, key, k) == a + b by {
      assert s == lo + hi;
      WithKeyConcat(lo, hi, key, k);
    }
    WithKeySplice(lo, x, hi, key, k);
    assert a + mid + b == (a + b) + mid;
  }

  lemma {:induction false} WithKeyAboveNone<T>(s: seq<T>, key: T -> int, m: nat, k: int)
    requires SortedBy(s, key)
    requires m < |s| ==> k < key(s[m])
    requires m <= |s|
    ensures WithKey(s[m..], key, k) == []
  {
    var hi := s[m..];
    forall i | 0 <= i < |hi|
      ensures key(hi[i]) != k
    {
      assert hi[i] == s[m + i] && key(s[m]) <= key(s[m + i]);
    }
    WithKeyNone(hi, key, k);
  }

  /**
   * Stability: for every key, the elements carrying it leave the sort in the
   * order they came in.
   */
  lemma {:induction false} SortByStable<T>(s: seq<T>, key: T -> int, k: int)
    ensures WithKey(SortBy(s, key), key, k) == WithKey(s, key, k)
  {
    if s != [] {
      var init, last := s[..|s| - 1], s[|s| - 1];
      var tail := if key(last) == k then [last] else [];
      calc {
        WithKey(SortBy(s, key), key, k);
        WithKey(Insert(last, SortBy(init, key), key), key, k);
        { InsertWithKey(last, SortBy(init, key), key, k); }
        WithKey(SortBy(init, key), key, k) + tail;
        { SortByStable(init, key, k); }
        WithKey(init, key, k) + tail;
        { assert WithKey([last], key, k) == tail; WithKeyConcat(init, [last], key, k); }
        WithKey(init + [last], key, k);
        { assert s == init + [last]; }
        WithKey(s, key, k);
      }
    }
  }
}
