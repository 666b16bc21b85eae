/** Sequence helpers: duplicate-freedom, selecting by an integer key, and the stable sort that
    `Array.prototype.sort` performs with a comparator `(a, b) => key(a) - key(b)`. */
module Sequences {
  /** The prefix of full length is the whole sequence. */
  lemma {:induction false} WholePrefix<T>(s: seq<T>)
    ensures s[..|s|] == s
  {
  }


  /** No element occurs twice. */
  predicate Distinct<T(==,!new)>(s: seq<T>) {
    forall i, j :: 0 <= i < j < |s| ==> s[i] != s[j]
  }

  /** The elements of `s` whose key is `k`, in their order in `s`. */
  function WithKey<T(==,!new)>(s: seq<T>, key: T -> int, k: int): (r: seq<T>)
    ensures |r| <= |s|
    ensures forall x :: x in r <==> x in s && key(x) == k
  {
    if s == [] then []
    else
      var rest := WithKey(s[1..], key, k);
      assert forall x :: x in s <==> x == s[0] || x in s[1..];
      (if key(s[0]) == k then [s[0]] else []) + rest
  }

  lemma {:induction false} WithKeyAppend<T(!new)>(a: seq<T>, b: seq<T>, key: T -> int, k: int)
    ensures WithKey(a + b, key, k) == WithKey(a, key, k) + WithKey(b, key, k)
  {
    if a == [] {
      assert a + b == b;
    } else {
      assert (a + b)[1..] == a[1..] + b;
      WithKeyAppend(a[1..], b, key, k);
    }
  }

  /** Selecting key `k` from the selection for key `j`. */
  lemma {:induction false} WithKeyTwice<T(!new)>(s: seq<T>, key: T -> int, j: int, k: int)
    ensures WithKey(WithKey(s, key, j), key, k) == if j == k then WithKey(s, key, k) else []
  {
    if s != [] {
      WithKeyTwice(s[1..], key, j, k);
      var head: seq<T> := if key(s[0]) == j then [s[0]] else [];
      WithKeyAppend(head, WithKey(s[1..], key, j), key, k);
    }
  }

  /** Stable sort by `key` of a sequence whose keys lie in `lo..hi`: the elements with the
      smallest key first, each key's elements in their original order. */
  function SortByKey<T(==,!new)>(s: seq<T>, key: T -> int, lo: int, hi: int): seq<T>
    decreases hi - lo
  {
    if lo > hi then [] else WithKey(s, key, lo) + SortByKey(s, key, lo + 1, hi)
  }

  /** Ascending by key, where "ascending" is what the comparator's sign means. */
  predicate SortedByKey<T(==,!new)>(s: seq<T>, key: T -> int) {
    forall i, j :: 0 <= i < j < |s| ==> key(s[i]) <= key(s[j])
  }

  /** All keys of `s` lie in `lo..hi`. */
  predicate KeysIn<T(==,!new)>(s: seq<T>, key: T -> int, lo: int, hi: int) {
    forall x :: x in s ==> lo <= key(x) <= hi
  }

  /** The sort's output is ordered by key and its keys stay in range. */
  lemma {:induction false} SortByKeySorted<T(!new)>(s: seq<T>, key: T -> int, lo: int, hi: int)
    ensures SortedByKey(SortByKey(s, key, lo, hi), key)
    ensures KeysIn(SortByKey(s, key, lo, hi), key, lo, hi)
    decreases hi - lo
  {
    if lo <= hi {
      var b := WithKey(s, key, lo);
      var rest := SortByKey(s, key, lo + 1, hi);
      SortByKeySorted(s, key, lo + 1, hi);
      var r := b + rest;
      forall i, j | 0 <= i < j < |r| ensures key(r[i]) <= key(r[j]) {
        if j < |b| {
          assert r[i] in b && r[j] in b;
        } else if i < |b| {
          assert r[i] in b && r[j] == rest[j - |b|] && rest[j - |b|] in rest;
        } else {
          assert r[i] == rest[i - |b|] && r[j] == rest[j - |b|];
        }
      }
    }
  }

  /** Adding one element in front adds it to the sort's output when its key is in range. */
  lemma {:induction false} SortByKeyCons<T(!new)>(x: T, s: seq<T>, key: T -> int, lo: int, hi: int)
    ensures multiset(SortByKey([x] + s, key, lo, hi))
         == (if lo <= key(x) <= hi then multiset{x} else multiset{}) + multiset(SortByKey(s, key, lo, hi))
    decreases hi - lo
  {
    if lo <= hi {
      assert ([x] + s)[1..] == s;
      SortByKeyCons(x, s, key, lo + 1, hi);
    }
  }

  /** No element is lost or duplicated: the output is a permutation of the input. */
  lemma {:induction false} SortByKeyPermutes<T(!new)>(s: seq<T>, key: T -> int, lo: int, hi: int)
    requires KeysIn(s, key, lo, hi)
    ensures multiset(SortByKey(s, key, lo, hi)) == multiset(s)
  {
    if s == [] {
      SortByKeyEmpty(key, lo, hi);
    } else {
      assert [s[0]] + s[1..] == s;
      SortByKeyCons(s[0], s[1..], key, lo, hi);
      SortByKeyPermutes(s[1..], key, lo, hi);
    }
  }

  lemma {:induction false} SortByKeyEmpty<T(!new)>(key: T -> int, lo: int, hi: int)
    ensures SortByKey([], key, lo, hi) == []
    decreases hi - lo
  {
    if lo <= hi { SortByKeyEmpty(key, lo + 1, hi); }
  }

  /** Stability: the elements of each key keep their relative order. */
  lemma {:induction false} SortByKeyStable<T(!new)>(s: seq<T>, key: T -> int, lo: int, hi: int, k: int)
    requires lo <= k <= hi
    ensures WithKey(SortByKey(s, key, lo, hi), key, k) == WithKey(s, key, k)
    decreases hi - lo
  {
    var b := WithKey(s, key, lo);
    var rest := SortByKey(s, key, lo + 1, hi);
    WithKeyAppend(b, rest, key, k);
    WithKeyTwice(s, key, lo, k);
    if k == lo {
      SortByKeySorted(s, key, lo + 1, hi);
      NoneWithKey(rest, key, k);
    } else {
      SortByKeyStable(s, key, lo + 1, hi, k);
    }
  }

  lemma {:induction false} NoneWithKey<T(!new)>(s: seq<T>, key: T -> int, k: int)
    requires forall x :: x in s ==> key(x) != k
    ensures WithKey(s, key, k) == []
  {
    if s != [] {
      assert s[0] in s;
      assert forall x :: x in s[1..] ==> x in s;
      NoneWithKey(s[1..], key, k);
    }
  }

  /** The sort's output depends only on the per-key selections. */
  lemma {:induction false} SortByKeyCongruent<T(!new)>(a: seq<T>, b: seq<T>, key: T -> int, lo: int, hi: int)
    requires forall k :: lo <= k <= hi ==> WithKey(a, key, k) == WithKey(b, key, k)
    ensures SortByKey(a, key, lo, hi) == SortByKey(b, key, lo, hi)
    decreases hi - lo
  {
    if lo <= hi { SortByKeyCongruent(a, b, key, lo + 1, hi); }
  }

  /** A sequence already sorted by key is its own sort. */
  lemma {:induction false} SortedIsFixed<T(!new)>(t: seq<T>, key: T -> int, lo: int, hi: int)
    requires SortedByKey(t, key) && KeysIn(t, key, lo, hi)
    ensures SortByKey(t, key, lo, hi) == t
    decreases hi - lo
  {
    if t == [] {
      SortByKeyEmpty(key, lo, hi);
    } else {
      assert t[0] in t;
      var m := CountLeading(t, key, lo);
      var front, back := t[..m], t[m..];
      SplitSorted(t, key, lo, hi, m);
      FrontBucket(front, back, key, lo, hi);
      SortedIsFixed(back, key, lo + 1, hi);
      assert SortByKey(t, key, lo, hi) == WithKey(t, key, lo) + SortByKey(t, key, lo + 1, hi);
    }
  }

  /** When `front` is all of key `lo` and `back` has keys above `lo`, sorting `front + back`
      puts `front` first and then sorts `back`. */
  lemma {:induction false} FrontBucket<T(!new)>(front: seq<T>, back: seq<T>, key: T -> int, lo: int, hi: int)
    requires forall x :: x in front ==> key(x) == lo
    requires KeysIn(back, key, lo + 1, hi)
    ensures WithKey(front + back, key, lo) == front
    ensures SortByKey(front + back, key, lo + 1, hi) == SortByKey(back, key, lo + 1, hi)
  {
    AllWithKey(front, key, lo);
    NoneWithKey(back, key, lo);
    WithKeyAppend(front, back, key, lo);
    FrontBucketRest(front, back, key, lo, hi);
  }

  /** The buckets above `lo` of `front + back` are those of `back`, so they sort alike. */
  lemma {:induction false} FrontBucketRest<T(!new)>(front: seq<T>, back: seq<T>, key: T -> int, lo: int, hi: int)
    requires forall x :: x in front ==> key(x) == lo
    ensures SortByKey(front + back, key, lo + 1, hi) == SortByKey(back, key, lo + 1, hi)
  {
    forall k | lo + 1 <= k <= hi ensures WithKey(front + back, key, k) == WithKey(back, key, k) {
      WithKeyAppend(front, back, key, k);
      NoneWithKey(front, key, k);
    }
    SortByKeyCongruent(front + back, back, key, lo + 1, hi);
  }

  /** Splitting a sorted sequence after its leading run of key `lo`. */
  lemma {:induction false} SplitSorted<T(!new)>(t: seq<T>, key: T -> int, lo: int, hi: int, m: nat)
    requires SortedByKey(t, key) && KeysIn(t, key, lo, hi)
    requires m <= |t| && (forall i :: 0 <= i < m ==> key(t[i]) == lo) && (m < |t| ==> key(t[m]) != lo)
    ensures t == t[..m] + t[m..]
    ensures forall x :: x in t[..m] ==> key(x) == lo
    ensures KeysIn(t[m..], key, lo + 1, hi) && SortedByKey(t[m..], key)
  {
    var back := t[m..];
    forall x | x in back ensures lo + 1 <= key(x) <= hi {
      var i :| 0 <= i < |back| && back[i] == x;
      assert t[m + i] == x && t[m + i] in t;
      assert key(t[m]) <= key(t[m + i]);
      assert t[m] in t;
    }
  }

  /** Length of the longest prefix of `t` whose elements have key `k`; past it, keys exceed `k`
      when `t` is sorted with keys at least `k`. */
  function CountLeading<T(==,!new)>(t: seq<T>, key: T -> int, k: int): (m: nat)
    ensures m <= |t|
    ensures forall i :: 0 <= i < m ==> key(t[i]) == k
    ensures m < |t| ==> key(t[m]) != k
  {
    if t == [] || key(t[0]) != k then 0 else 1 + CountLeading(t[1..], key, k)
  }

  lemma {:induction false} AllWithKey<T(!new)>(s: seq<T>, key: T -> int, k: int)
    requires forall x :: x in s ==> key(x) == k
    ensures WithKey(s, key, k) == s
  {
    if s != [] {
      assert s[0] in s;
      assert forall x :: x in s[1..] ==> x in s;
      AllWithKey(s[1..], key, k);
    }
  }

  /** Uniqueness: any ordering of `s` that is sorted by key and keeps each key's elements in
      their original order is exactly `SortByKey(s, ...)`; so `SortByKey` is the stable sort. */
  lemma {:induction false} SortByKeyUnique<T(!new)>(s: seq<T>, t: seq<T>, key: T -> int, lo: int, hi: int)
    requires KeysIn(t, key, lo, hi) && SortedByKey(t, key)
    requires forall k :: lo <= k <= hi ==> WithKey(t, key, k) == WithKey(s, key, k)
    ensures t == SortByKey(s, key, lo, hi)
  {
    SortedIsFixed(t, key, lo, hi);
    SortByKeyCongruent(t, s, key, lo, hi);
  }
}
