/** Random selection of dishes: a Fisher-Yates shuffle of a copy of the pool and cycling
    through it. The random source is given as the sequence of indices it draws. */
module Selection {
  import opened Sequences

  /** Draws for shuffling `n` items: the loop at index `i` (from `n - 1` down to 1) uses
      `draws[i - 1]`, which must lie in `0..i`, as `Math.floor(Math.random() * (i + 1))` does. */
  predicate ValidDraws(n: nat, draws: seq<nat>) {
    |draws| + 1 >= n && forall k :: 0 <= k < |draws| ==> draws[k] <= k + 1
  }

  /** `s` with the entries at `i` and `j` exchanged. */
  function Swap<T>(s: seq<T>, i: nat, j: nat): (r: seq<T>)
    requires i < |s| && j < |s|
    ensures |r| == |s| && r[i] == s[j] && r[j] == s[i]
    ensures forall k :: 0 <= k < |s| && k != i && k != j ==> r[k] == s[k]
  {
    s[i := s[j]][j := s[i]]
  }

  /** The shuffle loop run from index `i` down to 1 on `s`. */
  function ShuffleFrom<T>(s: seq<T>, draws: seq<nat>, i: nat): (r: seq<T>)
    requires i < |s| && ValidDraws(i + 1, draws)
    ensures |r| == |s|
    decreases i
  {
    if i == 0 then s else ShuffleFrom(Swap(s, i, draws[i - 1]), draws, i - 1)
  }

  /** The shuffled copy of `s` for the given draws. */
  function Shuffled<T>(s: seq<T>, draws: seq<nat>): (r: seq<T>)
    requires ValidDraws(|s|, draws)
    ensures |r| == |s|
  {
    if s == [] then [] else ShuffleFrom(s, draws, |s| - 1)
  }

  /** Fisher-Yates on a fresh copy of `arr`; `arr` itself is left alone. */
  method Shuffle<T>(arr: array<T>, draws: seq<nat>) returns (a: array<T>)
    requires ValidDraws(arr.Length, draws)
    ensures fresh(a)
    ensures a[..] == Shuffled(arr[..], draws)
  {
    a := new T[arr.Length](k requires 0 <= k < arr.Length reads arr => arr[k]);
    assert a[..] == arr[..];
    if a.Length == 0 {
      return;
    }
    var i := a.Length - 1;
    while i > 0
      invariant 0 <= i < a.Length
      invariant ShuffleFrom(a[..], draws, i) == Shuffled(arr[..], draws)
      decreases i
    {
      SwapAt(a, i, draws[i - 1]);
      i := i - 1;
    }
  }

  /** `[a[i], a[j]] = [a[j], a[i]]`. */
  method SwapAt<T>(a: array<T>, i: nat, j: nat)
    requires i < a.Length && j < a.Length
    modifies a
    ensures a[..] == Swap(old(a[..]), i, j)
  {
    a[i], a[j] := a[j], a[i];
  }

  /** Swapping keeps the elements and their multiplicities. */
  lemma {:induction false} ShuffleFromPermutes<T>(s: seq<T>, draws: seq<nat>, i: nat)
    requires i < |s| && ValidDraws(i + 1, draws)
    ensures multiset(ShuffleFrom(s, draws, i)) == multiset(s)
    decreases i
  {
    if i > 0 {
      var j := draws[i - 1];
      var t := Swap(s, i, j);
      SwapPermutes(s, i, j);
      ShuffleFromPermutes(t, draws, i - 1);
    }
  }

  lemma {:induction false} SwapPermutes<T>(s: seq<T>, i: nat, j: nat)
    requires i < |s| && j < |s|
    ensures multiset(Swap(s, i, j)) == multiset(s)
  {
    var t := s[i := s[j]];
    assert multiset(t) == multiset(s) - multiset{s[i]} + multiset{s[j]};
    assert multiset(t[j := s[i]]) == multiset(t) - multiset{t[j]} + multiset{s[i]};
  }

  /** The shuffle is a permutation of its input. */
  lemma {:induction false} ShuffledPermutes<T>(s: seq<T>, draws: seq<nat>)
    requires ValidDraws(|s|, draws)
    ensures multiset(Shuffled(s, draws)) == multiset(s)
  {
    if s != [] {
      ShuffleFromPermutes(s, draws, |s| - 1);
    }
  }

  /** Shuffling a duplicate-free sequence gives a duplicate-free sequence. */
  lemma {:induction false} ShuffleFromDistinct<T(!new)>(s: seq<T>, draws: seq<nat>, i: nat)
    requires i < |s| && ValidDraws(i + 1, draws) && Distinct(s)
    ensures Distinct(ShuffleFrom(s, draws, i))
    decreases i
  {
    if i > 0 {
      var t := Swap(s, i, draws[i - 1]);
      assert Distinct(t) by {
        forall p, q | 0 <= p < q < |t| ensures t[p] != t[q] {
          var p' := if p == i then draws[i - 1] else if p == draws[i - 1] then i else p;
          var q' := if q == i then draws[i - 1] else if q == draws[i - 1] then i else q;
          assert t[p] == s[p'] && t[q] == s[q'] && p' != q';
        }
      }
      ShuffleFromDistinct(t, draws, i - 1);
    }
  }

  /** `n` dishes from `pool`: "" for each when the pool is empty, otherwise the shuffled pool
      repeated as often as needed. */
  function PickN(pool: seq<string>, n: nat, draws: seq<nat>): (r: seq<string>)
    requires ValidDraws(|pool|, draws)
    ensures |r| == n
    ensures pool == [] ==> forall i :: 0 <= i < n ==> r[i] == ""
    ensures pool != [] ==> forall i :: 0 <= i < n ==> r[i] in pool
  {
    if pool == [] then seq(n, _ => "")
    else
      var shuffled := Shuffled(pool, draws);
      ShuffledPermutes(pool, draws);
      assert forall k :: 0 <= k < |shuffled| ==> shuffled[k] in multiset(pool);
      seq(n, i requires 0 <= i < n => shuffled[i % |shuffled|])
  }

  /** Picks cycle through one shuffled copy of the pool. */
  lemma {:induction false} PickNCycles(pool: seq<string>, n: nat, draws: seq<nat>, i: nat)
    requires ValidDraws(|pool|, draws) && pool != [] && i < n
    ensures PickN(pool, n, draws)[i] == Shuffled(pool, draws)[i % |pool|]
  {
  }

  /** From a duplicate-free pool, the first `min(n, |pool|)` picks are pairwise distinct. */
  lemma {:induction false} PickNDistinct(pool: seq<string>, n: nat, draws: seq<nat>)
    requires ValidDraws(|pool|, draws) && Distinct(pool)
    ensures forall i, j :: 0 <= i < j < n && j < |pool| ==> PickN(pool, n, draws)[i] != PickN(pool, n, draws)[j]
  {
    if pool != [] {
      var r := PickN(pool, n, draws);
      var shuffled := Shuffled(pool, draws);
      ShuffleFromDistinct(pool, draws, |pool| - 1);
      forall i, j | 0 <= i < j < n && j < |pool| ensures r[i] != r[j] {
        PickNCycles(pool, n, draws, i);
        PickNCycles(pool, n, draws, j);
        ModBelow(i, |pool|);
        ModBelow(j, |pool|);
      }
    }
  }

  /** When at least `|pool|` dishes are picked, every dish of the pool is among them. */
  lemma {:induction false} PickNCovers(pool: seq<string>, n: nat, draws: seq<nat>, x: string)
    requires ValidDraws(|pool|, draws) && n >= |pool| && x in pool
    ensures x in PickN(pool, n, draws)
  {
    var shuffled := Shuffled(pool, draws);
    ShuffledPermutes(pool, draws);
    assert x in multiset(shuffled);
    var k :| 0 <= k < |shuffled| && shuffled[k] == x;
    PickNCycles(pool, n, draws, k);
    ModBelow(k, |pool|);
    assert PickN(pool, n, draws)[k] == x;
  }

  lemma {:induction false} ModBelow(k: nat, m: nat)
    requires k < m
    ensures k % m == k
  {
  }
}
