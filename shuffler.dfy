/** The in-place Fisher–Yates shuffle of script.js (`shuffle`).
    `Math.random()` is replaced by caller-supplied draws: `draws[i]` is the
    value in [0, 1) drawn when the pass is at index `i` (the pass stops at
    index 1, so `draws[0]` is never read). */
module Shuffler {

  /** Every draw is a value `Math.random()` can return. */
  predicate ValidDraws(draws: seq<real>) {
    forall k :: 0 <= k < |draws| ==> 0.0 <= draws[k] < 1.0
  }

  /** Every swap partner lies at or below the index it is swapped with. */
  predicate ValidSwaps(js: seq<int>) {
    forall k :: 0 <= k < |js| ==> 0 <= js[k] <= k
  }

  /** `Math.floor(r * (i + 1))`: the index swapped with `i`. */
  function Pick(r: real, i: nat): (j: int)
    requires 0.0 <= r < 1.0
    ensures 0 <= j <= i
  {
    ScaledBelow(r, i);
    (r * (i + 1) as real).Floor
  }

  lemma ScaledBelow(r: real, i: nat)
    requires 0.0 <= r < 1.0
    ensures 0.0 <= r * (i + 1) as real < (i + 1) as real
  {
  }

  /** The swap partners the draws select, position by position. */
  function SwapIndices(draws: seq<real>): (js: seq<int>)
    requires ValidDraws(draws)
    ensures |js| == |draws| && ValidSwaps(js)
  {
    seq(|draws|, k requires 0 <= k < |draws| => Pick(draws[k], k))
  }

  /** The destructuring swap `[arr[i], arr[j]] = [arr[j], arr[i]]`. */
  function Swap<T>(s: seq<T>, i: nat, j: nat): (t: seq<T>)
    requires i < |s| && j < |s|
    ensures |t| == |s| && t[i] == s[j] && t[j] == s[i]
    ensures forall k :: 0 <= k < |s| && k != i && k != j ==> t[k] == s[k]
  {
    s[i := s[j]][j := s[i]]
  }

  /** The remaining pass: steps `i`, `i - 1`, ..., 1 applied to `s`. */
  function ShuffleDown<T>(s: seq<T>, js: seq<int>, i: nat): (t: seq<T>)
    requires i < |s| && |js| == |s| && ValidSwaps(js)
    ensures |t| == |s|
    decreases i
  {
    if i == 0 then s
    else ShuffleDown(Swap(s, i, js[i]), js, i - 1)
  }

  /** The whole pass, from the last index down to 1, swapping each index
      `i` with `js[i]`. */
  function ShuffledWith<T>(s: seq<T>, js: seq<int>): (t: seq<T>)
    requires |js| == |s| && ValidSwaps(js)
    ensures |t| == |s|
    ensures |s| <= 1 ==> t == s
  {
    if |s| == 0 then s else ShuffleDown(s, js, |s| - 1)
  }

  lemma {:induction false} ShuffleDownPermutes<T>(s: seq<T>, js: seq<int>, i: nat)
    requires i < |s| && |js| == |s| && ValidSwaps(js)
    ensures multiset(ShuffleDown(s, js, i)) == multiset(s)
    decreases i
  {
    if i > 0 {
      var t := Swap(s, i, js[i]);
      assert multiset(t) == multiset(s);
      ShuffleDownPermutes(t, js, i - 1);
    }
  }

  /** The shuffle only reorders: the result holds exactly the elements of
      the input, each as often as before. */
  lemma {:induction false} ShufflePermutes<T>(s: seq<T>, js: seq<int>)
    requires |js| == |s| && ValidSwaps(js)
    ensures multiset(ShuffledWith(s, js)) == multiset(s)
  {
    if |s| > 0 {
      ShuffleDownPermutes(s, js, |s| - 1);
    }
  }

  /** Applies `f` to every element, as `Array.prototype.map` does. */
  function MapSeq<T, U>(f: T -> U, s: seq<T>): (t: seq<U>)
    ensures |t| == |s| && forall k :: 0 <= k < |s| ==> t[k] == f(s[k])
  {
    seq(|s|, k requires 0 <= k < |s| => f(s[k]))
  }

  lemma {:induction false} ShuffleDownMap<T, U>(f: T -> U, s: seq<T>, js: seq<int>, i: nat)
    requires i < |s| && |js| == |s| && ValidSwaps(js)
    ensures MapSeq(f, ShuffleDown(s, js, i)) == ShuffleDown(MapSeq(f, s), js, i)
    decreases i
  {
    if i > 0 {
      assert MapSeq(f, Swap(s, i, js[i])) == Swap(MapSeq(f, s), i, js[i]);
      ShuffleDownMap(f, Swap(s, i, js[i]), js, i - 1);
    }
  }

  /** The order a shuffle produces depends only on positions and swap
      partners, not on the elements: shuffling then mapping equals mapping
      then shuffling. */
  lemma {:induction false} ShuffleMap<T, U>(f: T -> U, s: seq<T>, js: seq<int>)
    requires |js| == |s| && ValidSwaps(js)
    ensures MapSeq(f, ShuffledWith(s, js)) == ShuffledWith(MapSeq(f, s), js)
  {
    var m := MapSeq(f, s);
    if |s| == 0 {
      assert m == [];
    } else {
      ShuffleDownMap(f, s, js, |s| - 1);
    }
  }

  /** `shuffle(arr)`: swaps in place, from the last index down to 1. */
  method Shuffle<T>(a: array<T>, draws: seq<real>)
    requires |draws| == a.Length && ValidDraws(draws)
    modifies a
    ensures a[..] == ShuffledWith(old(a[..]), SwapIndices(draws))
    ensures multiset(a[..]) == multiset(old(a[..]))
  {
    ghost var js := SwapIndices(draws);
    var i := a.Length - 1;
    while i > 0
      invariant if a.Length == 0 then i == -1 else 0 <= i < a.Length
      invariant a.Length > 0 ==> ShuffleDown(a[..], js, i) == ShuffledWith(old(a[..]), js)
    {
      var j := Pick(draws[i], i);
      assert j == js[i];
      ghost var before := a[..];
      a[i], a[j] := a[j], a[i];
      assert a[..] == Swap(before, i, j);
      i := i - 1;
    }
    ShufflePermutes(old(a[..]), js);
  }
}
