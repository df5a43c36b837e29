/** numpy's `np.random.shuffle` on a one-dimensional array: one Fisher–Yates
    pass from the last position down to position 1, where step `i` exchanges
    position `i` with a position `j <= i` drawn by the generator. The draws are
    inputs here: `swaps[i]` is the partner of step `i` (`swaps[0]` is unused). */
module Shuffling {

  /** `v` repeated `n` times, as `np.ones`, `np.zeros` and `np.repeat` build it. */
  function Repeat(v: int, n: nat): (s: seq<int>)
    ensures |s| == n
    ensures forall i :: 0 <= i < n ==> s[i] == v
    ensures multiset(s)[v] == n
    ensures forall w :: w != v ==> multiset(s)[w] == 0
  {
    if n == 0 then [] else [v] + Repeat(v, n - 1)
  }

  /** The swap partners a generator can produce for an array of length `n`. */
  predicate ValidSwaps(swaps: seq<nat>, n: nat) {
    |swaps| == n && forall i :: 0 <= i < n ==> swaps[i] <= i
  }

  /** `s` with positions `i` and `j` exchanged. */
  function Swap(s: seq<int>, i: nat, j: nat): (t: seq<int>)
    requires i < |s| && j < |s|
    ensures |t| == |s| && t[i] == s[j] && t[j] == s[i]
    ensures forall k :: 0 <= k < |s| && k != i && k != j ==> t[k] == s[k]
  {
    s[i := s[j]][j := s[i]]
  }

  lemma SwapPermutes(s: seq<int>, i: nat, j: nat)
    requires i < |s| && j < |s|
    ensures multiset(Swap(s, i, j)) == multiset(s)
  {
    var t := s[i := s[j]];
    assert multiset(t) == multiset(s) - multiset{s[i]} + multiset{s[j]};
    assert t[j] == s[j];
  }

  /** Steps `i`, `i - 1`, ..., `1` of the pass applied to `s`. */
  function ShuffleSteps(s: seq<int>, swaps: seq<nat>, i: nat): (t: seq<int>)
    requires i < |s| && ValidSwaps(swaps, |s|)
    ensures |t| == |s|
    decreases i
  {
    if i == 0 then s else ShuffleSteps(Swap(s, i, swaps[i]), swaps, i - 1)
  }

  /** The whole pass: what `np.random.shuffle` leaves in an array holding `s`. */
  function Shuffled(s: seq<int>, swaps: seq<nat>): (t: seq<int>)
    requires ValidSwaps(swaps, |s|)
    ensures |t| == |s|
  {
    if |s| == 0 then s else ShuffleSteps(s, swaps, |s| - 1)
  }

  /** Every step only exchanges two entries, so the pass permutes `s`. */
  lemma {:induction false} ShuffleStepsPermutes(s: seq<int>, swaps: seq<nat>, i: nat)
    requires i < |s| && ValidSwaps(swaps, |s|)
    ensures multiset(ShuffleSteps(s, swaps, i)) == multiset(s)
    decreases i
  {
    if i > 0 {
      SwapPermutes(s, i, swaps[i]);
      ShuffleStepsPermutes(Swap(s, i, swaps[i]), swaps, i - 1);
    }
  }

  lemma ShuffledPermutes(s: seq<int>, swaps: seq<nat>)
    requires ValidSwaps(swaps, |s|)
    ensures multiset(Shuffled(s, swaps)) == multiset(s)
  {
    if |s| > 0 {
      ShuffleStepsPermutes(s, swaps, |s| - 1);
    }
  }

  /** The in-place pass itself. */
  method Shuffle(a: array<int>, swaps: seq<nat>)
    requires ValidSwaps(swaps, a.Length)
    modifies a
    ensures a[..] == Shuffled(old(a[..]), swaps)
  {
    if a.Length == 0 {
      return;
    }
    var i := a.Length - 1;
    while i > 0
      invariant 0 <= i < a.Length
      invariant ShuffleSteps(a[..], swaps, i) == Shuffled(old(a[..]), swaps)
    {
      ghost var before := a[..];
      var j := swaps[i];
      var held := a[i];
      a[i] := a[j];
      a[j] := held;
      assert a[..] == Swap(before, i, j);
      assert ShuffleSteps(before, swaps, i) == ShuffleSteps(a[..], swaps, i - 1);
      i := i - 1;
    }
  }

  /** A fresh array holding `s`, shuffled in place; its final contents. */
  method ShuffleArrayOf(s: seq<int>, swaps: seq<nat>) returns (t: seq<int>)
    requires ValidSwaps(swaps, |s|)
    ensures t == Shuffled(s, swaps)
    ensures multiset(t) == multiset(s)
  {
    var a := new int[|s|](i requires 0 <= i < |s| => s[i]);
    assert a[..] == s;
    Shuffle(a, swaps);
    t := a[..];
    ShuffledPermutes(s, swaps);
  }

  /** A shuffled 0/1 vector keeps its number of ones and of zeros, and holds
      nothing else. */
  lemma {:induction false} ShuffledCounts(ones: nat, zeros: nat, lead: seq<int>, swaps: seq<nat>)
    requires lead == Repeat(1, ones) + Repeat(0, zeros) || lead == Repeat(0, zeros) + Repeat(1, ones)
    requires ValidSwaps(swaps, |lead|)
    ensures |Shuffled(lead, swaps)| == ones + zeros
    ensures multiset(Shuffled(lead, swaps))[1] == ones
    ensures multiset(Shuffled(lead, swaps))[0] == zeros
    ensures forall i :: 0 <= i < ones + zeros ==> Shuffled(lead, swaps)[i] in {0, 1}
  {
    var t := Shuffled(lead, swaps);
    ShuffledPermutes(lead, swaps);
    assert multiset(lead) == multiset(Repeat(1, ones)) + multiset(Repeat(0, zeros));
    forall i | 0 <= i < ones + zeros
      ensures t[i] in {0, 1}
    {
      assert t[i] in multiset(t);
      assert multiset(lead)[t[i]] > 0;
    }
  }

}
