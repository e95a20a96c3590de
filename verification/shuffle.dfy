/**
 * The client's Fisher–Yates shuffle: copy the input, then for i from the last
 * index down to 1 swap position i with a position drawn from 0 .. i.
 */
module Shuffle {
  import opened Randomness

  /** The destructuring swap `[a[i], a[j]] = [a[j], a[i]]`, on a sequence. */
  function Swap<T>(s: seq<T>, i: nat, j: nat): (r: seq<T>)
    requires i < |s| && j < |s|
    ensures |r| == |s|
  {
    s[i := s[j]][j := s[i]]
  }

  /** A swap moves elements without adding or dropping any. */
  lemma SwapPermutes<T>(s: seq<T>, i: nat, j: nat)
    requires i < |s| && j < |s|
    ensures multiset(Swap(s, i, j)) == multiset(s)
  {
  }

  /** The passes at indices i, i-1, .., 1 applied to s, pass k drawing from order(k). */
  function ShuffleDown<T>(s: seq<T>, order: nat -> Roll, i: nat): (r: seq<T>)
    requires i < |s|
    ensures |r| == |s|
    decreases i
  {
    if i == 0 then s
    else ShuffleDown(Swap(s, i, RandomIndex(order(i), i + 1)), order, i - 1)
  }

  /** One pass, unfolded: the pass at i, then the passes below it. */
  lemma ShuffleDownStep<T>(s: seq<T>, order: nat -> Roll, i: nat)
    requires 0 < i < |s|
    ensures ShuffleDown(s, order, i) == ShuffleDown(Swap(s, i, RandomIndex(order(i), i + 1)), order, i - 1)
  {
  }

  /** The sequence the shuffle returns for input s and random values order. */
  function Shuffled<T>(s: seq<T>, order: nat -> Roll): (r: seq<T>)
    ensures |r| == |s|
  {
    if |s| == 0 then s else ShuffleDown(s, order, |s| - 1)
  }

  lemma {:induction false} ShuffleDownPermutes<T>(s: seq<T>, order: nat -> Roll, i: nat)
    requires i < |s|
    ensures multiset(ShuffleDown(s, order, i)) == multiset(s)
    decreases i
  {
    if i > 0 {
      var j := RandomIndex(order(i), i + 1);
      var t := Swap(s, i, j);
      assert ShuffleDown(s, order, i) == ShuffleDown(t, order, i - 1);
      ShuffleDownPermutes(t, order, i - 1);
      SwapPermutes(s, i, j);
    }
  }

  /** Whatever the random values, the shuffle returns a permutation of its input. */
  lemma {:induction false} ShuffledPermutes<T>(s: seq<T>, order: nat -> Roll)
    ensures multiset(Shuffled(s, order)) == multiset(s)
  {
    if |s| > 0 {
      ShuffleDownPermutes(s, order, |s| - 1);
    }
  }

  /**
   * `shuffleArray`: copies the input into a fresh array (so the caller's sequence
   * is never touched) and runs the swapping loop on the copy; `cur` mirrors the
   * array's contents for the proof.
   */
  method ShuffleArray<T>(input: seq<T>, order: nat -> Roll) returns (r: seq<T>)
    ensures r == Shuffled(input, order)
    ensures |r| == |input| && multiset(r) == multiset(input)
  {
    var a := new T[|input|](k requires 0 <= k < |input| => input[k]);
    ghost var cur := input;
    assert a[..] == cur;
    var i := a.Length - 1;
    while i > 0
      invariant a.Length == |input| && |cur| == |input| && a[..] == cur
      invariant -1 <= i < a.Length
      invariant a.Length > 0 ==> i >= 0 && Shuffled(input, order) == ShuffleDown(cur, order, i)
    {
      var j := RandomIndex(order(i), i + 1);
      ShuffleDownStep(cur, order, i);
      a[i], a[j] := a[j], a[i];
      cur := Swap(cur, i, j);
      assert a[..] == cur;
      i := i - 1;
    }
    r := a[..];
    ShuffledPermutes(input, order);
  }
}
