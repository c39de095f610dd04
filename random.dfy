/** The part of Python's `random.Random` the pipeline uses: `randbelow`
    and the in-place Fisher-Yates `shuffle`. The generator's output is a
    fixed stream of numbers fixed by the seed; the model takes the stream
    as given and consumes it one draw at a time. */
module PyRandom {

  /** `s` with positions `i` and `j` exchanged. */
  function Swap<T>(s: seq<T>, i: nat, j: nat): (r: seq<T>)
    requires i < |s| && j < |s|
    ensures |r| == |s| && r[i] == s[j] && r[j] == s[i]
    ensures forall k :: 0 <= k < |s| && k != i && k != j ==> r[k] == s[k]
    ensures multiset(r) == multiset(s)
  {
    s[i := s[j]][j := s[i]]
  }

  /** The shuffle's remaining steps: positions `i-1` down to 1, where the
      step at position `k` swaps it with the draw below `k + 1`. */
  function ShuffleDown<T>(s: seq<T>, i: nat, stream: nat -> nat, pos: nat): seq<T>
    requires i <= |s|
    decreases i
  {
    if i <= 1 then s
    else ShuffleDown(Swap(s, i - 1, stream(pos) % i), i - 1, stream, pos + 1)
  }

  /** `random.shuffle(s)` when the generator is at draw `pos`. */
  function Shuffled<T>(s: seq<T>, stream: nat -> nat, pos: nat): seq<T> {
    ShuffleDown(s, |s|, stream, pos)
  }

  lemma ShuffleDownStep<T>(s: seq<T>, i: nat, stream: nat -> nat, pos: nat)
    requires 1 < i <= |s|
    ensures ShuffleDown(s, i, stream, pos) == ShuffleDown(Swap(s, i - 1, stream(pos) % i), i - 1, stream, pos + 1)
  {
  }

  /** The draws a shuffle of `n` items consumes: one per position 1..n-1. */
  function Draws(n: nat): nat {
    if n <= 1 then 0 else n - 1
  }

  lemma {:induction false} ShuffleDownPermutes<T>(s: seq<T>, i: nat, stream: nat -> nat, pos: nat)
    requires i <= |s|
    ensures |ShuffleDown(s, i, stream, pos)| == |s|
    ensures multiset(ShuffleDown(s, i, stream, pos)) == multiset(s)
    ensures forall k :: i <= k < |s| ==> ShuffleDown(s, i, stream, pos)[k] == s[k]
    decreases i
  {
    if i > 1 {
      ShuffleDownPermutes(Swap(s, i - 1, stream(pos) % i), i - 1, stream, pos + 1);
    }
  }

  /** A shuffle is a permutation, whatever the stream. */
  lemma ShuffledIsPermutation<T>(s: seq<T>, stream: nat -> nat, pos: nat)
    ensures |Shuffled(s, stream, pos)| == |s|
    ensures multiset(Shuffled(s, stream, pos)) == multiset(s)
  {
    ShuffleDownPermutes(s, |s|, stream, pos);
  }

  /** A `random.Random` instance. */
  class Random {
    /** The numbers the generator produces, in order. */
    const stream: nat -> nat
    /** How many of them have been consumed. */
    var used: nat

    /** `Random(seed)`: the stream is the one the seed determines. */
    constructor (stream: nat -> nat)
      ensures this.stream == stream && used == 0
    {
      this.stream := stream;
      used := 0;
    }

    /** `randbelow(k)`: the next draw, reduced below `k`. */
    method RandBelow(k: nat) returns (j: nat)
      requires k > 0
      modifies this
      ensures j == stream(old(used)) % k && j < k
      ensures used == old(used) + 1
    {
      j := stream(used) % k;
      used := used + 1;
    }

    /** `shuffle(a)`: for i from n-1 down to 1, swap a[i] with a[randbelow(i+1)]. */
    method Shuffle<T>(a: array<T>)
      modifies this, a
      ensures a[..] == Shuffled(old(a[..]), stream, old(used))
      ensures multiset(a[..]) == multiset(old(a[..]))
      ensures used == old(used) + Draws(a.Length)
    {
      ghost var start := a[..];
      var i: nat := a.Length;
      while i > 1
        invariant i <= a.Length
        invariant ShuffleDown(a[..], i, stream, used) == Shuffled(start, stream, old(used))
        invariant used + Draws(i) == old(used) + Draws(a.Length)
      {
        ghost var before := a[..];
        ghost var pos := used;
        var j := RandBelow(i);
        ShuffleDownStep(before, i, stream, pos);
        SwapElements(a, i - 1, j);
        i := i - 1;
      }
      ShuffledIsPermutation(start, stream, old(used));
    }

    /** `x[i], x[j] = x[j], x[i]` on the array. */
    static method SwapElements<T>(a: array<T>, i: nat, j: nat)
      requires i < a.Length && j < a.Length
      modifies a
      ensures a[..] == Swap(old(a[..]), i, j)
    {
      var t := a[i];
      a[i] := a[j];
      a[j] := t;
    }
  }
}
