/** The shuffle of `rand::seq::SliceRandom`: walk from the back and swap each element with one
    at or before it. The random numbers are a parameter. */
module Shuffle {

  /** The position drawn for step `i`. */
  function Draw(random: seq<nat>, i: nat): (j: nat)
    ensures j <= i
  {
    if i < |random| then random[i] % (i + 1) else 0
  }

  function Swap<T>(s: seq<T>, i: nat, j: nat): (r: seq<T>)
    requires i < |s| && j < |s|
    ensures |r| == |s|
  {
    s[i := s[j]][j := s[i]]
  }

  /** The steps for positions `n - 1` down to `1`. */
  function ShuffleDown<T>(s: seq<T>, random: seq<nat>, n: nat): (r: seq<T>)
    requires n <= |s|
    ensures |r| == |s|
    decreases n
  {
    if n <= 1 then s else ShuffleDown(Swap(s, n - 1, Draw(random, n - 1)), random, n - 1)
  }

  function Shuffled<T>(s: seq<T>, random: seq<nat>): (r: seq<T>)
    ensures |r| == |s|
  {
    ShuffleDown(s, random, |s|)
  }

  lemma {:induction false} ShuffleDownPermutes<T>(s: seq<T>, random: seq<nat>, n: nat)
    requires n <= |s|
    ensures multiset(ShuffleDown(s, random, n)) == multiset(s)
    decreases n
  {
    if n > 1 {
      var j := Draw(random, n - 1);
      assert multiset(Swap(s, n - 1, j)) == multiset(s);
      ShuffleDownPermutes(Swap(s, n - 1, j), random, n - 1);
    }
  }

  /** Whatever the random numbers, a shuffle only rearranges. */
  lemma ShuffledPermutes<T>(s: seq<T>, random: seq<nat>)
    ensures multiset(Shuffled(s, random)) == multiset(s)
  {
    ShuffleDownPermutes(s, random, |s|);
  }

  method ShuffleInPlace<T>(a: array<T>, random: seq<nat>)
    modifies a
    ensures a[..] == Shuffled(old(a[..]), random)
  {
    var n := a.Length;
    while n > 1
      invariant 0 <= n <= a.Length
      invariant ShuffleDown(a[..], random, n) == Shuffled(old(a[..]), random)
    {
      var j := Draw(random, n - 1);
      ghost var before := a[..];
      a[n - 1], a[j] := a[j], a[n - 1];
      assert a[..] == Swap(before, n - 1, j);
      n := n - 1;
    }
  }
}
