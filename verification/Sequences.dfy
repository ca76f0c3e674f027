/** Sums and multiset facts about integer sequences, shared by the coin and payjoin models. */
module Sequences {

  datatype Option<+T> = None | Some(value: T)

  /** `front` put before an optional tail; a missing tail stays missing. */
  function Prepend<T>(front: seq<T>, tail: Option<seq<T>>): Option<seq<T>> {
    if tail.None? then None else Some(front + tail.value)
  }

  lemma PrependNothing<T>(tail: Option<seq<T>>)
    ensures Prepend([], tail) == tail
  {
    if tail.Some? {
      assert [] + tail.value == tail.value;
    }
  }

  lemma PrependTwice<T>(a: seq<T>, b: seq<T>, tail: Option<seq<T>>)
    ensures Prepend(a, Prepend(b, tail)) == Prepend(a + b, tail)
  {
    if tail.Some? {
      assert a + (b + tail.value) == a + b + tail.value;
    }
  }

  function Sum(s: seq<int>): int {
    if s == [] then 0 else s[0] + Sum(s[1..])
  }

  ghost predicate NonNegative(s: seq<int>) {
    forall i :: 0 <= i < |s| ==> 0 <= s[i]
  }

  /** `s` without the element at `i`. */
  function RemoveAt<T>(s: seq<T>, i: nat): (r: seq<T>)
    requires i < |s|
    ensures |r| == |s| - 1
  {
    s[..i] + s[i + 1..]
  }

  lemma {:induction false} SumAppend(a: seq<int>, b: seq<int>)
    ensures Sum(a + b) == Sum(a) + Sum(b)
  {
    if a == [] {
      assert a + b == b;
    } else {
      assert (a + b)[1..] == a[1..] + b;
      SumAppend(a[1..], b);
    }
  }

  lemma SumLast(s: seq<int>)
    requires s != []
    ensures Sum(s) == Sum(s[..|s| - 1]) + s[|s| - 1]
  {
    SumAppend(s[..|s| - 1], [s[|s| - 1]]);
    assert s == s[..|s| - 1] + [s[|s| - 1]];
  }

  // ---- multisets of sequences ---------------------------------------------------------------

  lemma HeadSplit<T>(s: seq<T>)
    requires s != []
    ensures multiset(s) == multiset(s[1..]) + multiset{s[0]}
  {
    assert s == [s[0]] + s[1..];
  }

  lemma ConsMultiset<T>(x: T, s: seq<T>)
    ensures multiset([x] + s) == multiset(s) + multiset{x}
  {
  }

  lemma LastSplit<T>(s: seq<T>)
    requires s != []
    ensures multiset(s) == multiset(s[..|s| - 1]) + multiset{s[|s| - 1]}
  {
    assert s == s[..|s| - 1] + [s[|s| - 1]];
  }

  lemma SplitAt<T>(s: seq<T>, i: nat)
    requires i < |s|
    ensures multiset(s) == multiset(RemoveAt(s, i)) + multiset{s[i]}
  {
    assert s == s[..i] + ([s[i]] + s[i + 1..]);
  }

  lemma OneMore<T>(a: multiset<T>, b: multiset<T>, x: T)
    requires a <= b
    ensures a <= b + multiset{x} && a + multiset{x} <= b + multiset{x}
  {
  }

  lemma CancelOne<T>(a: multiset<T>, b: multiset<T>, x: T)
    requires a + multiset{x} <= b + multiset{x}
    ensures a <= b
  {
    forall y ensures a[y] <= b[y] {
      assert (a + multiset{x})[y] <= (b + multiset{x})[y];
    }
  }

  lemma MissingOne<T>(a: multiset<T>, b: multiset<T>, x: T)
    requires a <= b + multiset{x} && a[x] < (b + multiset{x})[x]
    ensures a <= b
  {
    forall y ensures a[y] <= b[y] {
      assert a[y] <= (b + multiset{x})[y];
    }
  }

  lemma AvoidOne<T>(a: multiset<T>, b: multiset<T>, x: T)
    requires a <= b + multiset{x} && x !in a
    ensures a <= b
  {
    forall y ensures a[y] <= b[y] {
      assert a[y] <= (b + multiset{x})[y];
    }
  }

  lemma {:induction false} SumRemove(s: seq<int>, i: nat)
    requires i < |s|
    ensures Sum(s) == Sum(RemoveAt(s, i)) + s[i]
  {
    if i == 0 {
      assert RemoveAt(s, i) == s[1..];
    } else {
      SumRemove(s[1..], i - 1);
      assert RemoveAt(s, i)[1..] == RemoveAt(s[1..], i - 1);
    }
  }

  /** The position of an element that the multiset says is there. */
  lemma IndexOf<T>(s: seq<T>, x: T) returns (i: nat)
    requires x in multiset(s)
    ensures i < |s| && s[i] == x
  {
    assert x in s;
    i :| 0 <= i < |s| && s[i] == x;
  }

  lemma NonNegativeSub(a: seq<int>, b: seq<int>)
    requires NonNegative(b) && multiset(a) <= multiset(b)
    ensures NonNegative(a)
  {
    forall i | 0 <= i < |a| ensures 0 <= a[i] {
      assert a[i] in multiset(a);
      assert a[i] in multiset(b);
      var _ := IndexOf(b, a[i]);
    }
  }

  lemma NonNegativeRemove(s: seq<int>, i: nat)
    requires NonNegative(s) && i < |s|
    ensures NonNegative(RemoveAt(s, i))
  {
    var r := RemoveAt(s, i);
    forall j | 0 <= j < |r| ensures 0 <= r[j] {
      assert r[j] == s[if j < i then j else j + 1];
    }
  }

  /** A sub-multiset of non-negative numbers has the smaller sum and the smaller size. */
  lemma {:induction false} SumSub(a: seq<int>, b: seq<int>)
    requires NonNegative(b) && multiset(a) <= multiset(b)
    ensures Sum(a) <= Sum(b) && |a| <= |b|
    decreases |b|
  {
    if a == [] {
      SumNonNegative(b);
    } else {
      assert a[0] in multiset(a);
      var j := IndexOf(b, a[0]);
      SplitAt(b, j);
      SumRemove(b, j);
      HeadSplit(a);
      CancelOne(multiset(a[1..]), multiset(RemoveAt(b, j)), a[0]);
      NonNegativeRemove(b, j);
      SumSub(a[1..], RemoveAt(b, j));
    }
  }

  lemma {:induction false} SumNonNegative(s: seq<int>)
    requires NonNegative(s)
    ensures 0 <= Sum(s)
  {
    if s != [] {
      SumNonNegative(s[1..]);
    }
  }

  /** Permutations have equal sums. */
  lemma {:induction false} SumPermutation(a: seq<int>, b: seq<int>)
    requires multiset(a) == multiset(b)
    ensures Sum(a) == Sum(b) && |a| == |b|
    decreases |a|
  {
    assert |multiset(a)| == |a| && |multiset(b)| == |b|;
    if a != [] {
      assert a[0] in multiset(a);
      var j := IndexOf(b, a[0]);
      SplitAt(b, j);
      SumRemove(b, j);
      HeadSplit(a);
      CancelOne(multiset(a[1..]), multiset(RemoveAt(b, j)), a[0]);
      CancelOne(multiset(RemoveAt(b, j)), multiset(a[1..]), a[0]);
      SumPermutation(a[1..], RemoveAt(b, j));
    }
  }

  lemma MemberAtMostSum(s: seq<int>, x: int)
    requires NonNegative(s) && x in multiset(s)
    ensures x <= Sum(s)
  {
    var i := IndexOf(s, x);
    SumRemove(s, i);
    NonNegativeRemove(s, i);
    SumNonNegative(RemoveAt(s, i));
  }

  lemma SomeMember(s: set<int>)
    ensures s == {} || exists x :: x in s
  {
    if !(exists x :: x in s) {
      assert s == {};
    }
  }
}
