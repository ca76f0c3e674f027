/** Coin selection of the swap wallet (`select_utxo` and `select_utxo_values`): repeatedly take
    the coin closest to what is still missing, then drop the smallest coins while the rest
    still exceeds the amount. `None` stands for the panic on exhausted inputs. */
module CoinSelection {
  import opened Sequences

  function Distance(value: int, remain: int): nat {
    if value >= remain then value - remain else remain - value
  }

  // ---- the stable sort by key `-(value - remain).abs()` -----------------------------------

  function InsertByDistance(s: seq<int>, x: int, remain: int): (r: seq<int>)
    ensures |r| == |s| + 1
  {
    if s == [] || Distance(s[|s| - 1], remain) >= Distance(x, remain) then s + [x]
    else InsertByDistance(s[..|s| - 1], x, remain) + [s[|s| - 1]]
  }

  function SortByDistance(s: seq<int>, remain: int): (r: seq<int>)
    ensures |r| == |s|
  {
    if s == [] then []
    else InsertByDistance(SortByDistance(s[..|s| - 1], remain), s[|s| - 1], remain)
  }

  ghost predicate FarthestFirst(s: seq<int>, remain: int) {
    forall i, j :: 0 <= i < j < |s| ==> Distance(s[i], remain) >= Distance(s[j], remain)
  }

  lemma {:induction false} InsertByDistanceKeeps(s: seq<int>, x: int, remain: int)
    ensures multiset(InsertByDistance(s, x, remain)) == multiset(s) + multiset{x}
  {
    if s != [] && Distance(s[|s| - 1], remain) < Distance(x, remain) {
      InsertByDistanceKeeps(s[..|s| - 1], x, remain);
      LastSplit(s);
    }
  }

  /** A list in order stays so with one more element that is not farther than the others. */
  lemma OneMoreByDistance(r: seq<int>, last: int, remain: int)
    requires FarthestFirst(r, remain)
    requires forall i :: 0 <= i < |r| ==> Distance(r[i], remain) >= Distance(last, remain)
    ensures FarthestFirst(r + [last], remain)
  {
  }

  lemma {:induction false} InsertByDistanceSorts(s: seq<int>, x: int, remain: int)
    requires FarthestFirst(s, remain)
    ensures var r := InsertByDistance(s, x, remain);
            multiset(r) == multiset(s) + multiset{x} && FarthestFirst(r, remain)
  {
    InsertByDistanceKeeps(s, x, remain);
    if s == [] || Distance(s[|s| - 1], remain) >= Distance(x, remain) {
      OneMoreByDistance(s, x, remain);
    } else {
      var front, last := s[..|s| - 1], s[|s| - 1];
      InsertByDistanceSorts(front, x, remain);
      var r := InsertByDistance(front, x, remain);
      forall i | 0 <= i < |r| ensures Distance(r[i], remain) >= Distance(last, remain) {
        assert r[i] in multiset(r);
        if r[i] != x {
          var _ := IndexOf(front, r[i]);
        }
      }
      OneMoreByDistance(r, last, remain);
      hide FarthestFirst;
    }
  }

  lemma {:induction false} SortByDistanceSorts(s: seq<int>, remain: int)
    ensures var r := SortByDistance(s, remain);
            multiset(r) == multiset(s) && FarthestFirst(r, remain)
  {
    if s != [] {
      LastSplit(s);
      SortByDistanceSorts(s[..|s| - 1], remain);
      InsertByDistanceSorts(SortByDistance(s[..|s| - 1], remain), s[|s| - 1], remain);
    }
  }

  // ---- the final descending sort ----------------------------------------------------------

  ghost predicate Descending(s: seq<int>) {
    forall i, j :: 0 <= i < j < |s| ==> s[i] >= s[j]
  }

  function InsertDescending(s: seq<int>, x: int): seq<int> {
    if s == [] || s[|s| - 1] >= x then s + [x]
    else InsertDescending(s[..|s| - 1], x) + [s[|s| - 1]]
  }

  function SortDescending(s: seq<int>): seq<int> {
    if s == [] then [] else InsertDescending(SortDescending(s[..|s| - 1]), s[|s| - 1])
  }

  lemma {:induction false} InsertDescendingKeeps(s: seq<int>, x: int)
    ensures multiset(InsertDescending(s, x)) == multiset(s) + multiset{x}
  {
    if s != [] && s[|s| - 1] < x {
      InsertDescendingKeeps(s[..|s| - 1], x);
      LastSplit(s);
    }
  }

  lemma OneMoreDescending(r: seq<int>, last: int)
    requires Descending(r) && forall i :: 0 <= i < |r| ==> r[i] >= last
    ensures Descending(r + [last])
  {
  }

  lemma {:induction false} InsertDescendingSorts(s: seq<int>, x: int)
    requires Descending(s)
    ensures var r := InsertDescending(s, x);
            multiset(r) == multiset(s) + multiset{x} && Descending(r)
  {
    InsertDescendingKeeps(s, x);
    if s == [] || s[|s| - 1] >= x {
      OneMoreDescending(s, x);
    } else {
      var front, last := s[..|s| - 1], s[|s| - 1];
      InsertDescendingSorts(front, x);
      var r := InsertDescending(front, x);
      forall i | 0 <= i < |r| ensures r[i] >= last {
        assert r[i] in multiset(r);
        if r[i] != x {
          var _ := IndexOf(front, r[i]);
        }
      }
      OneMoreDescending(r, last);
      hide Descending;
    }
  }

  lemma {:induction false} SortDescendingSorts(s: seq<int>)
    ensures multiset(SortDescending(s)) == multiset(s) && Descending(SortDescending(s))
  {
    if s != [] {
      LastSplit(s);
      SortDescendingSorts(s[..|s| - 1]);
      InsertDescendingSorts(SortDescending(s[..|s| - 1]), s[|s| - 1]);
    }
  }

  // ---- the selection as a function ---------------------------------------------------------

  /** The coins taken by the greedy loop, in the order in which it takes them. */
  function Picks(inputs: seq<int>, remain: int): (r: Option<seq<int>>)
    decreases |inputs|
  {
    if remain <= 0 then Some([])
    else if inputs == [] then None
    else
      var sorted := SortByDistance(inputs, remain);
      var selected := sorted[|sorted| - 1];
      Prepend([selected], Picks(sorted[..|sorted| - 1], remain - selected))
  }

  /** Drop the last (smallest) coin while what is left still exceeds the amount. */
  function Prune(s: seq<int>, amount: int): (r: seq<int>)
    ensures r <= s
  {
    if s != [] && Sum(s) - s[|s| - 1] > amount then Prune(s[..|s| - 1], amount) else s
  }

  function Selection(inputs: seq<int>, amount: int): Option<seq<int>> {
    var picks := Picks(inputs, amount);
    if picks.None? then None else Some(Prune(SortDescending(picks.value), amount))
  }

  lemma PickStep(done: seq<int>, inputs: seq<int>, remain: int)
    requires remain > 0 && inputs != []
    ensures var sorted := SortByDistance(inputs, remain);
            var front, last := sorted[..|sorted| - 1], sorted[|sorted| - 1];
            Prepend(done, Picks(inputs, remain)) == Prepend(done + [last], Picks(front, remain - last))
  {
    var sorted := SortByDistance(inputs, remain);
    var front, last := sorted[..|sorted| - 1], sorted[|sorted| - 1];
    PrependTwice(done, [last], Picks(front, remain - last));
  }

  lemma PicksEnd(inputs: seq<int>, remain: int)
    requires remain <= 0 || inputs == []
    ensures Picks(inputs, remain) == if remain <= 0 then Some([]) else None
  {
  }

  /** The first half of `select_utxo`. */
  method PickFrom(coins: seq<int>, amount: int) returns (picks: Option<seq<int>>)
    ensures picks == Picks(coins, amount)
  {
    hide Picks, SortByDistance;
    var inputs, remain, result := coins, amount, [];
    PrependNothing(Picks(coins, amount));
    while remain > 0
      invariant Picks(coins, amount) == Prepend(result, Picks(inputs, remain))
      decreases |inputs|
    {
      if inputs == [] {
        PicksEnd(inputs, remain);
        return None;
      }
      PickStep(result, inputs, remain);
      inputs := SortByDistance(inputs, remain);
      var last := inputs[|inputs| - 1];
      inputs, result, remain := inputs[..|inputs| - 1], result + [last], remain - last;
    }
    PicksEnd(inputs, remain);
    assert result + [] == result;
    picks := Some(result);
  }

  /** The second half of `select_utxo`; the list never becomes empty, so `last().unwrap()` holds. */
  method PruneFrom(picks: seq<int>, amount: int) returns (result: seq<int>)
    requires picks != [] && amount > 0
    ensures result == Prune(SortDescending(picks), amount)
  {
    result := SortDescending(picks);
    ghost var sorted := result;
    SortDescendingSorts(picks);
    assert |multiset(result)| == |picks|;
    while Sum(result) - result[|result| - 1] > amount
      invariant result != []
      invariant Prune(sorted, amount) == Prune(result, amount)
      decreases |result|
    {
      SumLast(result);
      result := result[..|result| - 1];
    }
  }

  method SelectUtxo(coins: seq<int>, amount: int) returns (selected: Option<seq<int>>)
    requires amount > 0
    ensures selected == Selection(coins, amount)
  {
    var picks := PickFrom(coins, amount);
    if picks.None? {
      return None;
    }
    var result := PruneFrom(picks.value, amount);
    selected := Some(result);
  }

  // ---- what the greedy order guarantees ----------------------------------------------------

  /** `p` is a complete greedy pick order for `remain`: each pick is at least as close to what
      is missing as every later one, and the last pick is the one that covers the amount. */
  ghost predicate Greedy(p: seq<int>, remain: int) {
    if remain <= 0 then p == []
    else
      && p != []
      && (forall j :: 0 <= j < |p| ==> Distance(p[0], remain) <= Distance(p[j], remain))
      && Greedy(p[1..], remain - p[0])
  }

  lemma ClosestIsLast(inputs: seq<int>, remain: int, sorted: seq<int>, later: seq<int>)
    requires inputs != [] && sorted == SortByDistance(inputs, remain)
    requires multiset(later) <= multiset(sorted[..|sorted| - 1])
    ensures forall j :: 0 <= j < |later| ==>
              Distance(sorted[|sorted| - 1], remain) <= Distance(later[j], remain)
  {
    SortByDistanceSorts(inputs, remain);
    forall j | 0 <= j < |later|
      ensures Distance(sorted[|sorted| - 1], remain) <= Distance(later[j], remain)
    {
      assert later[j] in multiset(later);
      var k := IndexOf(sorted[..|sorted| - 1], later[j]);
      assert sorted[k] == later[j];
    }
  }

  /** One round of the loop, seen from the coins it leaves. */
  lemma PickRound(inputs: seq<int>, remain: int, sorted: seq<int>)
    requires NonNegative(inputs) && inputs != [] && sorted == SortByDistance(inputs, remain)
    ensures var front, last := sorted[..|sorted| - 1], sorted[|sorted| - 1];
            && NonNegative(front) && 0 <= Sum(front)
            && Sum(inputs) == Sum(front) + last
            && multiset(inputs) == multiset(front) + multiset{last}
  {
    SortByDistanceSorts(inputs, remain);
    NonNegativeSub(sorted, inputs);
    SumPermutation(sorted, inputs);
    SumLast(sorted);
    LastSplit(sorted);
    SumNonNegative(sorted[..|sorted| - 1]);
  }

  /** The loop runs out of coins exactly when the total is too small. */
  lemma {:induction false} PicksExist(inputs: seq<int>, remain: int)
    requires NonNegative(inputs)
    ensures Picks(inputs, remain).Some? <==> remain <= 0 || Sum(inputs) >= remain
    decreases |inputs|
  {
    if remain > 0 && inputs != [] {
      var sorted := SortByDistance(inputs, remain);
      PickRound(inputs, remain, sorted);
      PicksExist(sorted[..|sorted| - 1], remain - sorted[|sorted| - 1]);
    }
  }

  /** What the loop picks are real coins in greedy order. */
  lemma {:induction false} PicksGreedy(inputs: seq<int>, remain: int, p: seq<int>)
    requires NonNegative(inputs) && Picks(inputs, remain) == Some(p)
    ensures multiset(p) <= multiset(inputs) && Greedy(p, remain)
    decreases |inputs|
  {
    if remain > 0 {
      var sorted := SortByDistance(inputs, remain);
      var front, last := sorted[..|sorted| - 1], sorted[|sorted| - 1];
      PickRound(inputs, remain, sorted);
      var rest := Picks(front, remain - last);
      assert rest.Some? && p == [last] + rest.value;
      PicksGreedy(front, remain - last, rest.value);
      ClosestIsLast(inputs, remain, sorted, rest.value);
      GreedyExtends(last, remain, rest.value);
      ConsMultiset(last, rest.value);
    }
  }

  lemma GreedyExtends(last: int, remain: int, later: seq<int>)
    requires remain > 0 && Greedy(later, remain - last)
    requires forall j :: 0 <= j < |later| ==> Distance(last, remain) <= Distance(later[j], remain)
    ensures Greedy([last] + later, remain)
  {
    assert ([last] + later)[1..] == later;
  }

  /** A greedy order covers the amount, and not before its last pick. */
  lemma {:induction false} GreedyCovers(p: seq<int>, remain: int)
    requires Greedy(p, remain) && remain > 0
    ensures p != [] && Sum(p) >= remain && Sum(p[..|p| - 1]) < remain
  {
    if remain - p[0] <= 0 {
      assert p == [p[0]];
      assert p[..0] == [];
    } else {
      GreedyCovers(p[1..], remain - p[0]);
      assert p[..|p| - 1][1..] == p[1..][..|p| - 2];
    }
  }

  /** The heart of the selection: among greedy picks only the full collection can add up
      to the amount exactly. If a pick could be dropped, the last pick would have fitted in
      its place and would have been the closer one. */
  lemma {:induction false} NoExactSubset(p: seq<int>, remain: int, q: seq<int>)
    requires NonNegative(p) && Greedy(p, remain) && remain > 0
    requires multiset(q) <= multiset(p) && Sum(q) == remain
    ensures multiset(q) == multiset(p)
    decreases |p|
  {
    hide *;
    GreedyCovers(p, remain);
    GreedyTail(p, remain);
    HeadSplit(p);
    FirstPickKept(p, remain, q);
    var j := IndexOf(q, p[0]);
    var rest := RemoveAt(q, j);
    SplitAt(q, j);
    SumRemove(q, j);
    CancelOne(multiset(rest), multiset(p[1..]), p[0]);
    if remain - p[0] > 0 {
      NoExactSubset(p[1..], remain - p[0], rest);
    } else {
      assert p[1..] == [];
      assert multiset(rest) == multiset(p[1..]);
    }
  }

  lemma GreedyTail(p: seq<int>, remain: int)
    requires NonNegative(p) && Greedy(p, remain) && remain > 0 && p != []
    ensures NonNegative(p[1..]) && Greedy(p[1..], remain - p[0])
    ensures remain - p[0] <= 0 ==> p[1..] == []
  {
  }

  /** The first pick cannot be left out of an exact subset. */
  lemma FirstPickKept(p: seq<int>, remain: int, q: seq<int>)
    requires NonNegative(p) && Greedy(p, remain) && remain > 0
    requires multiset(q) <= multiset(p) && Sum(q) == remain
    ensures p[0] in multiset(q)
  {
    GreedyCovers(p, remain);
    var last := p[|p| - 1];
    assert Distance(p[0], remain) <= Distance(last, remain);
    HeadSplit(p);
    SumLast(p);
    LastSplit(p);
    NonNegativeSub(q, p);
    if last in multiset(q) {
      MemberAtMostSum(q, last);
    } else {
      AvoidOne(multiset(q), multiset(p[..|p| - 1]), last);
      SumSub(q, p[..|p| - 1]);
      assert false;
    }
    if p[0] !in multiset(q) {
      AvoidOne(multiset(q), multiset(p[1..]), p[0]);
      SumSub(q, p[1..]);
      assert false;
    }
  }

  lemma {:induction false} PruneStops(s: seq<int>, amount: int)
    requires s != [] && amount > 0 && Sum(s) >= amount
    ensures var r := Prune(s, amount);
            r != [] && Sum(r) >= amount && Sum(r) - r[|r| - 1] <= amount
  {
    if Sum(s) - s[|s| - 1] > amount {
      SumLast(s);
      PruneStops(s[..|s| - 1], amount);
    }
  }

  /** Selection succeeds exactly when the coins suffice. What it returns is part of the coins,
      reaches the amount, and is irredundant: no smaller part of it reaches the amount. The
      last clause holds although the prune loop keeps a coin when the rest is exactly enough. */
  lemma SelectionCorrect(coins: seq<int>, amount: int)
    requires NonNegative(coins) && amount > 0
    ensures var r := Selection(coins, amount);
            && (r.Some? <==> Sum(coins) >= amount)
            && (r.Some? ==>
                  && multiset(r.value) <= multiset(coins)
                  && Sum(r.value) >= amount
                  && (forall q :: multiset(q) <= multiset(r.value) && |q| < |r.value| ==> Sum(q) < amount))
  {
    PicksExist(coins, amount);
    if Sum(coins) >= amount {
      var r := Selection(coins, amount).value;
      SelectionIrredundant(coins, amount);
      forall q | multiset(q) <= multiset(r) && |q| < |r| ensures Sum(q) < amount {
        SmallerPart(q, r);
      }
    }
  }

  lemma SelectionIrredundant(coins: seq<int>, amount: int)
    requires NonNegative(coins) && amount > 0 && Selection(coins, amount).Some?
    ensures var r := Selection(coins, amount).value;
            && r != [] && NonNegative(r) && Descending(r)
            && multiset(r) <= multiset(coins)
            && Sum(r) - r[|r| - 1] < amount <= Sum(r)
  {
    var p := Picks(coins, amount).value;
    PicksGreedy(coins, amount, p);
    NonNegativeSub(p, coins);
    PrunedPicks(p, amount);
  }

  lemma PrunedPicks(p: seq<int>, amount: int)
    requires NonNegative(p) && Greedy(p, amount) && amount > 0
    ensures var r := Prune(SortDescending(p), amount);
            && r != [] && NonNegative(r) && Descending(r) && multiset(r) <= multiset(p)
            && Sum(r) - r[|r| - 1] < amount <= Sum(r)
  {
    var s := SortDescending(p);
    SortDescendingSorts(p);
    GreedyCovers(p, amount);
    SumPermutation(s, p);
    PruneStops(s, amount);
    var r := Prune(s, amount);
    PrefixPart(s, r);
    PrefixDescends(s, r);
    NonNegativeSub(r, p);
    SumLast(r);
    LastSplit(r);
    hide Sum, Greedy, Prune, SortDescending, Descending;
    NotExactly(p, r[..|r| - 1], amount);
  }

  lemma PrefixDescends(s: seq<int>, r: seq<int>)
    requires Descending(s) && r <= s
    ensures Descending(r)
  {
  }

  /** A shorter part of a greedy pick list does not sum to the amount. */
  lemma NotExactly(p: seq<int>, q: seq<int>, amount: int)
    requires NonNegative(p) && Greedy(p, amount) && amount > 0
    requires multiset(q) <= multiset(p) && |q| < |p|
    ensures Sum(q) != amount
  {
    hide *;
    if Sum(q) == amount {
      NoExactSubset(p, amount, q);
      SumPermutation(q, p);
      assert false;
    }
  }

  lemma PrefixPart(s: seq<int>, r: seq<int>)
    requires r <= s
    ensures multiset(r) <= multiset(s)
  {
    assert s == r + s[|r|..];
  }

  lemma LastIsSmallest(s: seq<int>)
    requires s != [] && Descending(s)
    ensures forall i :: 0 <= i < |s| ==> s[|s| - 1] <= s[i]
  {
  }

  /** A proper part of a descending list misses at least its smallest element. */
  lemma SmallerPart(q: seq<int>, r: seq<int>)
    requires NonNegative(r) && Descending(r) && multiset(q) <= multiset(r) && |q| < |r|
    ensures Sum(q) <= Sum(r) - r[|r| - 1]
  {
    var missing := multiset(r) - multiset(q);
    assert |multiset(q)| == |q| && |multiset(r)| == |r|;
    assert |missing| == |r| - |q|;
    var x :| x in missing;
    assert x in multiset(r);
    var j := IndexOf(r, x);
    SplitAt(r, j);
    SumRemove(r, j);
    NonNegativeRemove(r, j);
    MissingOne(multiset(q), multiset(RemoveAt(r, j)), x);
    SumSub(q, RemoveAt(r, j));
  }

  // ---- selecting the coins themselves ------------------------------------------------------

  /** `Vec::swap_remove`: the last element takes the place of the removed one. */
  function SwapRemove<A>(s: seq<A>, i: nat): (r: seq<A>)
    requires i < |s|
    ensures |r| == |s| - 1
    ensures multiset(r) + multiset{s[i]} == multiset(s)
  {
    assert s == s[..|s| - 1] + [s[|s| - 1]];
    if i == |s| - 1 then s[..i] else s[..|s| - 1][i := s[|s| - 1]]
  }

  /** The first position that holds the amount, `|s|` if there is none. */
  function Position<A>(s: seq<(int, A)>, amount: int): (i: nat)
    ensures i <= |s|
    ensures i < |s| ==> s[i].0 == amount
    ensures forall j :: 0 <= j < i ==> s[j].0 != amount
  {
    if s == [] || s[0].0 == amount then 0 else 1 + Position(s[1..], amount)
  }

  function Amounts<A>(s: seq<(int, A)>): (r: seq<int>)
    ensures |r| == |s| && forall i :: 0 <= i < |s| ==> r[i] == s[i].0
  {
    seq(|s|, i requires 0 <= i < |s| => s[i].0)
  }

  function Payloads<A>(s: seq<(int, A)>): (r: seq<A>)
    ensures |r| == |s| && forall i :: 0 <= i < |s| ==> r[i] == s[i].1
  {
    seq(|s|, i requires 0 <= i < |s| => s[i].1)
  }

  /** The coins taken out of `inputs` for the given amounts, one by one. */
  function Taken<A>(inputs: seq<(int, A)>, amounts: seq<int>): Option<seq<(int, A)>>
    decreases |amounts|
  {
    if amounts == [] then Some([])
    else
      var i := Position(inputs, amounts[0]);
      if i == |inputs| then None
      else
        Prepend([inputs[i]], Taken(SwapRemove(inputs, i), amounts[1..]))
  }

  lemma {:induction false} AmountsMultiset<A>(s: seq<(int, A)>, i: nat)
    requires i < |s|
    ensures multiset(Amounts(SwapRemove(s, i))) + multiset{s[i].0} == multiset(Amounts(s))
  {
    assert Amounts(SwapRemove(s, i)) == SwapRemove(Amounts(s), i);
  }

  /** Amounts drawn from the coins always find their coins: `position(..).unwrap()` succeeds,
      and the coins found are distinct members of the list with exactly those amounts. */
  lemma {:induction false} TakenMatches<A>(inputs: seq<(int, A)>, amounts: seq<int>)
    requires multiset(amounts) <= multiset(Amounts(inputs))
    ensures var r := Taken(inputs, amounts);
            r.Some? && Amounts(r.value) == amounts && multiset(r.value) <= multiset(inputs)
    decreases |amounts|
  {
    if amounts != [] {
      assert amounts[0] in multiset(amounts);
      var k := IndexOf(Amounts(inputs), amounts[0]);
      var i := Position(inputs, amounts[0]);
      assert i <= k;
      AmountsMultiset(inputs, i);
      HeadSplit(amounts);
      CancelOne(multiset(amounts[1..]), multiset(Amounts(SwapRemove(inputs, i))), amounts[0]);
      TakenMatches(SwapRemove(inputs, i), amounts[1..]);
      var rest := Taken(SwapRemove(inputs, i), amounts[1..]).value;
      HeadSplit([inputs[i]] + rest);
      assert ([inputs[i]] + rest)[1..] == rest;
    }
  }

  function SelectionOfCoins<A>(inputs: seq<(int, A)>, amount: int): Option<seq<(int, A)>> {
    var selected := Selection(Amounts(inputs), amount);
    if selected.None? then None else Taken(inputs, selected.value)
  }

  /** The matching loop of `select_utxo_values`. */
  method TakeFrom<A>(coins: seq<(int, A)>, amounts: seq<int>) returns (taken: Option<seq<(int, A)>>)
    ensures taken == Taken(coins, amounts)
  {
    var inputs, result, k := coins, [], 0;
    PrependNothing(Taken(coins, amounts));
    assert amounts[0..] == amounts;
    while k < |amounts|
      invariant 0 <= k <= |amounts|
      invariant Taken(coins, amounts) == Prepend(result, Taken(inputs, amounts[k..]))
    {
      var index := Position(inputs, amounts[k]);
      assert amounts[k..][1..] == amounts[k + 1..];
      if index == |inputs| {
        return None;
      }
      PrependTwice(result, [inputs[index]], Taken(SwapRemove(inputs, index), amounts[k + 1..]));
      inputs, result, k := SwapRemove(inputs, index), result + [inputs[index]], k + 1;
    }
    assert result + [] == result;
    taken := Some(result);
  }

  method SelectUtxoValues<A>(coins: seq<(int, A)>, amount: int) returns (values: Option<seq<A>>)
    requires amount > 0
    ensures var r := SelectionOfCoins(coins, amount);
            values == if r.None? then None else Some(Payloads(r.value))
  {
    var selected := SelectUtxo(Amounts(coins), amount);
    if selected.None? {
      return None;
    }
    var taken := TakeFrom(coins, selected.value);
    values := if taken.None? then None else Some(Payloads(taken.value));
  }

  lemma EachCoinNeeded<A>(r: seq<(int, A)>, amount: int)
    requires var s := Amounts(r); s != [] && Descending(s) && Sum(s) - s[|s| - 1] < amount
    ensures forall i :: 0 <= i < |r| ==> Sum(Amounts(r)) - r[i].0 < amount
  {
    LastIsSmallest(Amounts(r));
  }

  /** The coins chosen for an amount: found whenever the total suffices, distinct members of
      the list, and irredundant. */
  lemma SelectionOfCoinsCorrect<A>(coins: seq<(int, A)>, amount: int)
    requires NonNegative(Amounts(coins)) && amount > 0
    ensures var r := SelectionOfCoins(coins, amount);
            && (r.Some? <==> Sum(Amounts(coins)) >= amount)
            && (r.Some? ==>
                  && multiset(r.value) <= multiset(coins)
                  && Sum(Amounts(r.value)) >= amount
                  && (forall i :: 0 <= i < |r.value| ==>
                        Sum(Amounts(r.value)) - r.value[i].0 < amount))
  {
    hide Selection, Taken, Sum, Descending;
    SelectionFound(Amounts(coins), amount);
    var selected := Selection(Amounts(coins), amount);
    if selected.Some? {
      SelectionIrredundant(Amounts(coins), amount);
      TakenMatches(coins, selected.value);
      EachCoinNeeded(Taken(coins, selected.value).value, amount);
    }
  }

  lemma SelectionFound(coins: seq<int>, amount: int)
    requires NonNegative(coins) && amount > 0
    ensures Selection(coins, amount).Some? <==> Sum(coins) >= amount
  {
    PicksExist(coins, amount);
  }
}
