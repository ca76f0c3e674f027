/** Concrete inputs on which completed orders of the headless server are failed again. */
module HeadlessStories {
  import opened Sequences
  import opened CoinSelection
  import opened Shuffle
  import opened HeadlessServer
  import opened HeadlessSafety
  import opened HeadlessCompletion

  function HandleAll(s: State, ms: seq<Message>): Outcome
    decreases |ms|
  {
    if ms == [] then Next(s)
    else if Handle(s, ms[0]).Panic? then Panic
    else HandleAll(Handle(s, ms[0]).state, ms[1..])
  }

  lemma {:induction false} HandleAllAppend(s: State, a: seq<Message>, b: seq<Message>)
    requires HandleAll(s, a).Next?
    ensures HandleAll(s, a + b) == HandleAll(HandleAll(s, a).state, b)
    decreases |a|
  {
    if a == [] {
      assert a + b == b;
    } else {
      assert (a + b)[1..] == a[1..] + b;
      hide Handle;
      HandleAllAppend(Handle(s, a[0]).state, a[1..], b);
    }
  }

  lemma HandleTwo(s: State, a: Message, b: Message)
    ensures HandleAll(s, [a, b]) ==
            if Handle(s, a).Panic? then Panic else Handle(Handle(s, a).state, b)
  {
    hide Handle;
    assert [a, b][1..] == [b];
    if Handle(s, a).Next? {
      HandleOne(Handle(s, a).state, b);
    }
  }

  lemma HandleOne(s: State, a: Message)
    ensures HandleAll(s, [a]) == Handle(s, a)
  {
    hide Handle;
    assert [a][1..] == [];
  }

  const TheCoin: OutPoint := OutPoint(0, 0)

  /** A wallet with one coin of 1000 satoshi, and an order that sells 500 and pays 500 as fee. */
  function OneCoin(policyAsset: AssetId): map<AssetId, seq<Coin>> {
    map[policyAsset := [Coin(TheCoin, 1000)]]
  }

  const Sale: Details := Details(1, true, 500, 500, 1)

  function NewSale(key: string): NewOrder {
    NewOrder(1, 1.0, 1.0, Some(key))
  }

  lemma SaleCovered(s: State)
    requires s.swapInputs == Some(OneCoin(s.policyAsset)) && TheCoin !in Reserved(s.orders)
    ensures Covered(s, Sale, []) && Chosen(s, Sale, []) == [TheCoin]
  {
    var coins := [Coin(TheCoin, 1000)];
    assert WithAmounts(coins) == [(1000, TheCoin)];
    var free := Free([(1000, TheCoin)], Reserved(s.orders));
    FreeStep([(1000, TheCoin)], Reserved(s.orders));
    assert [(1000, TheCoin)][1..] == [];
    assert free == [(1000, TheCoin)];
    assert Candidates(s, Sale, []) == free;
    hide Reserved, Shuffled, Free;
    assert Amounts(free) == [1000];
    assert Sum([1000]) == 1000 by { assert [1000][1..] == []; }
    SelectionSucceeds(s, Sale, []);
    CandidatesNonNegative(s, Sale, []);
    SelectionOfCoinsCorrect(free, 1000);
    var selected := SelectionOfCoins(free, 1000).value;
    OnlyCoin(selected);
    hide SelectionOfCoins, Candidates;
  }

  /** What reaches the amount with the one coin is the one coin. */
  lemma OnlyCoin(selected: seq<(int, OutPoint)>)
    requires multiset(selected) <= multiset([(1000, TheCoin)]) && Sum(Amounts(selected)) >= 1000
    ensures Payloads(selected) == [TheCoin]
  {
    assert selected == [] ==> Amounts(selected) == [];
    var coin := (1000, TheCoin);
    assert selected[0] in multiset(selected);
    assert selected[0] in multiset([coin]);
    HeadSplit(selected);
    assert multiset([coin]) == multiset{} + multiset{coin};
    CancelOne(multiset(selected[1..]), multiset{}, coin);
    assert multiset(selected[1..]) == multiset{};
    assert |multiset(selected[1..])| == |selected[1..]|;
  }

  /** Connected with the one coin free, and nothing pending but the given requests. */
  ghost predicate Ready(s: State, pending: map<RequestId, Callback>) {
    && s.wsConnected && s.signCount == 0 && s.async == pending
    && s.swapInputs == Some(OneCoin(s.policyAsset)) && TheCoin !in Reserved(s.orders)
  }

  /** Orders, keys and completions are the same. */
  ghost predicate SameOrders(s: State, t: State) {
    && t.orders == s.orders && t.uniqueOrders == s.uniqueOrders && t.policyAsset == s.policyAsset
    && t.past.accepted == s.past.accepted && t.past.completed == s.past.completed
  }

  function Opening(policyAsset: AssetId): seq<Message> {
    [WalletSwapInputs(OneCoin(policyAsset)), WsConnected] + [WsResponse(Some(0), Ok(LoginResp([])), [])]
  }

  lemma OpeningIsReady(policyAsset: AssetId) returns (u: State)
    ensures HandleAll(Init(policyAsset), Opening(policyAsset)) == Next(u)
    ensures Ready(u, map[]) && u.nextId == 1 && SameOrders(Init(policyAsset), u)
  {
    hide HandleAll;
    var s := Init(policyAsset);
    var m0, m1, m2 := WalletSwapInputs(OneCoin(policyAsset)), WsConnected, WsResponse(Some(0), Ok(LoginResp([])), []);
    HandleTwo(s, m0, m1);
    var t := HandleAll(s, [m0, m1]).state;
    HandleAllAppend(s, [m0, m1], [m2]);
    HandleOne(t, m2);
    assert t.async == map[0 := LoginDone];
    u := Handle(t, m2).state;
    assert u.async == map[];
    assert Reserved(map[]) == {};
  }

  lemma SaleAsked(s: State, key: string, reply: ReplyId)
    requires Ready(s, map[])
    ensures var r := Handle(s, ApiNewOrder(NewSale(key), reply));
            && r.Next? && SameOrders(s, r.state) && r.state.nextId == s.nextId + 1
            && r.state.swapInputs == s.swapInputs
            && Ready(r.state, map[s.nextId := Submitted(NewSale(key), reply)])
  {
    hide Reserved;
  }

  lemma SaleSubmitted(s: State, o: OrderId, order: NewOrder, reply: ReplyId)
    requires s.wsConnected && Covered(s, Sale, [])
    ensures var held := Chosen(s, Sale, []);
            ProcessSubmitInputs(s, o, Sale, order, reply, []) ==
            MakeAsyncRequest(Reserving(s, o, held), PsetMaker(o, held), PsetSent(o, Sale, order.uniqueKey, reply))
  {
    hide MakeAsyncRequest, Candidates, SelectionOfCoins, Sum, Amounts, Payloads;
  }

  /** A state in which an order is active and its coin list is on the way. */
  ghost predicate Active1(s: State, before: State, o: OrderId, cb: Callback) {
    && o in s.orders && s.orders == before.orders[o := Active([TheCoin])]
    && SameOrders(before.(orders := s.orders), s)
    && s.wsConnected && s.signCount == 0 && s.nextId == before.nextId + 1
    && s.async == map[before.nextId := cb] && s.swapInputs == before.swapInputs
  }

  lemma SaleReserved(s: State, id: RequestId, key: string, reply: ReplyId, o: OrderId)
    requires Ready(s, map[id := Submitted(NewSale(key), reply)])
    ensures var r := Handle(s, WsResponse(Some(id), Ok(SubmitResp(o, Sale)), []));
            r.Next? && Active1(r.state, s, o, PsetSent(o, Sale, Some(key), reply)) && r.state.nextId == s.nextId + 1
  {
    hide ProcessSubmitInputs, Covered, Chosen, Reserved, MakeAsyncRequest;
    var m := WsResponse(Some(id), Ok(SubmitResp(o, Sale)), []);
    var t := TakenOut(s, m);
    assert t.async == map[];
    SaleCovered(t);
    SaleSubmitted(t, o, NewSale(key), reply);
    assert Handle(s, m) == ProcessSubmitInputs(t, o, Sale, NewSale(key), reply, []);
    var held := Chosen(t, Sale, []);
    SentWhileConnected(Reserving(t, o, held), PsetMaker(o, held), PsetSent(o, Sale, Some(key), reply));
  }

  lemma SentWhileConnected(s: State, req: ServerRequest, cb: Callback)
    requires s.wsConnected && s.async == map[]
    ensures var r := MakeAsyncRequest(s, req, cb);
            && r.Next? && SameOrders(s, r.state) && r.state.nextId == s.nextId + 1
            && r.state.async == map[s.nextId := cb] && r.state.swapInputs == s.swapInputs
            && r.state.wsConnected && r.state.signCount == s.signCount
  {
  }

  /** The order is active and nothing is pending. */
  ghost predicate Sold(s: State, before: State, key: string, o: OrderId) {
    && o in s.orders && s.orders == before.orders[o := Active([TheCoin])]
    && s.wsConnected && s.signCount == 0 && s.async == map[] && s.swapInputs == before.swapInputs
    && s.policyAsset == before.policyAsset && s.uniqueOrders == before.uniqueOrders[key := o]
    && s.past.accepted == before.past.accepted + {(key, o)} && s.past.completed == before.past.completed
  }

  lemma SaleConfirmed(s: State, before: State, key: string, reply: ReplyId, o: OrderId)
    requires Active1(s, before, o, PsetSent(o, Sale, Some(key), reply))
    requires key in before.uniqueOrders ==> before.uniqueOrders[key] != o && !Live(before.orders, before.uniqueOrders[key])
    ensures var r := Handle(s, WsResponse(Some(before.nextId), Ok(PsetMakerResp), []));
            r.Next? && Sold(r.state, before, key, o) && r.state.nextId == s.nextId
  {
    var m := WsResponse(Some(before.nextId), Ok(PsetMakerResp), []);
    assert TakenOut(s, m).async == map[];
  }

  function Selling(id: RequestId, key: string, reply: ReplyId, o: OrderId): seq<Message> {
    [ApiNewOrder(NewSale(key), reply), WsResponse(Some(id), Ok(SubmitResp(o, Sale)), [])]
    + [WsResponse(Some(id + 1), Ok(PsetMakerResp), [])]
  }

  /** A sale from a ready state is accepted under its key. */
  lemma SaleAccepted(s: State, key: string, reply: ReplyId, o: OrderId) returns (t: State)
    requires Ready(s, map[])
    requires key in s.uniqueOrders ==> s.uniqueOrders[key] != o && !Live(s.orders, s.uniqueOrders[key])
    ensures HandleAll(s, Selling(s.nextId, key, reply, o)) == Next(t)
    ensures Sold(t, s, key, o) && t.nextId == s.nextId + 2
  {
    hide *;
    var n := s.nextId;
    var m0, m1 := ApiNewOrder(NewSale(key), reply), WsResponse(Some(n), Ok(SubmitResp(o, Sale)), []);
    var m2 := WsResponse(Some(n + 1), Ok(PsetMakerResp), []);
    SaleAsked(s, key, reply);
    var a := Handle(s, m0).state;
    SaleReserved(a, n, key, reply, o);
    var b := Handle(a, m1).state;
    SameKeys(s, a, key);
    SaleConfirmed(b, a, key, reply, o);
    t := Handle(b, m2).state;
    HandleTwo(s, m0, m1);
    HandleAllAppend(s, [m0, m1], [m2]);
    HandleOne(b, m2);
    SoldBefore(t, a, s, key, o);
    SellingIs(n, key, reply, o);
  }

  lemma SellingIs(id: RequestId, key: string, reply: ReplyId, o: OrderId)
    ensures Selling(id, key, reply, o) ==
            [ApiNewOrder(NewSale(key), reply), WsResponse(Some(id), Ok(SubmitResp(o, Sale)), [])]
            + [WsResponse(Some(id + 1), Ok(PsetMakerResp), [])]
  {
  }

  lemma SameKeys(s: State, t: State, key: string)
    requires SameOrders(s, t)
    ensures t.uniqueOrders == s.uniqueOrders && t.orders == s.orders
  {
  }

  lemma SoldBefore(t: State, a: State, s: State, key: string, o: OrderId)
    requires Sold(t, a, key, o) && SameOrders(s, a) && a.swapInputs == s.swapInputs
    ensures Sold(t, s, key, o)
  {
  }

  /** The whole story up to an accepted sale. */
  function FirstSale(policyAsset: AssetId, key: string, reply: ReplyId, o: OrderId): seq<Message> {
    Opening(policyAsset) + Selling(1, key, reply, o)
  }

  lemma FirstSaleAccepted(policyAsset: AssetId, key: string, reply: ReplyId, o: OrderId) returns (t: State)
    ensures HandleAll(Init(policyAsset), FirstSale(policyAsset, key, reply, o)) == Next(t)
    ensures Sold(t, Init(policyAsset).(swapInputs := Some(OneCoin(policyAsset))), key, o) && t.nextId == 3
  {
    var s := OpeningIsReady(policyAsset);
    hide Handle, HandleAll, Sold;
    t := SaleAccepted(s, key, reply, o);
    HandleAllAppend(Init(policyAsset), Opening(policyAsset), Selling(1, key, reply, o));
    SoldBefore(t, s, Init(policyAsset).(swapInputs := s.swapInputs), key, o);
  }

  /** The sale is signed, and completed before the server has confirmed the signature. */
  lemma SoldIsSigned(s: State, before: State, key: string, o: OrderId, txid: Txid) returns (t: State)
    requires Sold(s, before, key, o)
    ensures HandleAll(s, [WsSign(o), WalletSignedPset(o)] + [WsComplete(o, Some(txid))]) == Next(t)
    ensures Completed(t, o) && t.orders[o] == Succeed([TheCoin], txid) && t.async == map[s.nextId := SignSent(o)]
  {
    hide HandleAll;
    HandleTwo(s, WsSign(o), WalletSignedPset(o));
    var u := HandleAll(s, [WsSign(o), WalletSignedPset(o)]).state;
    HandleAllAppend(s, [WsSign(o), WalletSignedPset(o)], [WsComplete(o, Some(txid))]);
    HandleOne(u, WsComplete(o, Some(txid)));
    t := Handle(u, WsComplete(o, Some(txid))).state;
  }

  /** The messages that undo a completed order whose signature is pending under the given id. */
  function Undoing(o: OrderId, id: RequestId): seq<Message> {
    [WsOrderRemoved(o), WsComplete(o, None), WsDisconnected([id]), WsResponse(Some(id), Err, [])]
  }

  lemma EachUndoes(s: State, o: OrderId, id: RequestId, m: Message)
    requires Completed(s, o) && s.async == map[id := SignSent(o)] && m in Undoing(o, id)
    ensures Handle(s, m).Next? && o in Handle(s, m).state.orders && Handle(s, m).state.orders[o].Failed?
  {
    if m.WsDisconnected? {
      FailAllAt(s.(wsConnected := false, async := map[]), s.async, [id], o);
      assert CancelsOnError(s.async[[id][0]], o);
      hide FailAll;
    } else if m.WsResponse? {
      FailedContinuation(TakenOut(s, m), SignSent(o));
    }
  }

  /** From the initial state: an order is sold, signed and completed, and each of four messages of
      the server fails it again. */
  lemma CompletionUndone(policyAsset: AssetId, key: string, reply: ReplyId, o: OrderId, txid: Txid) returns (t: State)
    ensures HandleAll(Init(policyAsset), FirstSale(policyAsset, key, reply, o) +
                      ([WsSign(o), WalletSignedPset(o)] + [WsComplete(o, Some(txid))])) == Next(t)
    ensures Completed(t, o)
    ensures forall m :: m in Undoing(o, 3) ==>
              Handle(t, m).Next? && o in Handle(t, m).state.orders && Handle(t, m).state.orders[o].Failed?
  {
    hide *;
    var s := FirstSaleAccepted(policyAsset, key, reply, o);
    t := SoldIsSigned(s, Init(policyAsset).(swapInputs := Some(OneCoin(policyAsset))), key, o, txid);
    HandleAllAppend(Init(policyAsset), FirstSale(policyAsset, key, reply, o),
                    [WsSign(o), WalletSignedPset(o)] + [WsComplete(o, Some(txid))]);
    forall m | m in Undoing(o, 3)
      ensures Handle(t, m).Next? && o in Handle(t, m).state.orders && Handle(t, m).state.orders[o].Failed?
    {
      EachUndoes(t, o, 3, m);
    }
  }

  /** The first order of a key is completed with the coin, and removed; the worker is ready for another one. */
  lemma SoldAndRemoved(s: State, policyAsset: AssetId, key: string, o: OrderId, txid: Txid)
    returns (done: State, t: State)
    requires Sold(s, Init(policyAsset).(swapInputs := Some(OneCoin(policyAsset))), key, o)
    ensures Handle(s, WsComplete(o, Some(txid))) == Next(done) && done.orders == map[o := Succeed([TheCoin], txid)]
    ensures HandleAll(s, [WsComplete(o, Some(txid)), WsOrderRemoved(o)]) == Next(t)
    ensures Ready(t, map[]) && t.nextId == s.nextId && t.orders == map[o := Failed]
    ensures t.uniqueOrders == map[key := o] && t.past.accepted == {(key, o)} && t.past.completed == {o}
  {
    hide HandleAll;
    HandleTwo(s, WsComplete(o, Some(txid)), WsOrderRemoved(o));
    done := Handle(s, WsComplete(o, Some(txid))).state;
    t := Handle(done, WsOrderRemoved(o)).state;
    assert Reserved(map[o := Failed]) == {};
  }

  function SecondSale(policyAsset: AssetId, key: string, a: OrderId, b: OrderId, txid: Txid): seq<Message> {
    FirstSale(policyAsset, key, 0, a) + ([WsComplete(a, Some(txid)), WsOrderRemoved(a)] + Selling(3, key, 1, b))
  }

  /** From the initial state: two orders of the same key complete, both with the same coin, because the
      first was removed in between. */
  lemma TwoCompletionsOfOneKey(policyAsset: AssetId, key: string, a: OrderId, b: OrderId, txid: Txid)
    returns (first: State, s: State, t: State)
    requires a != b
    ensures HandleAll(Init(policyAsset), FirstSale(policyAsset, key, 0, a) + [WsComplete(a, Some(txid))]) == Next(first)
    ensures a in first.orders && first.orders[a] == Succeed([TheCoin], txid)
    ensures HandleAll(Init(policyAsset), SecondSale(policyAsset, key, a, b, txid)) == Next(s)
    ensures Handle(s, WsComplete(b, Some(txid))) == Next(t)
    ensures b in t.orders && t.orders[b] == Succeed([TheCoin], txid)
    ensures (key, a) in t.past.accepted && (key, b) in t.past.accepted
    ensures a in t.past.completed && b in t.past.completed
  {
    hide *;
    var init, m := Init(policyAsset), WsComplete(a, Some(txid));
    var u := FirstSaleAccepted(policyAsset, key, 0, a);
    var v: State;
    first, v := SoldAndRemoved(u, policyAsset, key, a, txid);
    NotLive(v.orders, a);
    s := SaleAccepted(v, key, 1, b);
    t := SecondCompletes(s, v, key, b, txid);
    HandleOne(u, m);
    HandleAllAppend(init, FirstSale(policyAsset, key, 0, a), [m]);
    HandleAllAppend(u, [m, WsOrderRemoved(a)], Selling(3, key, 1, b));
    HandleAllAppend(init, FirstSale(policyAsset, key, 0, a), [m, WsOrderRemoved(a)] + Selling(3, key, 1, b));
    SecondSaleIs(policyAsset, key, a, b, txid);
  }

  lemma SecondSaleIs(policyAsset: AssetId, key: string, a: OrderId, b: OrderId, txid: Txid)
    ensures SecondSale(policyAsset, key, a, b, txid) ==
            FirstSale(policyAsset, key, 0, a) + ([WsComplete(a, Some(txid)), WsOrderRemoved(a)] + Selling(3, key, 1, b))
  {
  }

  lemma NotLive(orders: map<OrderId, OrderState>, o: OrderId)
    requires orders == map[o := Failed]
    ensures !Live(orders, o)
  {
  }

  lemma SecondCompletes(s: State, before: State, key: string, o: OrderId, txid: Txid) returns (t: State)
    requires Sold(s, before, key, o)
    ensures Handle(s, WsComplete(o, Some(txid))) == Next(t)
    ensures o in t.orders && t.orders[o] == Succeed([TheCoin], txid)
    ensures t.past.accepted == before.past.accepted + {(key, o)}
    ensures t.past.completed == before.past.completed + {o}
  {
    t := Handle(s, WsComplete(o, Some(txid))).state;
  }
}
