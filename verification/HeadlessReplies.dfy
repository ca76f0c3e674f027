/** What the headless server answers and sends, message by message, and what its status answers mean. */
module HeadlessReplies {
  import opened Sequences
  import opened CoinSelection
  import opened Shuffle
  import opened HeadlessServer
  import opened HeadlessSafety
  import opened HeadlessCompletion

  // ---- when an order is taken ------------------------------------------------------------------------

  /** An order that has not failed holds the coin. */
  ghost predicate HeldBySome(orders: map<OrderId, OrderState>, p: OutPoint) {
    exists o :: o in orders && !orders[o].Failed? && p in orders[o].held
  }

  /** What the listed coins that no order holds are worth. */
  ghost function Unheld(coins: seq<Coin>, orders: map<OrderId, OrderState>): int {
    if coins == [] then 0
    else (if HeldBySome(orders, coins[0].outpoint) then 0 else coins[0].satoshi) + Unheld(coins[1..], orders)
  }

  lemma ReservedMeansHeld(orders: map<OrderId, OrderState>, p: OutPoint)
    ensures p in Reserved(orders) <==> HeldBySome(orders, p)
  {
    if p in Reserved(orders) {
      var o, i :| o in orders && 0 <= i < |Held(orders[o])| && Held(orders[o])[i] == p;
      assert p in orders[o].held;
    }
    if HeldBySome(orders, p) {
      var o :| o in orders && !orders[o].Failed? && p in orders[o].held;
      var i :| 0 <= i < |orders[o].held| && orders[o].held[i] == p;
      assert Held(orders[o])[i] == p;
    }
  }

  lemma SumCons(x: int, s: seq<int>)
    ensures Sum([x] + s) == x + Sum(s)
  {
    assert ([x] + s)[1..] == s;
  }

  lemma AmountsCons(p: (int, OutPoint), rest: seq<(int, OutPoint)>)
    ensures Sum(Amounts([p] + rest)) == p.0 + Sum(Amounts(rest))
  {
    assert Amounts([p] + rest) == [p.0] + Amounts(rest);
    SumCons(p.0, Amounts(rest));
    hide Sum;
  }

  lemma WithAmountsCons(coins: seq<Coin>)
    requires coins != []
    ensures WithAmounts(coins)[1..] == WithAmounts(coins[1..])
    ensures WithAmounts(coins)[0] == (coins[0].satoshi as int, coins[0].outpoint)
  {
  }

  lemma {:induction false} FreeTotal(coins: seq<Coin>, orders: map<OrderId, OrderState>)
    ensures Sum(Amounts(Free(WithAmounts(coins), Reserved(orders)))) == Unheld(coins, orders)
  {
    var pairs := WithAmounts(coins);
    if coins == [] {
      assert Amounts(Free(pairs, Reserved(orders))) == [];
    } else {
      hide Free, Reserved, HeldBySome, Sum;
      FreeTotal(coins[1..], orders);
      WithAmountsCons(coins);
      FreeStep(pairs, Reserved(orders));
      ReservedMeansHeld(orders, coins[0].outpoint);
      AmountsCons(pairs[0], Free(pairs[1..], Reserved(orders)));
    }
  }

  lemma AmountsRemove(s: seq<(int, OutPoint)>, j: nat)
    requires j < |s|
    ensures Sum(Amounts(s)) == Sum(Amounts(RemoveAt(s, j))) + s[j].0
  {
    SumRemove(Amounts(s), j);
    assert RemoveAt(Amounts(s), j) == Amounts(RemoveAt(s, j));
    hide Sum;
  }

  lemma {:induction false} AmountsPermutation(a: seq<(int, OutPoint)>, b: seq<(int, OutPoint)>)
    requires multiset(a) == multiset(b)
    ensures Sum(Amounts(a)) == Sum(Amounts(b))
    decreases |a|
  {
    hide Sum;
    assert |multiset(a)| == |a| && |multiset(b)| == |b|;
    if a == [] {
      assert Amounts(a) == [] == Amounts(b);
    } else {
      assert a[0] in multiset(a);
      var j := IndexOf(b, a[0]);
      SplitAt(b, j);
      SplitAt(a, 0);
      assert RemoveAt(a, 0) == a[1..];
      CancelOne(multiset(a[1..]), multiset(RemoveAt(b, j)), a[0]);
      CancelOne(multiset(RemoveAt(b, j)), multiset(a[1..]), a[0]);
      AmountsPermutation(a[1..], RemoveAt(b, j));
      AmountsRemove(b, j);
      AmountsRemove(a, 0);
      hide Amounts;
    }
  }

  /** The listed coins of an asset. */
  function CoinsOf(s: State, asset: AssetId): seq<Coin>
    requires s.swapInputs.Some?
  {
    if asset in s.swapInputs.value then s.swapInputs.value[asset] else []
  }

  lemma CandidateTotal(s: State, d: Details, random: seq<nat>)
    requires s.swapInputs.Some?
    ensures Sum(Amounts(Candidates(s, d, random))) == Unheld(CoinsOf(s, ToSend(s, d).0), s.orders)
  {
    var free := Free(WithAmounts(CoinsOf(s, ToSend(s, d).0)), Reserved(s.orders));
    ShuffledPermutes(free, random);
    AmountsPermutation(Shuffled(free, random), free);
    FreeTotal(CoinsOf(s, ToSend(s, d).0), s.orders);
    hide Sum, Free, Shuffled, Unheld;
  }

  /** The order failed and was answered so; the server is told while connected. */
  ghost predicate Refused(s: State, t: State, orderId: OrderId, reply: ReplyId) {
    && t.orders == s.orders[orderId := Failed] && t.answers == s.answers + [(reply, NotInputs)]
    && t.sent == s.sent + (if s.wsConnected then [Cancel(orderId)] else [])
    && t.async == s.async
  }

  /** The order holds its coins, they are sent, and the reply waits for the server. */
  ghost predicate TakenOn(s: State, t: State, orderId: OrderId, cb: Callback, coins: seq<Coin>, amount: int) {
    && orderId in t.orders && t.orders[orderId].Active? && t.orders == s.orders[orderId := t.orders[orderId]]
    && PaysExactly(coins, t.orders[orderId].held, amount)
    && t.sent == s.sent + [PsetMaker(orderId, t.orders[orderId].held)]
    && t.answers == s.answers && t.async == s.async[s.nextId := cb]
  }

  lemma CoveredExactly(s: State, d: Details, random: seq<nat>)
    requires s.swapInputs.Some? && ToSend(s, d).1 > 0
    ensures Covered(s, d, random) <==> Unheld(CoinsOf(s, ToSend(s, d).0), s.orders) >= ToSend(s, d).1
  {
    hide Sum, Candidates, SelectionOfCoins, Unheld;
    CandidateTotal(s, d, random);
    if Sum(Amounts(Candidates(s, d, random))) >= ToSend(s, d).1 {
      SelectionSucceeds(s, d, random);
    }
  }

  lemma NotCovered(s: State, orderId: OrderId, d: Details, order: NewOrder, reply: ReplyId, random: seq<nat>)
    requires s.swapInputs.None? || (ToSend(s, d).1 > 0 && !Covered(s, d, random))
    ensures var o := ProcessSubmitInputs(s, orderId, d, order, reply, random);
            o.Next? && Refused(s, o.state, orderId, reply)
  {
    hide MakeAsyncRequest, Candidates, SelectionOfCoins, Sum, Payloads;
    if s.swapInputs.Some? && Sum(Amounts(Candidates(s, d, random))) >= ToSend(s, d).1 {
      SelectionSucceeds(s, d, random);
    }
  }

  lemma CoveredIs(s: State, orderId: OrderId, d: Details, order: NewOrder, reply: ReplyId, random: seq<nat>)
    requires Covered(s, d, random)
    ensures ProcessSubmitInputs(s, orderId, d, order, reply, random) ==
            MakeAsyncRequest(Reserving(s, orderId, Chosen(s, d, random)), PsetMaker(orderId, Chosen(s, d, random)),
                             PsetSent(orderId, d, order.uniqueKey, reply))
  {
    hide MakeAsyncRequest, Candidates, SelectionOfCoins, Sum, Amounts, Payloads;
  }

  lemma ReservedOrRefused(s: State, orderId: OrderId, held: seq<OutPoint>, cb: Callback)
    requires cb.PsetSent? && cb.orderId == orderId
    ensures var o := MakeAsyncRequest(Reserving(s, orderId, held), PsetMaker(orderId, held), cb);
            && o.Next?
            && (!s.wsConnected ==> Refused(s, o.state, orderId, cb.reply))
            && (s.wsConnected ==>
                  && o.state.orders == s.orders[orderId := Active(held)] && o.state.answers == s.answers
                  && o.state.sent == s.sent + [PsetMaker(orderId, held)]
                  && o.state.async == s.async[s.nextId := cb])
  {
    if !s.wsConnected {
      FailedContinuation(Reserving(s, orderId, held), cb);
      assert s.sent + [] == s.sent;
    }
  }

  /** The server has accepted a submission. With coins listed and something to send, the order is taken
      exactly if the worker is connected and the listed coins of the asset it sends that no order holds
      reach the amount: bitcoin and fee when it sells bitcoin, otherwise the asset amount. If it is not
      taken, or no coins are listed, it has failed and is answered so. */
  lemma SubmittedExactly(s: State, orderId: OrderId, d: Details, order: NewOrder, reply: ReplyId, random: seq<nat>)
    requires s.swapInputs.Some? ==> (if d.sendBitcoins then d.bitcoinAmount + d.serverFee else d.assetAmount) > 0
    ensures var o := ProcessSubmitInputs(s, orderId, d, order, reply, random);
            var asset := if d.sendBitcoins then s.policyAsset else d.asset;
            var amount := if d.sendBitcoins then d.bitcoinAmount + d.serverFee else d.assetAmount;
            && o.Next?
            && if s.swapInputs.Some? && s.wsConnected && Unheld(CoinsOf(s, asset), s.orders) >= amount then
                 TakenOn(s, o.state, orderId, PsetSent(orderId, d, order.uniqueKey, reply), CoinsOf(s, asset), amount)
               else Refused(s, o.state, orderId, reply)
  {
    hide ProcessSubmitInputs, Covered, Chosen, MakeAsyncRequest, Unheld, PaysExactly;
    if s.swapInputs.Some? {
      CoveredExactly(s, d, random);
      if Covered(s, d, random) {
        CoveredIs(s, orderId, d, order, reply, random);
        ChosenPays(s, d, random);
        ReservedOrRefused(s, orderId, Chosen(s, d, random), PsetSent(orderId, d, order.uniqueKey, reply));
      } else {
        NotCovered(s, orderId, d, order, reply, random);
      }
    } else {
      NotCovered(s, orderId, d, order, reply, random);
    }
  }

  /** The same of the response to a pending submission. */
  lemma SubmitResponseExactly(s: State, k: RequestId, order: NewOrder, reply: ReplyId, orderId: OrderId, d: Details,
                              random: seq<nat>)
    requires k in s.async && s.async[k] == Submitted(order, reply)
    requires s.swapInputs.Some? ==> (if d.sendBitcoins then d.bitcoinAmount + d.serverFee else d.assetAmount) > 0
    ensures var o := Handle(s, WsResponse(Some(k), Ok(SubmitResp(orderId, d)), random));
            var t := s.(async := s.async - {k});
            var asset := if d.sendBitcoins then s.policyAsset else d.asset;
            var amount := if d.sendBitcoins then d.bitcoinAmount + d.serverFee else d.assetAmount;
            && o.Next?
            && if s.swapInputs.Some? && s.wsConnected && Unheld(CoinsOf(s, asset), s.orders) >= amount then
                 TakenOn(t, o.state, orderId, PsetSent(orderId, d, order.uniqueKey, reply), CoinsOf(s, asset), amount)
               else Refused(t, o.state, orderId, reply)
  {
    var m := WsResponse(Some(k), Ok(SubmitResp(orderId, d)), random);
    var u := TakenOut(s, m);
    SubmittedExactly(u, orderId, d, order, reply, random);
    assert Handle(s, m) == ProcessSubmitInputs(u, orderId, d, order, reply, random);
    hide ProcessSubmitInputs, Unheld, PaysExactly, Handle;
  }

  // ---- the other answers and requests ----------------------------------------------------------------

  /** A new order is refused while more than five signatures are in flight; otherwise it is submitted
      and its reply waits, or without a connection it is answered with an error. */
  lemma NewOrderExactly(s: State, order: NewOrder, reply: ReplyId)
    ensures var o := Handle(s, ApiNewOrder(order, reply));
            && o.Next? && o.state.orders == s.orders
            && (s.signCount >= 6 ==>
                  o.state.answers == s.answers + [(reply, TooManyRequest)] && o.state.sent == s.sent && o.state.async == s.async)
            && (s.signCount <= 5 && s.wsConnected ==>
                  && o.state.answers == s.answers && o.state.sent == s.sent + [Submit(order)]
                  && o.state.async == s.async[s.nextId := Submitted(order, reply)])
            && (s.signCount <= 5 && !s.wsConnected ==>
                  o.state.answers == s.answers + [(reply, ServerError)] && o.state.sent == s.sent && o.state.async == s.async)
  {
    FailedContinuation(Received(s, reply), Submitted(order, reply));
    ErrLedger(Received(s, reply), Submitted(order, reply));
    assert s.sent + [] == s.sent;
  }

  /** The server has confirmed the coins of an order: the order is accepted, recorded under its key and
      reported, unless the key belongs to an order that is active or completed. Then it is cancelled. */
  lemma ConfirmedExactly(s: State, k: RequestId, orderId: OrderId, d: Details, key: Option<string>, reply: ReplyId)
    requires k in s.async && s.async[k] == PsetSent(orderId, d, key, reply)
    ensures var o := Handle(s, WsResponse(Some(k), Ok(PsetMakerResp), []));
            var taken := key.Some? && key.value in s.uniqueOrders && s.uniqueOrders[key.value] in s.orders
                         && (s.orders[s.uniqueOrders[key.value]].Active? || s.orders[s.uniqueOrders[key.value]].Succeed?);
            && o.Next? && o.state.async == s.async - {k}
            && (taken ==>
                  && o.state.answers == s.answers + [(reply, DuplicatedOrder)]
                  && o.state.orders == s.orders[orderId := Failed] && o.state.uniqueOrders == s.uniqueOrders
                  && o.state.sent == s.sent + (if s.wsConnected then [Cancel(orderId)] else []))
            && (!taken ==>
                  && o.state.answers == s.answers + [(reply, Created(orderId, d))]
                  && o.state.orders == s.orders && o.state.sent == s.sent
                  && o.state.uniqueOrders == if key.Some? then s.uniqueOrders[key.value := orderId] else s.uniqueOrders)
  {
    assert s.sent + [] == s.sent;
  }

  /** Each signed transaction leads to one Sign request for its order, or to its cancellation while
      there is no connection; each failure to sign cancels the order. */
  lemma WalletRepliesExactly(s: State, orderId: OrderId)
    requires s.signCount > 0
    ensures var o := Handle(s, WalletSignedPset(orderId));
            && o.Next? && o.state.answers == s.answers && o.state.signCount == s.signCount - 1
            && (s.wsConnected ==>
                  && o.state.sent == s.sent + [Sign(orderId)] && o.state.orders == s.orders
                  && o.state.async == s.async[s.nextId := SignSent(orderId)])
            && (!s.wsConnected ==> o.state.sent == s.sent && o.state.orders == s.orders[orderId := Failed])
    ensures var o := Handle(s, WalletSignFailed(orderId));
            && o.Next? && o.state.answers == s.answers && o.state.signCount == s.signCount - 1
            && o.state.orders == s.orders[orderId := Failed]
            && o.state.sent == s.sent + (if s.wsConnected then [Cancel(orderId)] else [])
  {
    FailedContinuation(s.(signCount := s.signCount - 1), SignSent(orderId));
    assert s.sent + [] == s.sent;
  }

  function Cancels(ids: seq<OrderId>): seq<ServerRequest> {
    if ids == [] then [] else [Cancel(ids[0])] + Cancels(ids[1..])
  }

  lemma {:induction false} CancelAllSends(s: State, ids: seq<OrderId>)
    ensures var t := CancelAll(s, ids);
            && t.sent == s.sent + (if s.wsConnected then Cancels(ids) else [])
            && t.orders.Keys == s.orders.Keys + (set id | id in ids)
            && forall o :: o in t.orders ==> t.orders[o] == if o in ids then Failed else s.orders[o]
    decreases |ids|
  {
    if ids == [] {
      assert s.sent + [] == s.sent;
    } else {
      var u := CancelOrder(s, ids[0]);
      CancelAllSends(u, ids[1..]);
      assert forall o :: o in ids <==> o == ids[0] || o in ids[1..];
      hide CancelAll;
      assert s.sent + [Cancel(ids[0])] + Cancels(ids[1..]) == s.sent + ([Cancel(ids[0])] + Cancels(ids[1..]));
    }
  }

  /** A connection is answered with a login, and the login cancels exactly the orders the server lists. */
  lemma LoginExactly(s: State, k: RequestId, active: seq<OrderId>)
    ensures var o := Handle(s, WsConnected);
            o.Next? && o.state.wsConnected && o.state.sent == s.sent + [Login] &&
            o.state.async == s.async[s.nextId := LoginDone] && o.state.orders == s.orders
    ensures k in s.async && s.async[k] == LoginDone ==>
              var o := Handle(s, WsResponse(Some(k), Ok(LoginResp(active)), []));
              && o.Next? && o.state.answers == s.answers
              && o.state.sent == s.sent + (if s.wsConnected then Cancels(active) else [])
              && o.state.orders.Keys == s.orders.Keys + (set id | id in active)
              && forall o1 :: o1 in o.state.orders ==>
                   o.state.orders[o1] == if o1 in active then Failed else s.orders[o1]
  {
    if k in s.async && s.async[k] == LoginDone {
      var m := WsResponse(Some(k), Ok(LoginResp(active)), []);
      CancelAllSends(TakenOut(s, m), active);
      CancelAllSide(TakenOut(s, m), active);
      hide CancelAll, Cancels;
    }
  }

  /** The other messages: coins listed by the wallet replace the list; a removal fails a known order that
      is not active; a completion with a transaction completes an active order with its coins, one
      without fails it; a signing request is passed on to the wallet and counted. */
  lemma NotificationsExactly(s: State, o: OrderId, txid: Txid, utxos: map<AssetId, seq<Coin>>)
    ensures Handle(s, WalletSwapInputs(utxos)) == Next(s.(swapInputs := Some(utxos)))
    ensures Handle(s, WsOrderRemoved(o)) ==
            Next(if o in s.orders && (s.orders[o].Succeed? || s.orders[o].Failed?) then s.(orders := s.orders[o := Failed])
                 else s)
    ensures Handle(s, WsComplete(o, None)) == Next(s.(orders := s.orders[o := Failed]))
    ensures o in s.orders && s.orders[o].Active? ==>
              var r := Handle(s, WsComplete(o, Some(txid)));
              && r.Next? && r.state.orders == s.orders[o := Succeed(s.orders[o].held, txid)]
              && r.state.past.completed == s.past.completed + {o} && r.state.sent == s.sent
    ensures Handle(s, WsSign(o)) == Next(s.(walletQueue := s.walletQueue + [o], signCount := s.signCount + 1))
    ensures Handle(s, WsOther) == Next(s)
  {
    assert o in s.orders && s.orders[o].Failed? ==> s.orders[o := Failed] == s.orders;
  }

  /** A confirmed signature changes nothing but that its request is no longer pending. */
  lemma SignConfirmedExactly(s: State, k: RequestId, o: OrderId)
    requires k in s.async && s.async[k] == SignSent(o)
    ensures var r := Handle(s, WsResponse(Some(k), Ok(SignResp), []));
            && r.Next? && r.state.async == s.async - {k} && r.state.orders == s.orders
            && r.state.answers == s.answers && r.state.sent == s.sent
  {
  }

  lemma {:induction false} FailAllSends(s: State, pending: map<RequestId, Callback>, listing: seq<RequestId>)
    requires !s.wsConnected && forall k :: k in listing ==> k in pending
    ensures var r := FailAll(s, pending, listing); r.Next? && r.state.sent == s.sent && !r.state.wsConnected
    ensures var r := FailAll(s, pending, listing);
            forall o :: o in r.state.orders ==>
              o in s.orders || exists i :: 0 <= i < |listing| && CancelsOnError(pending[listing[i]], o)
    decreases |listing|
  {
    if listing != [] {
      var k := listing[0];
      var t := Entered(s, k, pending[k]);
      FailedContinuation(t, pending[k]);
      ErrBalance(t, pending[k], 0);
      assert s.sent + [] == s.sent;
      hide RunCallback, Balance;
      var u := RunStored(s, k, pending[k], Err, []).state;
      FailAllSends(u, pending, listing[1..]);
      forall o | o in FailAll(s, pending, listing).state.orders && o !in s.orders
        ensures exists i :: 0 <= i < |listing| && CancelsOnError(pending[listing[i]], o)
      {
        if o in u.orders {
          assert CancelsOnError(pending[listing[0]], o);
        } else {
          var i :| 0 <= i < |listing[1..]| && CancelsOnError(pending[listing[1..][i]], o);
          assert CancelsOnError(pending[listing[i + 1]], o);
        }
      }
    }
  }

  /** A disconnect asks for a new connection and nothing else; it fails exactly the orders with a pending
      coin list or signature and keeps every other order as it was. */
  lemma DisconnectExactly(s: State, listing: seq<RequestId>, o: OrderId)
    requires Admissible(s, WsDisconnected(listing))
    ensures var r := Handle(s, WsDisconnected(listing));
            && r.Next? && !r.state.wsConnected && r.state.async == map[] && r.state.sent == s.sent + [Connect]
            && (o in s.orders ==>
                  && o in r.state.orders
                  && r.state.orders[o] == if exists k :: k in s.async && CancelsOnError(s.async[k], o) then Failed
                                          else s.orders[o])
  {
    var t := s.(wsConnected := false, async := map[]);
    FailAllSends(t, s.async, listing);
    DisconnectBalance(s, listing, 0);
    if o in s.orders {
      FailAllAt(t, s.async, listing, o);
      ListingCovers(s, listing, o);
    }
    hide FailAll, CancelsOnError, Balance;
  }

  // ---- what a status answer means ----------------------------------------------------------------------

  /** A status request is answered once and changes nothing: completed with its transaction, active, or
      expired when the order has failed or is unknown. */
  lemma StatusExactly(s: State, o: OrderId, reply: ReplyId)
    ensures var r := Handle(s, ApiOrderStatus(o, reply));
            && r.Next? && r.state.orders == s.orders && r.state.sent == s.sent && |r.state.answers| == |s.answers| + 1
            && r.state.answers[..|s.answers|] == s.answers
            && var (who, a) := r.state.answers[|s.answers|];
               && who == reply && a.StatusIs?
               && (a.status.IsActive? <==> o in s.orders && s.orders[o].Active?)
               && (a.status.IsSucceed? <==> o in s.orders && s.orders[o].Succeed?)
               && (a.status.IsSucceed? ==> a.status.txid == s.orders[o].txid)
  {
  }

  /** Nothing becomes completed. */
  ghost predicate NoNewSuccess(s: State, t: State) {
    forall o :: Completed(t, o) ==> Completed(s, o) && t.orders[o] == s.orders[o]
  }

  lemma {:induction false} CancelAllNoSuccess(s: State, ids: seq<OrderId>)
    ensures NoNewSuccess(s, CancelAll(s, ids))
    decreases |ids|
  {
    if ids != [] {
      CancelAllNoSuccess(CancelOrder(s, ids[0]), ids[1..]);
    }
  }

  lemma ErrNoSuccess(s: State, cb: Callback)
    ensures var r := RunCallback(s, cb, Err, []); r.Next? && NoNewSuccess(s, r.state)
  {
    FailedContinuation(s, cb);
    hide RunCallback;
  }

  lemma AsyncNoSuccess(s: State, req: ServerRequest, cb: Callback)
    ensures var r := MakeAsyncRequest(s, req, cb); r.Next? && NoNewSuccess(s, r.state)
  {
    ErrNoSuccess(s, cb);
    hide RunCallback;
  }

  lemma RunNoSuccess(s: State, cb: Callback, res: ServerResult, random: seq<nat>)
    ensures var r := RunCallback(s, cb, res, random); r.Next? ==> NoNewSuccess(s, r.state)
  {
    hide ProcessSubmitInputs, CancelAll, Covered, Chosen, MakeAsyncRequest;
    if cb.Submitted? && res.Ok? && res.resp.SubmitResp? {
      var orderId, d := res.resp.orderId, res.resp.details;
      SubmitOutcome(s, orderId, d, cb.order, cb.reply, random);
      if Covered(s, d, random) {
        var held := Chosen(s, d, random);
        AsyncNoSuccess(Reserving(s, orderId, held), PsetMaker(orderId, held),
                       PsetSent(orderId, d, cb.order.uniqueKey, cb.reply));
      }
    } else if cb.LoginDone? && res.Ok? && res.resp.LoginResp? {
      CancelAllNoSuccess(s, res.resp.active);
    }
  }

  lemma {:induction false} FailAllNoSuccess(s: State, pending: map<RequestId, Callback>, listing: seq<RequestId>)
    ensures var r := FailAll(s, pending, listing); r.Next? ==> NoNewSuccess(s, r.state)
    decreases |listing|
  {
    if listing != [] && listing[0] in pending {
      var k := listing[0];
      ErrNoSuccess(Entered(s, k, pending[k]), pending[k]);
      hide RunCallback;
      FailAllNoSuccess(RunStored(s, k, pending[k], Err, []).state, pending, listing[1..]);
    }
  }

  /** An order becomes completed only by a completion that names its transaction. */
  lemma BecomesCompleted(s: State, m: Message, o: OrderId)
    requires Handle(s, m).Next? && !Completed(s, o) && Completed(Handle(s, m).state, o)
    ensures m.WsComplete? && m.orderId == o && m.txid == Some(Handle(s, m).state.orders[o].txid)
  {
    if !m.WsComplete? {
      HandleNoSuccess(s, m);
      assert false;
    }
  }

  lemma HandleNoSuccess(s: State, m: Message)
    requires Handle(s, m).Next? && !m.WsComplete?
    ensures NoNewSuccess(s, Handle(s, m).state)
  {
    hide FailAll, RunCallback, MakeAsyncRequest;
    match m
    case ApiNewOrder(order, reply) => AsyncNoSuccess(Received(s, reply), Submit(order), Submitted(order, reply));
    case WalletSignedPset(id) => AsyncNoSuccess(s.(signCount := s.signCount - 1), Sign(id), SignSent(id));
    case WsConnected => AsyncNoSuccess(s.(wsConnected := true), Login, LoginDone);
    case WsDisconnected(listing) => FailAllNoSuccess(s.(wsConnected := false, async := map[]), s.async, listing);
    case WsResponse(id, res, random) =>
      if Answers(s, m) {
        RunNoSuccess(TakenOut(s, m), s.async[id.value], res, random);
      }
    case _ =>
  }

  /** The worker handles the completion of the order with the transaction. */
  ghost predicate CompletesAt(run: seq<System>, i: nat, o: OrderId, txid: Txid)
    requires i < |run| - 1
  {
    Works(run[i], run[i + 1], true) && run[i].inbox[0] == WsComplete(o, Some(txid))
  }

  lemma CompletionCompletes(run: seq<System>, i: nat, o: OrderId, txid: Txid)
    requires i < |run| - 1 && CompletesAt(run, i, o, txid)
    ensures Completed(run[i + 1].worker, o) && run[i + 1].worker.orders[o].txid == txid
  {
  }

  lemma NewlyCompleted(a: System, b: System, o: OrderId)
    requires Step(a, b, true) && !Completed(a.worker, o) && Completed(b.worker, o)
    ensures Works(a, b, true) && a.inbox[0] == WsComplete(o, Some(b.worker.orders[o].txid))
  {
    hide Handle, Fresh, Admissible;
    if Works(a, b, true) {
      BecomesCompleted(a.worker, a.inbox[0], o);
    }
  }

  lemma {:induction false} CompletionStep(run: seq<System>, policyAsset: AssetId, n: nat, o: OrderId) returns (i: nat)
    requires Run(run, policyAsset, true) && n < |run| && Completed(run[n].worker, o)
    ensures i < n && CompletesAt(run, i, o, run[n].worker.orders[o].txid) && LeftAlone(run, i + 1, n, o)
    decreases n
  {
    hide Step, Works, UndoneAt;
    if n == 0 {
      assert false;
    } else if Completed(run[n - 1].worker, o) {
      StepAt(run[n - 1], run[n], o);
      i := CompletionStep(run, policyAsset, n - 1, o);
      LeftAloneLonger(run, i + 1, n - 1, o);
    } else {
      NewlyCompleted(run[n - 1], run[n], o);
      i := n - 1;
      assert CompletesAt(run, i, o, run[n].worker.orders[o].txid);
    }
  }

  lemma LeftAloneLonger(run: seq<System>, i: nat, j: nat, o: OrderId)
    requires j < |run| - 1 && LeftAlone(run, i, j, o) && !UndoneAt(run[j], run[j + 1], o)
    ensures LeftAlone(run, i, j + 1, o)
  {
    hide UndoneAt;
    assert !UndoneIn(run, j, o);
  }

  ghost predicate CompletedAndLeft(run: seq<System>, n: nat, o: OrderId, txid: Txid)
    requires n < |run|
  {
    exists i :: 0 <= i < n && CompletesAt(run, i, o, txid) && LeftAlone(run, i + 1, n, o)
  }

  /** In a run without reused order ids a status request is answered with a transaction exactly if the
      server completed the order with it and no message has undone that since. */
  lemma StatusTellsCompletion(run: seq<System>, policyAsset: AssetId, n: nat, o: OrderId, txid: Txid, reply: ReplyId)
    requires Run(run, policyAsset, true) && n < |run|
    ensures var s := run[n].worker;
            Handle(s, ApiOrderStatus(o, reply)).Next? &&
            (Handle(s, ApiOrderStatus(o, reply)).state.answers == s.answers + [(reply, StatusIs(IsSucceed(txid)))]
             <==> CompletedAndLeft(run, n, o, txid))
  {
    var s := run[n].worker;
    StatusAnswers(s, o, reply, txid);
    hide Handle, Run, Step, Works, UndoneAt, LeftAlone, CompletesAt;
    if Completed(s, o) && s.orders[o].txid == txid {
      var i := CompletionStep(run, policyAsset, n, o);
      assert CompletedAndLeft(run, n, o, txid);
    }
    if CompletedAndLeft(run, n, o, txid) {
      var i :| 0 <= i < n && CompletesAt(run, i, o, txid) && LeftAlone(run, i + 1, n, o);
      CompletionCompletes(run, i, o, txid);
      CompletedOverRuns(run, policyAsset, i + 1, n, o);
    }
  }

  lemma StatusAnswers(s: State, o: OrderId, reply: ReplyId, txid: Txid)
    ensures Handle(s, ApiOrderStatus(o, reply)).Next?
    ensures Handle(s, ApiOrderStatus(o, reply)).state.answers == s.answers + [(reply, StatusIs(IsSucceed(txid)))]
            <==> Completed(s, o) && s.orders[o].txid == txid
  {
    var a := (reply, StatusIs(StatusOf(s.orders, o)));
    assert (s.answers + [a])[|s.answers|] == a;
    var b := (reply, StatusIs(IsSucceed(txid)));
    assert (s.answers + [b])[|s.answers|] == b;
  }
}
