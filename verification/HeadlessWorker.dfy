/** The worker as the program writes it: an object whose handlers update its fields. Every
    handler is proved to do what the state functions of the server model say, and the worker keeps
    the invariants of the model. */
module HeadlessWorker {
  import opened Sequences
  import opened CoinSelection
  import opened Shuffle
  import opened HeadlessServer
  import opened HeadlessSafety

  class Worker {
    const policyAsset: AssetId
    var wsConnected: bool
    var nextId: RequestId
    var async: map<RequestId, Callback>
    var sent: seq<ServerRequest>
    var walletQueue: seq<OrderId>
    var orders: map<OrderId, OrderState>
    var swapInputs: Option<map<AssetId, seq<Coin>>>
    var uniqueOrders: map<string, OrderId>
    var signCount: nat
    var answers: seq<(ReplyId, Answer)>
    ghost var past: History

    ghost function Current(): State
      reads this
    {
      State(policyAsset, wsConnected, nextId, async, sent, walletQueue, orders, swapInputs,
            uniqueOrders, signCount, answers, past)
    }

    /** The invariant of the model; with `newIds` the server has not reused an order id so far. */
    ghost predicate Valid(newIds: bool)
      reads this
    {
      WorkerInv(Current(), newIds)
    }

    constructor (policyAsset: AssetId)
      ensures Current() == Init(policyAsset) && Valid(true) && Valid(false)
    {
      this.policyAsset := policyAsset;
      wsConnected, nextId, async, sent, walletQueue := false, 0, map[], [Connect], [];
      orders, swapInputs, uniqueOrders, signCount, answers := map[], None, map[], 0, [];
      past := History(multiset{}, {}, map[], multiset{}, {});
      new;
      InitInv(policyAsset);
    }

    method Send(req: ServerRequest)
      modifies this
      ensures Current() == SendRequest(old(Current()), req)
    {
      if wsConnected {
        sent := sent + [req];
        nextId := nextId + 1;
      }
    }

    method Answer(reply: ReplyId, a: Answer)
      modifies this
      ensures Current() == AnswerTo(old(Current()), reply, a)
    {
      answers := answers + [(reply, a)];
    }

    method Cancel(orderId: OrderId)
      modifies this
      ensures Current() == CancelOrder(old(Current()), orderId)
    {
      orders := orders[orderId := Failed];
      Send(ServerRequest.Cancel(orderId));
    }

    method CancelEach(ids: seq<OrderId>)
      modifies this
      ensures Current() == CancelAll(old(Current()), ids)
    {
      var k := 0;
      assert ids[0..] == ids;
      while k < |ids|
        invariant 0 <= k <= |ids|
        invariant CancelAll(Current(), ids[k..]) == CancelAll(old(Current()), ids)
      {
        assert ids[k..][1..] == ids[k + 1..];
        Cancel(ids[k]);
        k := k + 1;
      }
    }

    /** `ok == false` is a panic. */
    method MakeRequest(req: ServerRequest, cb: Callback) returns (ok: bool)
      modifies this
      ensures var o := MakeAsyncRequest(old(Current()), req, cb);
              ok == o.Next? && (ok ==> Current() == o.state)
      decreases cb.Submitted?, 1
    {
      if !wsConnected {
        ok := Call(cb, Err, []);
        return;
      }
      sent := sent + [req];
      async := async[nextId := cb];
      past := past.(stored := past.stored[nextId := cb]);
      nextId := nextId + 1;
      ok := true;
    }

    method Call(cb: Callback, res: ServerResult, random: seq<nat>) returns (ok: bool)
      modifies this
      ensures var o := RunCallback(old(Current()), cb, res, random);
              ok == o.Next? && (ok ==> Current() == o.state)
      decreases cb.Submitted?, 0
    {
      ok := true;
      match cb {
        case LoginDone =>
          if res.Ok? {
            if !res.resp.LoginResp? {
              return false;
            }
            CancelEach(res.resp.active);
          }
        case Submitted(order, reply) =>
          if res.Err? {
            Answer(reply, ServerError);
          } else if res.resp.SubmitResp? {
            ok := SubmitInputs(res.resp.orderId, res.resp.details, order, reply, random);
          } else {
            return false;
          }
        case PsetSent(orderId, details, uniqueKey, reply) =>
          if res.Err? {
            Cancel(orderId);
            Answer(reply, NotInputs);
          } else if res.resp.PsetMakerResp? {
            Accept(orderId, details, uniqueKey, reply);
          } else {
            return false;
          }
        case SignSent(orderId) =>
          if res.Err? {
            Cancel(orderId);
          } else if !res.resp.SignResp? {
            return false;
          }
      }
    }

    method SubmitInputs(orderId: OrderId, details: Details, order: NewOrder, reply: ReplyId,
                        random: seq<nat>) returns (ok: bool)
      modifies this
      ensures var o := ProcessSubmitInputs(old(Current()), orderId, details, order, reply, random);
              ok == o.Next? && (ok ==> Current() == o.state)
      decreases false, 2
    {
      hide Sum, Amounts, SelectionOfCoins, Payloads, Free, Shuffled, Reserved, WithAmounts, RunCallback;
      if swapInputs.None? {
        Cancel(orderId);
        Answer(reply, NotInputs);
        return true;
      }
      var sendAsset, sendAmount := details.asset, details.assetAmount;
      if details.sendBitcoins {
        sendAsset, sendAmount := policyAsset, details.bitcoinAmount + details.serverFee;
      }
      var reserved := Reserved(orders);
      var coins := if sendAsset in swapInputs.value then swapInputs.value[sendAsset] else [];
      var inputs := Shuffled(Free(WithAmounts(coins), reserved), random);
      assert inputs == Candidates(Current(), details, random);
      if Sum(Amounts(inputs)) < sendAmount {
        Cancel(orderId);
        Answer(reply, NotInputs);
        return true;
      }
      if sendAmount <= 0 {
        return false;
      }
      var utxos := SelectUtxoValues(inputs, sendAmount);
      if utxos.None? {
        return false;
      }
      orders := orders[orderId := Active(utxos.value)];
      ok := MakeRequest(PsetMaker(orderId, utxos.value),
                        PsetSent(orderId, details, order.uniqueKey, reply));
    }

    method Accept(orderId: OrderId, details: Details, uniqueKey: Option<string>, reply: ReplyId)
      modifies this
      ensures Current() == AcceptOrder(old(Current()), orderId, details, uniqueKey, reply)
    {
      if uniqueKey.Some? {
        if uniqueKey.value in uniqueOrders {
          var existing := uniqueOrders[uniqueKey.value];
          var isAllowed := if existing in orders then orders[existing].Failed? else true;
          if !isAllowed {
            Answer(reply, DuplicatedOrder);
            Cancel(orderId);
            return;
          }
        }
        uniqueOrders := uniqueOrders[uniqueKey.value := orderId];
        past := past.(accepted := past.accepted + {(uniqueKey.value, orderId)});
      }
      Answer(reply, Created(orderId, details));
    }

    method FailPending(pending: map<RequestId, Callback>, listing: seq<RequestId>) returns (ok: bool)
      modifies this
      ensures var o := FailAll(old(Current()), pending, listing);
              ok == o.Next? && (ok ==> Current() == o.state)
    {
      hide RunCallback;
      var k := 0;
      assert listing[0..] == listing;
      while k < |listing|
        invariant 0 <= k <= |listing|
        invariant FailAll(Current(), pending, listing[k..]) == FailAll(old(Current()), pending, listing)
      {
        assert listing[k..][1..] == listing[k + 1..];
        if listing[k] !in pending {
          return false;
        }
        past := past.(ran := past.ran + multiset{(listing[k], pending[listing[k]])});
        var called := Call(pending[listing[k]], Err, []);
        if !called {
          return false;
        }
        k := k + 1;
      }
      ok := true;
    }

    /** `process_api` */
    method ProcessApi(m: Message) returns (ok: bool)
      requires m.ApiNewOrder? || m.ApiOrderStatus?
      modifies this
      ensures var o := Handle(old(Current()), m);
              ok == o.Next? && (ok ==> Current() == o.state)
    {
      hide RunCallback, MakeAsyncRequest, FailAll;
      ok := true;
      match m {
        case ApiNewOrder(order, reply) =>
          past := past.(handled := past.handled + multiset{reply});
          if signCount > 5 {
            Answer(reply, TooManyRequest);
          } else {
            ok := MakeRequest(Submit(order), Submitted(order, reply));
          }
        case ApiOrderStatus(orderId, reply) =>
          past := past.(handled := past.handled + multiset{reply});
          Answer(reply, StatusIs(StatusOf(orders, orderId)));
      }
    }

    /** `process_wallet` */
    method ProcessWallet(m: Message) returns (ok: bool)
      requires m.WalletSwapInputs? || m.WalletSignedPset? || m.WalletSignFailed?
      modifies this
      ensures var o := Handle(old(Current()), m);
              ok == o.Next? && (ok ==> Current() == o.state)
    {
      hide RunCallback, MakeAsyncRequest, FailAll;
      ok := true;
      match m {
        case WalletSwapInputs(utxos) =>
          swapInputs := Some(utxos);
        case WalletSignedPset(orderId) =>
          if signCount == 0 {
            return false;
          }
          signCount := signCount - 1;
          ok := MakeRequest(Sign(orderId), SignSent(orderId));
        case WalletSignFailed(orderId) =>
          if signCount == 0 {
            return false;
          }
          signCount := signCount - 1;
          Cancel(orderId);
      }
    }

    /** The connection half of `process_ws`. */
    method ProcessConnection(m: Message) returns (ok: bool)
      requires m.WsConnected? || m.WsDisconnected? || m.WsResponse?
      modifies this
      ensures var o := Handle(old(Current()), m);
              ok == o.Next? && (ok ==> Current() == o.state)
    {
      hide RunCallback, MakeAsyncRequest, FailAll;
      ok := true;
      match m {
        case WsConnected =>
          wsConnected := true;
          ok := MakeRequest(Login, LoginDone);
        case WsDisconnected(listing) =>
          wsConnected := false;
          var pending := async;
          async := map[];
          ok := FailPending(pending, listing);
          sent := sent + [Connect];
        case WsResponse(requestId, res, random) =>
          if requestId.None? {
            return false;
          }
          if requestId.value in async {
            var cb := async[requestId.value];
            async := async - {requestId.value};
            past := past.(ran := past.ran + multiset{(requestId.value, cb)});
            ok := Call(cb, res, random);
          }
      }
    }

    /** The notification half of `process_ws`. */
    method ProcessNotification(m: Message) returns (ok: bool)
      requires m.WsOrderRemoved? || m.WsComplete? || m.WsSign? || m.WsOther?
      modifies this
      ensures var o := Handle(old(Current()), m);
              ok == o.Next? && (ok ==> Current() == o.state)
    {
      hide RunCallback, MakeAsyncRequest, FailAll;
      ok := true;
      match m {
        case WsOrderRemoved(orderId) =>
          if orderId in orders && !orders[orderId].Active? {
            orders := orders[orderId := Failed];
          }
        case WsComplete(orderId, txid) =>
          if txid.None? {
            orders := orders[orderId := Failed];
          } else if orderId in orders && orders[orderId].Active? {
            var held := orders[orderId].held;
            orders := orders[orderId := Succeed(held, txid.value)];
            past := past.(completed := past.completed + {orderId});
          } else {
            return false;
          }
        case WsSign(orderId) =>
          walletQueue := walletQueue + [orderId];
          signCount := signCount + 1;
        case WsOther =>
      }
    }

    method Dispatch(m: Message) returns (ok: bool)
      modifies this
      ensures var o := Handle(old(Current()), m);
              ok == o.Next? && (ok ==> Current() == o.state)
    {
      hide Handle;
      if m.ApiNewOrder? || m.ApiOrderStatus? {
        ok := ProcessApi(m);
      } else if m.WalletSwapInputs? || m.WalletSignedPset? || m.WalletSignFailed? {
        ok := ProcessWallet(m);
      } else if m.WsConnected? || m.WsDisconnected? || m.WsResponse? {
        ok := ProcessConnection(m);
      } else {
        ok := ProcessNotification(m);
      }
    }

    /** One message of the event loop. The worker keeps its invariant, and it panics exactly when the
        server breaks the protocol or a sign reply arrives that no request was counted for. */
    method Process(m: Message, ghost newIds: bool) returns (ok: bool)
      requires Valid(newIds) && Admissible(Current(), m) && (newIds ==> Fresh(Current(), m))
      modifies this
      ensures ok ==> Valid(newIds)
      ensures ok <==> !old(ServerBreaksProtocol(Current(), m)) && !(IsSignReply(m) && old(signCount) == 0)
      ensures ok ==> Handle(old(Current()), m) == Next(Current())
    {
      hide Handle, WorkerInv;
      WorkerKeepsInv(Current(), m, newIds);
      IdsInOrder(Current(), newIds);
      PanicsExactly(Current(), m);
      ok := Dispatch(m);
    }
  }

  lemma InitInv(policyAsset: AssetId)
    ensures WorkerInv(Init(policyAsset), true) && WorkerInv(Init(policyAsset), false)
  {
    assert forall r :: Holders(map[], r) == {};
  }

  lemma IdsInOrder(s: State, newIds: bool)
    requires WorkerInv(s, newIds)
    ensures IdsBelow(s)
  {
  }
}
