/** How long a completed order of the headless server stays completed, and what a unique key
    guarantees about completions. */
module HeadlessCompletion {
  import opened HeadlessServer
  import opened HeadlessSafety

  predicate Completed(s: State, o: OrderId) {
    o in s.orders && s.orders[o].Succeed?
  }

  // ---- what undoes a completion --------------------------------------------------------------------

  /** The continuation cancels the order when its request fails. */
  predicate CancelsOnError(cb: Callback, o: OrderId) {
    (cb.PsetSent? || cb.SignSent?) && cb.orderId == o
  }

  /** The response cancels or replaces the order: a failed coin list or signature, a login that lists
      it, a submission that reuses its id, or a coin list whose key is taken. */
  predicate AnswerUndoes(s: State, cb: Callback, res: ServerResult, o: OrderId) {
    if res.Err? then CancelsOnError(cb, o)
    else
      match cb
      case LoginDone => res.resp.LoginResp? && o in res.resp.active
      case Submitted(_, _) => res.resp.SubmitResp? && res.resp.orderId == o
      case PsetSent(orderId, _, key, _) =>
        orderId == o && key.Some? && key.value in s.uniqueOrders && Live(s.orders, s.uniqueOrders[key.value])
      case SignSent(_) => false
  }

  /** The messages after which a completed order is not completed any more. */
  ghost predicate Undoes(s: State, m: Message, o: OrderId) {
    match m
    case WsOrderRemoved(id) => id == o
    case WsComplete(id, txid) => id == o && txid.None?
    case WalletSignFailed(id) => id == o
    case WalletSignedPset(id) => id == o && !s.wsConnected
    case WsDisconnected(_) => exists k :: k in s.async && CancelsOnError(s.async[k], o)
    case WsResponse(id, res, _) => Answers(s, m) && AnswerUndoes(s, s.async[id.value], res, o)
    case _ => false
  }

  /** The entry of an order is what it was, or a failure. */
  ghost predicate EntryIs(t: State, s: State, o: OrderId, undone: bool)
    requires o in s.orders
  {
    o in t.orders && t.orders[o] == if undone then Failed else s.orders[o]
  }

  lemma {:induction false} CancelAllAt(s: State, ids: seq<OrderId>, o: OrderId)
    requires Completed(s, o)
    ensures EntryIs(CancelAll(s, ids), s, o, o in ids)
    decreases |ids|
  {
    if ids != [] {
      var t := CancelOrder(s, ids[0]);
      if ids[0] == o {
        FailedByCancelAll(t, ids[1..], o);
      } else {
        CancelAllAt(t, ids[1..], o);
      }
    }
  }

  lemma {:induction false} FailedByCancelAll(s: State, ids: seq<OrderId>, o: OrderId)
    requires o in s.orders && s.orders[o].Failed?
    ensures o in CancelAll(s, ids).orders && CancelAll(s, ids).orders[o].Failed?
    decreases |ids|
  {
    if ids != [] {
      FailedByCancelAll(CancelOrder(s, ids[0]), ids[1..], o);
    }
  }

  lemma AsyncAt(s: State, req: ServerRequest, cb: Callback, o: OrderId)
    requires Completed(s, o)
    ensures var r := MakeAsyncRequest(s, req, cb);
            r.Next? && EntryIs(r.state, s, o, !s.wsConnected && CancelsOnError(cb, o))
  {
    FailedContinuation(s, cb);
  }

  lemma SubmitAt(s: State, orderId: OrderId, d: Details, order: NewOrder, reply: ReplyId, random: seq<nat>,
                 o: OrderId)
    requires Completed(s, o)
    ensures var r := ProcessSubmitInputs(s, orderId, d, order, reply, random);
            r.Next? ==> if orderId == o then !Completed(r.state, o) else EntryIs(r.state, s, o, false)
  {
    hide ProcessSubmitInputs, Covered, Chosen, MakeAsyncRequest;
    SubmitOutcome(s, orderId, d, order, reply, random);
    if Covered(s, d, random) {
      var held := Chosen(s, d, random);
      SentOrFailed(Reserving(s, orderId, held), orderId, held, PsetSent(orderId, d, order.uniqueKey, reply));
    }
  }

  lemma RunAt(s: State, cb: Callback, res: ServerResult, random: seq<nat>, o: OrderId)
    requires Completed(s, o)
    ensures var r := RunCallback(s, cb, res, random);
            r.Next? ==> if AnswerUndoes(s, cb, res, o) then !Completed(r.state, o) else EntryIs(r.state, s, o, false)
  {
    if res.Err? {
      FailedContinuation(s, cb);
    } else {
      match cb
      case LoginDone =>
        if res.resp.LoginResp? {
          CancelAllAt(s, res.resp.active, o);
        }
      case Submitted(order, reply) =>
        if res.resp.SubmitResp? {
          hide ProcessSubmitInputs;
          SubmitAt(s, res.resp.orderId, res.resp.details, order, reply, random, o);
        }
      case PsetSent(_, _, _, _) =>
      case SignSent(_) =>
    }
  }

  lemma {:induction false} FailAllAt(s: State, pending: map<RequestId, Callback>, listing: seq<RequestId>, o: OrderId)
    requires o in s.orders && forall k :: k in listing ==> k in pending
    ensures var r := FailAll(s, pending, listing);
            && r.Next?
            && EntryIs(r.state, s, o, exists i :: 0 <= i < |listing| && CancelsOnError(pending[listing[i]], o))
    decreases |listing|
  {
    if listing != [] {
      var k := listing[0];
      FailedContinuation(Entered(s, k, pending[k]), pending[k]);
      var r := RunStored(s, k, pending[k], Err, []);
      hide RunCallback;
      FailAllAt(r.state, pending, listing[1..], o);
      if exists i :: 0 <= i < |listing[1..]| && CancelsOnError(pending[listing[1..][i]], o) {
        var i :| 0 <= i < |listing[1..]| && CancelsOnError(pending[listing[1..][i]], o);
        assert CancelsOnError(pending[listing[i + 1]], o);
      } else {
        assert forall i :: 1 <= i < |listing| ==> listing[i] == listing[1..][i - 1];
      }
    }
  }

  /** One message, from any state: a completed order stays completed, with its coins and its
      transaction, exactly if the message is not one of those that undo it. */
  lemma CompletedStaysExactly(s: State, m: Message, o: OrderId)
    requires Completed(s, o) && Admissible(s, m)
    ensures var r := Handle(s, m);
            r.Next? ==>
              && (Completed(r.state, o) <==> !Undoes(s, m, o))
              && (!Undoes(s, m, o) ==> r.state.orders[o] == s.orders[o])
  {
    hide RunCallback, MakeAsyncRequest, FailAll, AnswerUndoes;
    match m
    case ApiNewOrder(order, reply) => AsyncAt(Received(s, reply), Submit(order), Submitted(order, reply), o);
    case WalletSignedPset(id) =>
      if s.signCount > 0 {
        AsyncAt(s.(signCount := s.signCount - 1), Sign(id), SignSent(id), o);
      }
    case WsConnected => AsyncAt(s.(wsConnected := true), Login, LoginDone, o);
    case WsDisconnected(listing) =>
      FailAllAt(s.(wsConnected := false, async := map[]), s.async, listing, o);
      ListingCovers(s, listing, o);
    case WsResponse(id, res, random) =>
      if Answers(s, m) {
        SameUndoing(s, m, o);
        RunAt(TakenOut(s, m), s.async[id.value], res, random, o);
      }
    case _ =>
  }

  lemma ListingCovers(s: State, listing: seq<RequestId>, o: OrderId)
    requires forall k :: k in s.async <==> k in listing
    ensures (exists k :: k in s.async && CancelsOnError(s.async[k], o)) <==>
            (exists i :: 0 <= i < |listing| && CancelsOnError(s.async[listing[i]], o))
  {
    if k :| k in s.async && CancelsOnError(s.async[k], o) {
      assert k in listing;
      var i :| 0 <= i < |listing| && listing[i] == k;
      assert CancelsOnError(s.async[listing[i]], o);
    }
    if i :| 0 <= i < |listing| && CancelsOnError(s.async[listing[i]], o) {
      assert listing[i] in s.async;
    }
  }

  lemma SameUndoing(s: State, m: Message, o: OrderId)
    requires Answers(s, m)
    ensures AnswerUndoes(TakenOut(s, m), s.async[m.requestId.value], m.res, o) <==>
            AnswerUndoes(s, s.async[m.requestId.value], m.res, o)
  {
  }

  // ---- over runs -----------------------------------------------------------------------------------

  /** The worker handles a message that undoes the order. */
  ghost predicate UndoneAt(a: System, b: System, o: OrderId) {
    Works(a, b, true) && Undoes(a.worker, a.inbox[0], o)
  }

  lemma StepAt(a: System, b: System, o: OrderId)
    requires Step(a, b, true) && Completed(a.worker, o)
    ensures Completed(b.worker, o) <==> !UndoneAt(a, b, o)
    ensures !UndoneAt(a, b, o) ==> b.worker.orders[o] == a.worker.orders[o]
  {
    hide Handle, Undoes;
    if Works(a, b, true) {
      CompletedStaysExactly(a.worker, a.inbox[0], o);
    }
  }

  /** An order with an entry that is not completed any more: it has failed, or its id was reused. */
  lemma UndoneIsFailed(s: State, m: Message, o: OrderId)
    requires Completed(s, o) && Admissible(s, m) && Fresh(s, m) && Handle(s, m).Next? && Undoes(s, m, o)
    ensures var t := Handle(s, m).state; o in t.orders && t.orders[o].Failed?
  {
    match m
    case WsDisconnected(listing) =>
      FailAllAt(s.(wsConnected := false, async := map[]), s.async, listing, o);
      ListingCovers(s, listing, o);
      hide FailAll;
    case WsResponse(id, res, random) =>
      var cb := s.async[id.value];
      if res.Ok? && cb.LoginDone? {
        CancelAllAt(TakenOut(s, m), res.resp.active, o);
      }
      FailedContinuation(TakenOut(s, m), cb);
    case WalletSignedPset(id) => FailedContinuation(s.(signCount := s.signCount - 1), SignSent(id));
    case _ =>
  }

  lemma RunStep(run: seq<System>, policyAsset: AssetId, n: nat)
    requires Run(run, policyAsset, true) && n < |run| - 1
    ensures Step(run[n], run[n + 1], true)
  {
  }

  ghost predicate UndoneIn(run: seq<System>, n: nat, o: OrderId)
    requires n < |run| - 1
  {
    UndoneAt(run[n], run[n + 1], o)
  }

  /** No message between two states of a run undid the order. */
  ghost predicate LeftAlone(run: seq<System>, i: nat, j: nat, o: OrderId)
    requires j < |run|
  {
    forall n :: i <= n < j ==> !UndoneIn(run, n, o)
  }

  lemma {:induction false} LeftAloneStays(run: seq<System>, policyAsset: AssetId, i: nat, j: nat, o: OrderId)
    requires Run(run, policyAsset, true) && i <= j < |run| && Completed(run[i].worker, o) && LeftAlone(run, i, j, o)
    ensures Completed(run[j].worker, o) && run[j].worker.orders[o] == run[i].worker.orders[o]
    decreases j
  {
    hide UndoneAt, Step;
    if i < j {
      LeftAloneStays(run, policyAsset, i, j - 1, o);
      assert !UndoneIn(run, j - 1, o);
      StepAt(run[j - 1], run[j], o);
    }
  }

  /** The first message that undid the order left it failed. */
  lemma {:induction false} FirstUndone(run: seq<System>, policyAsset: AssetId, i: nat, n: nat, o: OrderId)
    returns (k: nat)
    requires Run(run, policyAsset, true) && i <= n < |run| - 1 && Completed(run[i].worker, o)
    requires UndoneAt(run[n], run[n + 1], o)
    ensures i <= k <= n && o in run[k + 1].worker.orders && run[k + 1].worker.orders[o].Failed?
    decreases n - i
  {
    hide Step, Run, Handle, Undoes, Fresh, Admissible;
    RunStep(run, policyAsset, i);
    StepAt(run[i], run[i + 1], o);
    if UndoneAt(run[i], run[i + 1], o) {
      UndoneIsFailed(run[i].worker, run[i].inbox[0], o);
      k := i;
    } else {
      k := FirstUndone(run, policyAsset, i + 1, n, o);
    }
  }

  /** In a run without reused order ids: a completed order is still completed later exactly if no
      message in between undid it; otherwise it has failed. */
  lemma CompletedOverRuns(run: seq<System>, policyAsset: AssetId, i: nat, j: nat, o: OrderId)
    requires Run(run, policyAsset, true) && i <= j < |run| && Completed(run[i].worker, o)
    ensures o in run[j].worker.orders
    ensures if LeftAlone(run, i, j, o) then run[j].worker.orders[o] == run[i].worker.orders[o]
            else run[j].worker.orders[o].Failed?
  {
    hide UndoneAt, Step, Run;
    if LeftAlone(run, i, j, o) {
      LeftAloneStays(run, policyAsset, i, j, o);
    } else {
      var n :| i <= n < j && UndoneIn(run, n, o);
      var k := FirstUndone(run, policyAsset, i, n, o);
      FailedStaysFailed(run, policyAsset, k + 1, j, o);
    }
  }

  // ---- completions of a key ------------------------------------------------------------------------

  lemma CompletionsRecorded(a: System, b: System, o: OrderId)
    requires Step(a, b, true) && o in b.worker.past.completed && o !in a.worker.past.completed
    ensures Completed(b.worker, o)
  {
    if Works(a, b, true) {
      HandleCompletes(a.worker, a.inbox[0], o);
    }
  }

  lemma HandleCompletes(s: State, m: Message, o: OrderId)
    requires Admissible(s, m) && Handle(s, m).Next?
    requires o in Handle(s, m).state.past.completed && o !in s.past.completed
    ensures Completed(Handle(s, m).state, o)
  {
    if !m.WsComplete? {
      SameCompletions(s, m);
    }
  }

  lemma {:induction false} FailAllCompletions(s: State, pending: map<RequestId, Callback>, listing: seq<RequestId>)
    ensures var r := FailAll(s, pending, listing); r.Next? ==> r.state.past.completed == s.past.completed
    decreases |listing|
  {
    if listing != [] && listing[0] in pending {
      var k := listing[0];
      FailedContinuation(Entered(s, k, pending[k]), pending[k]);
      hide RunCallback;
      FailAllCompletions(RunStored(s, k, pending[k], Err, []).state, pending, listing[1..]);
    }
  }

  lemma {:induction false} CancelAllCompletions(s: State, ids: seq<OrderId>)
    ensures CancelAll(s, ids).past.completed == s.past.completed
    decreases |ids|
  {
    if ids != [] {
      CancelAllCompletions(CancelOrder(s, ids[0]), ids[1..]);
    }
  }

  lemma SubmitCompletions(s: State, orderId: OrderId, d: Details, order: NewOrder, reply: ReplyId, random: seq<nat>)
    ensures var r := ProcessSubmitInputs(s, orderId, d, order, reply, random);
            r.Next? ==> r.state.past.completed == s.past.completed
  {
    hide ProcessSubmitInputs, Covered, Chosen, MakeAsyncRequest;
    SubmitOutcome(s, orderId, d, order, reply, random);
    if Covered(s, d, random) {
      var held := Chosen(s, d, random);
      AsyncCompletions(Reserving(s, orderId, held), PsetMaker(orderId, held),
                       PsetSent(orderId, d, order.uniqueKey, reply));
    }
  }

  lemma AsyncCompletions(s: State, req: ServerRequest, cb: Callback)
    ensures var r := MakeAsyncRequest(s, req, cb);
            r.Next? && r.state.past.completed == s.past.completed
  {
    FailedContinuation(s, cb);
  }

  /** Only a completion completes. */
  lemma SameCompletions(s: State, m: Message)
    requires Handle(s, m).Next? && !m.WsComplete?
    ensures Handle(s, m).state.past.completed == s.past.completed
  {
    hide FailAll, ProcessSubmitInputs, CancelAll, MakeAsyncRequest;
    match m
    case ApiNewOrder(order, reply) => AsyncCompletions(Received(s, reply), Submit(order), Submitted(order, reply));
    case WalletSignedPset(id) => AsyncCompletions(s.(signCount := s.signCount - 1), Sign(id), SignSent(id));
    case WsConnected => AsyncCompletions(s.(wsConnected := true), Login, LoginDone);
    case WsDisconnected(listing) =>
      FailAllCompletions(s.(wsConnected := false, async := map[]), s.async, listing);
    case WsResponse(id, res, random) =>
      if Answers(s, m) {
        var t, cb := TakenOut(s, m), s.async[id.value];
        if cb.Submitted? && res.Ok? && res.resp.SubmitResp? {
          SubmitCompletions(t, res.resp.orderId, res.resp.details, cb.order, cb.reply, random);
        } else if cb.LoginDone? && res.Ok? && res.resp.LoginResp? {
          CancelAllCompletions(t, res.resp.active);
        }
      }
    case _ =>
  }

  /** An order that was ever completed was completed in some state of the run. */
  lemma {:induction false} WhenCompleted(run: seq<System>, policyAsset: AssetId, n: nat, o: OrderId) returns (i: nat)
    requires Run(run, policyAsset, true) && n < |run| && o in run[n].worker.past.completed
    ensures i <= n && Completed(run[i].worker, o)
    decreases n
  {
    if n == 0 {
      assert false;
    } else if o in run[n - 1].worker.past.completed {
      i := WhenCompleted(run, policyAsset, n - 1, o);
    } else {
      RunStep(run, policyAsset, n - 1);
      CompletionsRecorded(run[n - 1], run[n], o);
      i := n;
    }
  }

  /** Two orders of a key that have ever completed are the same order, or one of them was undone after
      it had completed: `i` and `j` are states in which they were completed. */
  lemma OneCompletionPerKey(run: seq<System>, policyAsset: AssetId, n: nat, key: string, a: OrderId, b: OrderId)
    returns (i: nat, j: nat)
    requires Run(run, policyAsset, true) && n < |run|
    requires var past := run[n].worker.past;
             (key, a) in past.accepted && (key, b) in past.accepted && a in past.completed && b in past.completed
    ensures i <= n && Completed(run[i].worker, a) && j <= n && Completed(run[j].worker, b)
    ensures a == b || !LeftAlone(run, i, n, a) || !LeftAlone(run, j, n, b)
    ensures !LeftAlone(run, i, n, a) ==> a in run[n].worker.orders && run[n].worker.orders[a].Failed?
    ensures !LeftAlone(run, j, n, b) ==> b in run[n].worker.orders && run[n].worker.orders[b].Failed?
  {
    hide Run, UndoneAt, Inv;
    i := WhenCompleted(run, policyAsset, n, a);
    j := WhenCompleted(run, policyAsset, n, b);
    CompletedOverRuns(run, policyAsset, i, n, a);
    CompletedOverRuns(run, policyAsset, j, n, b);
    KeysInRun(run, policyAsset, n);
    if Completed(run[n].worker, a) && Completed(run[n].worker, b) {
      OneLiveOrderPerKey(run[n].worker, key, a, b);
    }
  }

  lemma KeysInRun(run: seq<System>, policyAsset: AssetId, n: nat)
    requires Run(run, policyAsset, true) && n < |run|
    ensures KeysUnique(run[n].worker)
  {
    RunsAreSafe(run, policyAsset, true, n);
  }
}
