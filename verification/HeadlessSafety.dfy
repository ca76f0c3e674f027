/** What holds in every reachable state of the headless server. */
module HeadlessSafety {
  import opened Sequences
  import opened CoinSelection
  import opened Shuffle
  import opened HeadlessServer

  // ---- coin reservation ------------------------------------------------------------------------

  ghost predicate Distinct<T>(s: seq<T>) {
    forall i, j :: 0 <= i < j < |s| ==> s[i] != s[j]
  }

  ghost predicate Apart<T>(a: seq<T>, b: seq<T>) {
    forall i, j :: 0 <= i < |a| && 0 <= j < |b| ==> a[i] != b[j]
  }

  /** No coin is held twice, neither within an order nor by two orders. */
  ghost predicate Reservations(orders: map<OrderId, OrderState>) {
    && (forall o :: o in orders ==> Distinct(Held(orders[o])))
    && (forall o, p :: o in orders && p in orders && o != p ==> Apart(Held(orders[o]), Held(orders[p])))
  }

  /** The wallet lists each coin of an asset once. */
  ghost predicate ListsOnce(utxos: map<AssetId, seq<Coin>>) {
    forall a :: a in utxos ==> Distinct(Payloads(WithAmounts(utxos[a])))
  }

  lemma {:induction false} DistinctCounts<T>(s: seq<T>)
    ensures Distinct(s) <==> forall x :: multiset(s)[x] <= 1
  {
    if Distinct(s) {
      forall x ensures multiset(s)[x] <= 1 {
        if x in multiset(s) {
          var i := IndexOf(s, x);
          SplitAt(s, i);
          forall j | 0 <= j < |s| - 1 ensures RemoveAt(s, i)[j] != x {
            assert RemoveAt(s, i)[j] == s[if j < i then j else j + 1];
          }
        }
      }
    } else {
      var i, j :| 0 <= i < j < |s| && s[i] == s[j];
      SplitAt(s, i);
      assert RemoveAt(s, i)[j - 1] == s[j];
      assert s[j] in multiset(RemoveAt(s, i));
      assert multiset(s)[s[j]] >= 2;
    }
  }

  lemma {:induction false} PayloadsPart(a: seq<(int, OutPoint)>, b: seq<(int, OutPoint)>)
    requires multiset(a) <= multiset(b)
    ensures multiset(Payloads(a)) <= multiset(Payloads(b))
    decreases |a|
  {
    if a != [] {
      assert a[0] in multiset(a);
      var j := IndexOf(b, a[0]);
      SplitAt(b, j);
      HeadSplit(a);
      CancelOne(multiset(a[1..]), multiset(RemoveAt(b, j)), a[0]);
      PayloadsPart(a[1..], RemoveAt(b, j));
      assert Payloads(RemoveAt(b, j)) == RemoveAt(Payloads(b), j);
      SplitAt(Payloads(b), j);
      assert Payloads(a)[1..] == Payloads(a[1..]);
      HeadSplit(Payloads(a));
    }
  }

  lemma FreeStep(coins: seq<(int, OutPoint)>, reserved: set<OutPoint>)
    requires coins != []
    ensures var rest := Free(coins[1..], reserved);
            Free(coins, reserved) == if coins[0].1 in reserved then rest else [coins[0]] + rest
  {
    assert [] + Free(coins[1..], reserved) == Free(coins[1..], reserved);
  }

  lemma {:induction false} FreePart(coins: seq<(int, OutPoint)>, reserved: set<OutPoint>)
    ensures multiset(Free(coins, reserved)) <= multiset(coins)
  {
    if coins != [] {
      hide Free;
      FreeStep(coins, reserved);
      var rest := Free(coins[1..], reserved);
      FreePart(coins[1..], reserved);
      HeadSplit(coins);
      ConsMultiset(coins[0], rest);
      OneMore(multiset(rest), multiset(coins[1..]), coins[0]);
    }
  }

  lemma {:induction false} FreeUnreserved(coins: seq<(int, OutPoint)>, reserved: set<OutPoint>)
    ensures forall i :: 0 <= i < |Free(coins, reserved)| ==> Free(coins, reserved)[i].1 !in reserved
  {
    if coins != [] {
      FreeUnreserved(coins[1..], reserved);
    }
  }

  /** The coins selected for a new order are distinct and none of them is reserved. */
  lemma SelectedCoins(s: State, d: Details, random: seq<nat>, selected: seq<(int, OutPoint)>)
    requires s.swapInputs.Some? && ListsOnce(s.swapInputs.value)
    requires multiset(selected) <= multiset(Candidates(s, d, random))
    ensures Distinct(Payloads(selected))
    ensures forall i :: 0 <= i < |selected| ==> selected[i].1 !in Reserved(s.orders)
  {
    var asset := ToSend(s, d).0;
    var coins := if asset in s.swapInputs.value then s.swapInputs.value[asset] else [];
    var free := Free(WithAmounts(coins), Reserved(s.orders));
    ShuffledPermutes(free, random);
    FreePart(WithAmounts(coins), Reserved(s.orders));
    FreeUnreserved(WithAmounts(coins), Reserved(s.orders));
    PayloadsPart(selected, WithAmounts(coins));
    DistinctCounts(Payloads(WithAmounts(coins)));
    DistinctCounts(Payloads(selected));
    forall i | 0 <= i < |selected| ensures selected[i].1 !in Reserved(s.orders) {
      assert selected[i] in multiset(selected);
      assert selected[i] in multiset(free);
      var _ := IndexOf(free, selected[i]);
    }
  }

  lemma ReserveMore(orders: map<OrderId, OrderState>, orderId: OrderId, held: seq<OutPoint>)
    requires Reservations(orders) && Distinct(held)
    requires forall i :: 0 <= i < |held| ==> held[i] !in Reserved(orders)
    ensures Reservations(orders[orderId := Active(held)])
  {
    forall o | o in orders ensures Apart(Held(orders[o]), held) && Apart(held, Held(orders[o])) {
      forall i | 0 <= i < |Held(orders[o])| ensures Held(orders[o])[i] !in held {
        assert Held(orders[o])[i] in Reserved(orders);
      }
    }
  }

  /** The selection behind a new order never runs out of coins: `expect` and `unwrap` hold. */
  lemma SelectionSucceeds(s: State, d: Details, random: seq<nat>)
    requires s.swapInputs.Some?
    requires Sum(Amounts(Candidates(s, d, random))) >= ToSend(s, d).1 > 0
    ensures var r := SelectionOfCoins(Candidates(s, d, random), ToSend(s, d).1);
            r.Some? && multiset(r.value) <= multiset(Candidates(s, d, random))
  {
    CandidatesNonNegative(s, d, random);
    SelectionOfCoinsCorrect(Candidates(s, d, random), ToSend(s, d).1);
  }

  lemma CandidatesNonNegative(s: State, d: Details, random: seq<nat>)
    requires s.swapInputs.Some?
    ensures NonNegative(Amounts(Candidates(s, d, random)))
  {
    var inputs := Candidates(s, d, random);
    var asset := ToSend(s, d).0;
    var coins := if asset in s.swapInputs.value then s.swapInputs.value[asset] else [];
    ShuffledPermutes(Free(WithAmounts(coins), Reserved(s.orders)), random);
    FreePart(WithAmounts(coins), Reserved(s.orders));
    forall i | 0 <= i < |inputs| ensures 0 <= Amounts(inputs)[i] {
      assert inputs[i] in multiset(inputs);
      var _ := IndexOf(WithAmounts(coins), inputs[i]);
    }
  }

  // ---- orders: what every step keeps -------------------------------------------------------------

  /** Orders are never forgotten and a failed order stays failed. */
  ghost predicate Absorbing(a: map<OrderId, OrderState>, b: map<OrderId, OrderState>) {
    a.Keys <= b.Keys && forall o :: o in a && a[o].Failed? ==> b[o].Failed?
  }

  ghost predicate InputsListedOnce(s: State) {
    s.swapInputs.Some? ==> ListsOnce(s.swapInputs.value)
  }

  ghost predicate OrdersKept(s: State, t: State, newId: bool) {
    && Reservations(t.orders) && t.swapInputs == s.swapInputs
    && (newId ==> Absorbing(s.orders, t.orders))
  }

  lemma FailKeeps(orders: map<OrderId, OrderState>, id: OrderId)
    requires Reservations(orders)
    ensures Reservations(orders[id := Failed]) && Absorbing(orders, orders[id := Failed])
  {
  }

  lemma SucceedKeeps(orders: map<OrderId, OrderState>, id: OrderId, txid: Txid)
    requires Reservations(orders) && id in orders && orders[id].Active?
    ensures var after := orders[id := Succeed(orders[id].held, txid)];
            Reservations(after) && Absorbing(orders, after)
  {
    var after := orders[id := Succeed(orders[id].held, txid)];
    assert forall o :: o in after ==> Held(after[o]) == Held(orders[o]);
  }

  lemma {:induction false} CancelAllKeeps(s: State, ids: seq<OrderId>)
    requires Reservations(s.orders)
    ensures OrdersKept(s, CancelAll(s, ids), true)
    decreases |ids|
  {
    if ids != [] {
      FailKeeps(s.orders, ids[0]);
      hide Reservations;
      CancelAllKeeps(CancelOrder(s, ids[0]), ids[1..]);
    }
  }

  /** The server gives every submitted order an id of its own. */
  ghost predicate FreshId(s: State, cb: Callback, res: ServerResult) {
    cb.Submitted? && res.Ok? && res.resp.SubmitResp? ==> res.resp.orderId !in s.orders
  }

  /** There are enough free coins for an order. */
  ghost predicate Covered(s: State, d: Details, random: seq<nat>) {
    s.swapInputs.Some? && Sum(Amounts(Candidates(s, d, random))) >= ToSend(s, d).1 > 0 &&
    SelectionOfCoins(Candidates(s, d, random), ToSend(s, d).1).Some?
  }

  ghost function Chosen(s: State, d: Details, random: seq<nat>): seq<OutPoint>
    requires Covered(s, d, random)
  {
    Payloads(SelectionOfCoins(Candidates(s, d, random), ToSend(s, d).1).value)
  }

  ghost function Reserving(s: State, orderId: OrderId, held: seq<OutPoint>): State {
    s.(orders := s.orders[orderId := Active(held)])
  }

  ghost predicate Refuses(s: State, orderId: OrderId, reply: ReplyId, o: Outcome) {
    o == Next(AnswerTo(CancelOrder(s, orderId), reply, NotInputs))
  }

  /** A submitted order is refused, or its coins are reserved and sent on. */
  lemma SubmitOutcome(s: State, orderId: OrderId, d: Details, order: NewOrder, reply: ReplyId,
                      random: seq<nat>)
    ensures var o := ProcessSubmitInputs(s, orderId, d, order, reply, random);
            || o.Panic?
            || Refuses(s, orderId, reply, o)
            || (Covered(s, d, random) &&
                o == MakeAsyncRequest(Reserving(s, orderId, Chosen(s, d, random)),
                                      PsetMaker(orderId, Chosen(s, d, random)),
                                      PsetSent(orderId, d, order.uniqueKey, reply)))
  {
    hide MakeAsyncRequest, Candidates, SelectionOfCoins, Sum, Amounts, Payloads;
  }

  lemma ChosenMayBeReserved(s: State, orderId: OrderId, d: Details, random: seq<nat>)
    requires Reservations(s.orders) && InputsListedOnce(s) && Covered(s, d, random)
    ensures Reservations(Reserving(s, orderId, Chosen(s, d, random)).orders)
  {
    SelectionSucceeds(s, d, random);
    var selected := SelectionOfCoins(Candidates(s, d, random), ToSend(s, d).1).value;
    SelectedCoins(s, d, random, selected);
    ReserveMore(s.orders, orderId, Payloads(selected));
    hide Reservations, Reserved, Candidates, SelectionOfCoins, Sum, Payloads;
  }

  /** Outpoints of listed coins that together reach an amount, none of them superfluous. */
  ghost predicate PaysExactly(coins: seq<Coin>, held: seq<OutPoint>, amount: int) {
    exists selected: seq<(int, OutPoint)> ::
      && Payloads(selected) == held && multiset(selected) <= multiset(WithAmounts(coins))
      && Sum(Amounts(selected)) >= amount
      && forall i :: 0 <= i < |selected| ==> Sum(Amounts(selected)) - selected[i].0 < amount
  }

  lemma ChosenPays(s: State, d: Details, random: seq<nat>)
    requires Covered(s, d, random)
    ensures var (asset, amount) := ToSend(s, d);
            s.swapInputs.Some? && asset in s.swapInputs.value &&
            PaysExactly(s.swapInputs.value[asset], Chosen(s, d, random), amount)
  {
    var (asset, amount) := ToSend(s, d);
    var coins := if asset in s.swapInputs.value then s.swapInputs.value[asset] else [];
    var selected := SelectionOfCoins(Candidates(s, d, random), amount).value;
    CandidatesNonNegative(s, d, random);
    SelectionOfCoinsCorrect(Candidates(s, d, random), amount);
    ShuffledPermutes(Free(WithAmounts(coins), Reserved(s.orders)), random);
    FreePart(WithAmounts(coins), Reserved(s.orders));
    assert multiset(selected) <= multiset(WithAmounts(coins));
    hide Candidates, SelectionOfCoins, Sum;
  }

  /** An order that becomes active holds wallet coins of the asset it sends: bitcoin for the amount
      and the fee, or the asset for its amount; the server is told exactly these coins. */
  lemma ActiveOrderIsFunded(s: State, orderId: OrderId, d: Details, order: NewOrder, reply: ReplyId,
                            random: seq<nat>)
    requires var o := ProcessSubmitInputs(s, orderId, d, order, reply, random);
             o.Next? && orderId in o.state.orders && o.state.orders[orderId].Active?
    ensures var t := ProcessSubmitInputs(s, orderId, d, order, reply, random).state;
            var asset := if d.sendBitcoins then s.policyAsset else d.asset;
            && s.swapInputs.Some? && asset in s.swapInputs.value
            && PaysExactly(s.swapInputs.value[asset], t.orders[orderId].held,
                           if d.sendBitcoins then d.bitcoinAmount + d.serverFee else d.assetAmount)
            && t.sent == s.sent + [PsetMaker(orderId, t.orders[orderId].held)]
  {
    hide Covered, Chosen, ProcessSubmitInputs, PaysExactly, MakeAsyncRequest;
    SubmitOutcome(s, orderId, d, order, reply, random);
    if Covered(s, d, random) {
      ChosenPays(s, d, random);
      var held := Chosen(s, d, random);
      SentOrFailed(Reserving(s, orderId, held), orderId, held, PsetSent(orderId, d, order.uniqueKey, reply));
    }
  }

  lemma SentOrFailed(s: State, orderId: OrderId, held: seq<OutPoint>, cb: Callback)
    requires cb.PsetSent? && cb.orderId == orderId
    ensures var o := MakeAsyncRequest(s, PsetMaker(orderId, held), cb);
            && o.Next?
            && if s.wsConnected then o.state.orders == s.orders && o.state.sent == s.sent + [PsetMaker(orderId, held)]
               else o.state.orders == s.orders[orderId := Failed]
  {
  }

  lemma SubmitKeepsOrders(s: State, orderId: OrderId, d: Details, order: NewOrder, reply: ReplyId,
                          random: seq<nat>)
    requires Reservations(s.orders) && InputsListedOnce(s)
    ensures var o := ProcessSubmitInputs(s, orderId, d, order, reply, random);
            o.Next? ==> OrdersKept(s, o.state, orderId !in s.orders)
  {
    SubmitOutcome(s, orderId, d, order, reply, random);
    FailKeeps(s.orders, orderId);
    if Covered(s, d, random) {
      ChosenMayBeReserved(s, orderId, d, random);
      var held := Chosen(s, d, random);
      AsyncKeepsOrders(Reserving(s, orderId, held), PsetMaker(orderId, held),
                       PsetSent(orderId, d, order.uniqueKey, reply));
    }
    hide Reservations, Covered, Chosen, ProcessSubmitInputs, MakeAsyncRequest;
  }

  lemma AsyncKeepsOrders(s: State, req: ServerRequest, cb: Callback)
    requires Reservations(s.orders)
    ensures var o := MakeAsyncRequest(s, req, cb);
            o.Next? ==> OrdersKept(s, o.state, true)
  {
    match cb
    case LoginDone =>
    case Submitted(_, _) =>
    case PsetSent(orderId, _, _, _) => FailKeeps(s.orders, orderId);
    case SignSent(orderId) => FailKeeps(s.orders, orderId);
  }

  lemma RunKeepsOrders(s: State, cb: Callback, res: ServerResult, random: seq<nat>)
    requires Reservations(s.orders) && InputsListedOnce(s)
    ensures var o := RunCallback(s, cb, res, random);
            o.Next? ==> OrdersKept(s, o.state, FreshId(s, cb, res))
  {
    hide ProcessSubmitInputs, Reservations;
    match cb
    case LoginDone =>
      if res.Ok? && res.resp.LoginResp? {
        CancelAllKeeps(s, res.resp.active);
      }
    case Submitted(order, reply) =>
      if res.Ok? && res.resp.SubmitResp? {
        SubmitKeepsOrders(s, res.resp.orderId, res.resp.details, order, reply, random);
      }
    case PsetSent(orderId, _, _, _) => FailKeeps(s.orders, orderId);
    case SignSent(orderId) => FailKeeps(s.orders, orderId);
  }

  lemma {:induction false} FailAllKeepsOrders(s: State, pending: map<RequestId, Callback>, listing: seq<RequestId>)
    requires Reservations(s.orders) && InputsListedOnce(s)
    ensures var o := FailAll(s, pending, listing);
            o.Next? ==> OrdersKept(s, o.state, true)
    decreases |listing|
  {
    if listing != [] && listing[0] in pending {
      var k := listing[0];
      RunKeepsOrders(Entered(s, k, pending[k]), pending[k], Err, []);
      var o := RunStored(s, k, pending[k], Err, []);
      if o.Next? {
        FailAllKeepsOrders(o.state, pending, listing[1..]);
      }
    }
  }

  /** The server does not reuse order ids. */
  ghost predicate Fresh(s: State, m: Message) {
    Answers(s, m) ==> FreshId(s, s.async[m.requestId.value], m.res)
  }

  /** A response to a pending request. */
  predicate Answers(s: State, m: Message) {
    m.WsResponse? && m.requestId.Some? && m.requestId.value in s.async
  }

  /** The state in which the continuation of a response runs. */
  function TakenOut(s: State, m: Message): State
    requires Answers(s, m)
  {
    var id := m.requestId.value;
    Entered(s.(async := s.async - {id}), id, s.async[id])
  }

  /** What the model assumes of a message: wallet lists are duplicate-free, and a disconnect
      visits exactly the pending requests. */
  ghost predicate Admissible(s: State, m: Message) {
    match m
    case WalletSwapInputs(utxos) => ListsOnce(utxos)
    case WsDisconnected(listing) =>
      Distinct(listing) && (forall k :: k in s.async <==> k in listing)
    case _ => true
  }

  /** Every step keeps the reservations disjoint. With fresh order ids it also forgets no order
      and revives none. */
  lemma HandleKeepsOrders(s: State, m: Message)
    requires Reservations(s.orders) && InputsListedOnce(s) && Admissible(s, m)
    ensures var o := Handle(s, m);
            o.Next? ==>
              && Reservations(o.state.orders) && InputsListedOnce(o.state)
              && (Fresh(s, m) ==> Absorbing(s.orders, o.state.orders))
  {
    hide Reservations, RunCallback, MakeAsyncRequest, FailAll;
    match m
    case ApiNewOrder(order, reply) =>
      AsyncKeepsOrders(Received(s, reply), Submit(order), Submitted(order, reply));
    case WalletSignedPset(orderId) =>
      if s.signCount > 0 {
        AsyncKeepsOrders(s.(signCount := s.signCount - 1), Sign(orderId), SignSent(orderId));
      }
    case WalletSignFailed(orderId) => FailKeeps(s.orders, orderId);
    case WsConnected => AsyncKeepsOrders(s.(wsConnected := true), Login, LoginDone);
    case WsDisconnected(listing) =>
      FailAllKeepsOrders(s.(wsConnected := false, async := map[]), s.async, listing);
    case WsResponse(requestId, res, random) =>
      if Answers(s, m) {
        RunKeepsOrders(TakenOut(s, m), s.async[requestId.value], res, random);
      }
    case WsOrderRemoved(orderId) => FailKeeps(s.orders, orderId);
    case WsComplete(orderId, txid) =>
      FailKeeps(s.orders, orderId);
      if txid.Some? && orderId in s.orders && s.orders[orderId].Active? {
        SucceedKeeps(s.orders, orderId, txid.value);
      }
    case _ =>
  }

  // ---- every continuation runs once ----------------------------------------------------------------

  function One(a: ReplyId, b: ReplyId): nat {
    if a == b then 1 else 0
  }

  /** Whether a continuation holds the reply channel. */
  function Owes(cb: Callback, r: ReplyId): nat {
    if cb.Submitted? || cb.PsetSent? then One(cb.reply, r) else 0
  }

  /** The pending requests that hold a reply channel. */
  function Holders(async: map<RequestId, Callback>, reply: ReplyId): set<RequestId> {
    set k | k in async && Owes(async[k], reply) == 1
  }

  function AnswersTo(answers: seq<(ReplyId, Answer)>, reply: ReplyId): nat {
    if answers == [] then 0
    else AnswersTo(answers[..|answers| - 1], reply) + if answers[|answers| - 1].0 == reply then 1 else 0
  }

  /** Requests taken minus answers given minus requests that still hold the channel. */
  function Balance(s: State, reply: ReplyId): int {
    s.past.handled[reply] - AnswersTo(s.answers, reply) - |Holders(s.async, reply)|
  }

  ghost predicate IdsBelow(s: State) {
    forall k :: k in s.async ==> k < s.nextId
  }

  lemma AnswerBalance(s: State, reply: ReplyId, a: Answer, r: ReplyId)
    ensures Balance(AnswerTo(s, reply, a), r) == Balance(s, r) - One(reply, r)
  {
    var t := s.answers + [(reply, a)];
    assert t[..|t| - 1] == s.answers;
  }

  lemma InsertHolder(m: map<RequestId, Callback>, k: RequestId, cb: Callback, r: ReplyId)
    requires k !in m
    ensures |Holders(m[k := cb], r)| == |Holders(m, r)| + Owes(cb, r)
  {
    if Owes(cb, r) == 1 {
      assert Holders(m[k := cb], r) == Holders(m, r) + {k};
    } else {
      assert Holders(m[k := cb], r) == Holders(m, r);
    }
  }

  lemma RemoveHolder(m: map<RequestId, Callback>, k: RequestId, r: ReplyId)
    requires k in m
    ensures |Holders(m, r)| == |Holders(m - {k}, r)| + Owes(m[k], r)
  {
    InsertHolder(m - {k}, k, m[k], r);
    assert (m - {k})[k := m[k]] == m;
  }

  /** What a step leaves alone besides orders and answers. */
  ghost predicate SameSide(s: State, t: State) {
    && t.past.handled == s.past.handled && t.signCount == s.signCount && t.walletQueue == s.walletQueue
    && t.wsConnected == s.wsConnected && t.nextId >= s.nextId && t.policyAsset == s.policyAsset
  }

  lemma {:induction false} CancelAllSide(s: State, ids: seq<OrderId>)
    ensures var t := CancelAll(s, ids);
            && SameSide(s, t) && t.async == s.async && t.answers == s.answers
            && t.past.accepted == s.past.accepted && t.uniqueOrders == s.uniqueOrders
    decreases |ids|
  {
    if ids != [] {
      CancelAllSide(CancelOrder(s, ids[0]), ids[1..]);
    }
  }

  /** A stored request owes one reply; an unconnected one has paid it already. */
  lemma AsyncBalance(s: State, req: ServerRequest, cb: Callback, r: ReplyId)
    requires IdsBelow(s)
    ensures var o := MakeAsyncRequest(s, req, cb);
            o.Next? && SameSide(s, o.state) && IdsBelow(o.state) &&
            Balance(o.state, r) == Balance(s, r) - Owes(cb, r)
  {
    if s.wsConnected {
      InsertHolder(s.async, s.nextId, cb, r);
    } else {
      ErrBalance(s, cb, r);
    }
  }

  /** A failed continuation pays its reply and stores nothing. */
  lemma ErrBalance(s: State, cb: Callback, r: ReplyId)
    ensures var o := RunCallback(s, cb, Err, []);
            && o.Next? && SameSide(s, o.state) && o.state.async == s.async
            && o.state.past.accepted == s.past.accepted && o.state.uniqueOrders == s.uniqueOrders
            && Balance(o.state, r) == Balance(s, r) - Owes(cb, r)
  {
    match cb
    case LoginDone =>
    case Submitted(_, reply) => AnswerBalance(s, reply, ServerError, r);
    case PsetSent(orderId, _, _, reply) => AnswerBalance(CancelOrder(s, orderId), reply, NotInputs, r);
    case SignSent(_) =>
  }

  lemma SubmitBalance(s: State, orderId: OrderId, d: Details, order: NewOrder, reply: ReplyId,
                      random: seq<nat>, r: ReplyId)
    requires IdsBelow(s)
    ensures var o := ProcessSubmitInputs(s, orderId, d, order, reply, random);
            o.Next? ==>
              && SameSide(s, o.state) && IdsBelow(o.state)
              && o.state.past.accepted == s.past.accepted && o.state.uniqueOrders == s.uniqueOrders
              && Balance(o.state, r) == Balance(s, r) - One(reply, r)
  {
    hide ProcessSubmitInputs, Covered, Chosen, MakeAsyncRequest, RunCallback;
    SubmitOutcome(s, orderId, d, order, reply, random);
    AnswerBalance(CancelOrder(s, orderId), reply, NotInputs, r);
    if Covered(s, d, random) {
      var held := Chosen(s, d, random);
      var t, cb := Reserving(s, orderId, held), PsetSent(orderId, d, order.uniqueKey, reply);
      AsyncBalance(t, PsetMaker(orderId, held), cb, r);
      AsyncSide(t, PsetMaker(orderId, held), cb, r);
    }
  }

  lemma AsyncSide(s: State, req: ServerRequest, cb: Callback, r: ReplyId)
    ensures var o := MakeAsyncRequest(s, req, cb);
            o.Next? && o.state.past.accepted == s.past.accepted && o.state.uniqueOrders == s.uniqueOrders
  {
    ErrBalance(s, cb, r);
  }

  /** Running a continuation pays exactly the reply it holds, or hands it on to one new request. */
  lemma RunBalance(s: State, cb: Callback, res: ServerResult, random: seq<nat>, r: ReplyId)
    requires IdsBelow(s)
    ensures var o := RunCallback(s, cb, res, random);
            o.Next? ==>
              && SameSide(s, o.state) && IdsBelow(o.state)
              && Balance(o.state, r) == Balance(s, r) - Owes(cb, r)
  {
    if res.Err? {
      ErrBalance(s, cb, r);
    } else {
      match cb
      case LoginDone =>
        if res.resp.LoginResp? {
          CancelAllSide(s, res.resp.active);
        }
      case Submitted(order, reply) =>
        if res.resp.SubmitResp? {
          SubmitBalance(s, res.resp.orderId, res.resp.details, order, reply, random, r);
        }
      case PsetSent(orderId, details, uniqueKey, reply) =>
        if res.resp.PsetMakerResp? {
          AcceptBalance(s, orderId, details, uniqueKey, reply, r);
        }
      case SignSent(_) =>
    }
  }

  lemma AcceptBalance(s: State, orderId: OrderId, details: Details, uniqueKey: Option<string>,
                      reply: ReplyId, r: ReplyId)
    requires IdsBelow(s)
    ensures var t := AcceptOrder(s, orderId, details, uniqueKey, reply);
            SameSide(s, t) && IdsBelow(t) && Balance(t, r) == Balance(s, r) - One(reply, r)
  {
    AnswerBalance(s, reply, DuplicatedOrder, r);
    AnswerBalance(s, reply, Created(orderId, details), r);
    if uniqueKey.Some? {
      AnswerBalance(s.(uniqueOrders := s.uniqueOrders[uniqueKey.value := orderId],
                       past := s.past.(accepted := s.past.accepted + {(uniqueKey.value, orderId)})),
                    reply, Created(orderId, details), r);
    }
  }

  /** The replies owed by a list of pending requests. */
  function OwedBy(pending: map<RequestId, Callback>, listing: seq<RequestId>, r: ReplyId): nat
    decreases |listing|
  {
    if listing == [] then 0
    else (if listing[0] in pending then Owes(pending[listing[0]], r) else 0) + OwedBy(pending, listing[1..], r)
  }

  lemma {:induction false} FailAllBalance(s: State, pending: map<RequestId, Callback>,
                                          listing: seq<RequestId>, r: ReplyId)
    requires forall i :: 0 <= i < |listing| ==> listing[i] in pending
    ensures var o := FailAll(s, pending, listing);
            && o.Next? && SameSide(s, o.state) && o.state.async == s.async
            && o.state.past.accepted == s.past.accepted && o.state.uniqueOrders == s.uniqueOrders
            && Balance(o.state, r) == Balance(s, r) - OwedBy(pending, listing, r)
    decreases |listing|
  {
    if listing != [] {
      var k := listing[0];
      var t := Entered(s, k, pending[k]);
      SameBooks(s, t, r);
      ErrBalance(t, pending[k], r);
      var o := RunCallback(t, pending[k], Err, []);
      hide RunCallback, Balance;
      FailAllBalance(o.state, pending, listing[1..], r);
    }
  }

  lemma {:induction false} ListedHolders(m: map<RequestId, Callback>, listing: seq<RequestId>, r: ReplyId)
    requires Distinct(listing) && forall k :: k in m <==> k in listing
    ensures OwedBy(m, listing, r) == |Holders(m, r)|
    decreases |listing|
  {
    if listing == [] {
      assert Holders(m, r) == {};
    } else {
      var k := listing[0];
      RemoveHolder(m, k, r);
      ListedHolders(m - {k}, listing[1..], r);
      SameOwed(m, m - {k}, listing[1..], r);
    }
  }

  lemma {:induction false} SameOwed(m: map<RequestId, Callback>, n: map<RequestId, Callback>,
                                    listing: seq<RequestId>, r: ReplyId)
    requires forall i :: 0 <= i < |listing| ==> listing[i] in m && listing[i] in n && m[listing[i]] == n[listing[i]]
    ensures OwedBy(m, listing, r) == OwedBy(n, listing, r)
    decreases |listing|
  {
    if listing != [] {
      SameOwed(m, n, listing[1..], r);
    }
  }

  ghost predicate QuietWhenDown(s: State) {
    !s.wsConnected ==> s.async == map[]
  }

  ghost predicate RepliesSettled(s: State) {
    && IdsBelow(s) && QuietWhenDown(s)
    && forall r :: Balance(s, r) == 0
  }

  lemma DisconnectBalance(s: State, listing: seq<RequestId>, r: ReplyId)
    requires Admissible(s, WsDisconnected(listing))
    ensures var o := Handle(s, WsDisconnected(listing));
            && o.Next? && o.state.async == map[] && !o.state.wsConnected
            && o.state.signCount == s.signCount && o.state.walletQueue == s.walletQueue
            && o.state.past.accepted == s.past.accepted && o.state.uniqueOrders == s.uniqueOrders
            && Balance(o.state, r) == Balance(s, r)
  {
    var t := s.(wsConnected := false, async := map[]);
    FailAllBalance(t, s.async, listing, r);
    ListedHolders(s.async, listing, r);
    assert Holders(map[], r) == {};
  }

  /** One message keeps the books: replies owed are neither lost nor paid twice. */
  lemma HandleBalance(s: State, m: Message, r: ReplyId)
    requires IdsBelow(s) && QuietWhenDown(s) && Admissible(s, m)
    ensures var o := Handle(s, m);
            o.Next? ==> IdsBelow(o.state) && QuietWhenDown(o.state) && Balance(o.state, r) == Balance(s, r)
  {
    hide RunCallback, MakeAsyncRequest, FailAll, Balance;
    match m
    case ApiNewOrder(order, reply) =>
      var t := Received(s, reply);
      TakeRequest(s, reply, r);
      AnswerBalance(t, reply, TooManyRequest, r);
      AsyncBalance(t, Submit(order), Submitted(order, reply), r);
      AsyncQuiet(t, Submit(order), Submitted(order, reply));
    case ApiOrderStatus(orderId, reply) =>
      TakeRequest(s, reply, r);
      AnswerBalance(Received(s, reply), reply, StatusIs(StatusOf(s.orders, orderId)), r);
    case WalletSignedPset(orderId) =>
      if s.signCount > 0 {
        var t := s.(signCount := s.signCount - 1);
        SameBooks(s, t, r);
        AsyncBalance(t, Sign(orderId), SignSent(orderId), r);
        AsyncQuiet(t, Sign(orderId), SignSent(orderId));
      }
    case WalletSignFailed(orderId) =>
      if s.signCount > 0 {
        SameBooks(s, CancelOrder(s.(signCount := s.signCount - 1), orderId), r);
      }
    case WsConnected =>
      SameBooks(s, s.(wsConnected := true), r);
      AsyncBalance(s.(wsConnected := true), Login, LoginDone, r);
      AsyncQuiet(s.(wsConnected := true), Login, LoginDone);
    case WsDisconnected(listing) =>
      DisconnectBalance(s, listing, r);
    case WsResponse(requestId, res, random) =>
      if Answers(s, m) {
        var t := s.(async := s.async - {requestId.value});
        RemovePending(s, requestId.value, r);
        SameBooks(t, TakenOut(s, m), r);
        RunBalance(TakenOut(s, m), s.async[requestId.value], res, random, r);
      }
    case _ =>
      if Handle(s, m).Next? {
        SameBooks(s, Handle(s, m).state, r);
      }
  }

  lemma SameBooks(s: State, t: State, r: ReplyId)
    requires t.past.handled == s.past.handled && t.answers == s.answers && t.async == s.async
    ensures Balance(t, r) == Balance(s, r)
  {
  }

  lemma TakeRequest(s: State, reply: ReplyId, r: ReplyId)
    ensures Balance(Received(s, reply), r) == Balance(s, r) + One(reply, r)
  {
  }

  lemma RemovePending(s: State, k: RequestId, r: ReplyId)
    requires k in s.async
    ensures Balance(s.(async := s.async - {k}), r) == Balance(s, r) + Owes(s.async[k], r)
  {
    RemoveHolder(s.async, k, r);
  }

  lemma AsyncQuiet(s: State, req: ServerRequest, cb: Callback)
    requires QuietWhenDown(s)
    ensures var o := MakeAsyncRequest(s, req, cb); o.Next? ==> QuietWhenDown(o.state)
  {
    if !s.wsConnected {
      ErrBalance(s, cb, 0);
    }
  }

  /** The books of the continuations: every one ever stored is pending and has not run, or is not
      pending and has run exactly once; `taken` are those a step has taken out and not run yet. */
  ghost predicate Ledger(s: State, taken: set<RequestId>) {
    && (forall k :: k in s.past.stored ==> k < s.nextId)
    && (forall k :: k in s.async ==> k in s.past.stored && s.past.stored[k] == s.async[k])
    && (forall k, cb :: s.past.ran[(k, cb)] ==
          if k in s.past.stored && s.past.stored[k] == cb && k !in s.async && k !in taken then 1 else 0)
  }

  /** Nothing that bears on the books differs, except for ids skipped. */
  ghost predicate SameLedger(s: State, t: State) {
    t.past.stored == s.past.stored && t.async == s.async && t.past.ran == s.past.ran && t.nextId >= s.nextId
  }

  lemma SameLedgerKept(s: State, t: State, taken: set<RequestId>)
    requires Ledger(s, taken) && SameLedger(s, t)
    ensures Ledger(t, taken)
  {
  }

  /** Running a continuation that was taken out enters it in the books. */
  lemma RunEntered(s: State, id: RequestId, cb: Callback, taken: set<RequestId>)
    requires Ledger(s, taken) && id in taken && id !in s.async && id in s.past.stored && s.past.stored[id] == cb
    ensures Ledger(Entered(s, id, cb), taken - {id})
  {
  }

  lemma ErrLedger(s: State, cb: Callback)
    ensures var o := RunCallback(s, cb, Err, []);
            o.Next? && SameLedger(s, o.state)
  {
  }

  lemma AsyncLedger(s: State, req: ServerRequest, cb: Callback, taken: set<RequestId>)
    requires Ledger(s, taken) && forall k :: k in taken ==> k < s.nextId
    ensures var o := MakeAsyncRequest(s, req, cb); o.Next? && Ledger(o.state, taken)
  {
    if s.wsConnected {
      var t := MakeAsyncRequest(s, req, cb).state;
      forall k, c ensures t.past.ran[(k, c)] ==
          if k in t.past.stored && t.past.stored[k] == c && k !in t.async && k !in taken then 1 else 0 {
        assert s.past.ran[(k, c)] ==
          if k in s.past.stored && s.past.stored[k] == c && k !in s.async && k !in taken then 1 else 0;
      }
    } else {
      ErrLedger(s, cb);
      SameLedgerKept(s, RunCallback(s, cb, Err, []).state, taken);
    }
  }

  lemma {:induction false} CancelAllLedger(s: State, ids: seq<OrderId>)
    ensures SameLedger(s, CancelAll(s, ids))
    decreases |ids|
  {
    if ids != [] {
      CancelAllLedger(CancelOrder(s, ids[0]), ids[1..]);
    }
  }

  lemma SubmitLedger(s: State, orderId: OrderId, d: Details, order: NewOrder, reply: ReplyId, random: seq<nat>)
    requires Ledger(s, {})
    ensures var o := ProcessSubmitInputs(s, orderId, d, order, reply, random);
            o.Next? ==> Ledger(o.state, {})
  {
    hide ProcessSubmitInputs, Covered, Chosen, MakeAsyncRequest, RunCallback, Ledger;
    SubmitOutcome(s, orderId, d, order, reply, random);
    SameLedgerKept(s, AnswerTo(CancelOrder(s, orderId), reply, NotInputs), {});
    if Covered(s, d, random) {
      var held := Chosen(s, d, random);
      var t := Reserving(s, orderId, held);
      SameLedgerKept(s, t, {});
      AsyncLedger(t, PsetMaker(orderId, held), PsetSent(orderId, d, order.uniqueKey, reply), {});
    }
  }

  lemma RunLedger(s: State, cb: Callback, res: ServerResult, random: seq<nat>)
    requires Ledger(s, {})
    ensures var o := RunCallback(s, cb, res, random); o.Next? ==> Ledger(o.state, {})
  {
    hide Ledger, ProcessSubmitInputs, CancelAll;
    if cb.Submitted? && res.Ok? && res.resp.SubmitResp? {
      SubmitLedger(s, res.resp.orderId, res.resp.details, cb.order, cb.reply, random);
    } else {
      if res.Ok? && res.resp.LoginResp? {
        CancelAllLedger(s, res.resp.active);
      }
      var o := RunCallback(s, cb, res, random);
      if o.Next? {
        SameLedgerKept(s, o.state, {});
      }
    }
  }

  ghost function Listed(listing: seq<RequestId>): set<RequestId> {
    set k | k in listing
  }

  lemma ListedRest(listing: seq<RequestId>)
    requires listing != [] && Distinct(listing)
    ensures Listed(listing) - {listing[0]} == Listed(listing[1..]) && listing[0] in Listed(listing)
    ensures Distinct(listing[1..]) && forall k :: k in listing[1..] ==> k in listing
  {
  }

  /** One continuation of a closed connection: it is entered in the books and leaves the rest alone. */
  lemma FailOneLedger(s: State, id: RequestId, cb: Callback, taken: set<RequestId>)
    requires Ledger(s, taken) && id in taken && id !in s.async && id in s.past.stored && s.past.stored[id] == cb
    ensures var o := RunStored(s, id, cb, Err, []);
            o.Next? && Ledger(o.state, taken - {id}) && o.state.async == s.async && o.state.past.stored == s.past.stored
  {
    var t := Entered(s, id, cb);
    RunEntered(s, id, cb, taken);
    ErrLedger(t, cb);
    hide RunCallback, Ledger;
    SameLedgerKept(t, RunCallback(t, cb, Err, []).state, taken - {id});
  }

  /** A disconnect runs every pending continuation, and each one once. */
  lemma {:induction false} FailAllLedger(s: State, pending: map<RequestId, Callback>, listing: seq<RequestId>)
    requires Distinct(listing) && Ledger(s, Listed(listing))
    requires forall k :: k in listing ==> k in pending && k !in s.async && k in s.past.stored && s.past.stored[k] == pending[k]
    ensures var o := FailAll(s, pending, listing); o.Next? && Ledger(o.state, {})
    decreases |listing|
  {
    hide Ledger, RunStored, Distinct;
    if listing == [] {
      assert Listed(listing) == {};
    } else {
      var k := listing[0];
      ListedRest(listing);
      hide Listed;
      FailOneLedger(s, k, pending[k], Listed(listing));
      FailAllLedger(RunStored(s, k, pending[k], Err, []).state, pending, listing[1..]);
    }
  }

  lemma TakenAll(s: State, listing: seq<RequestId>)
    requires Ledger(s, {}) && forall k :: k in s.async <==> k in listing
    ensures Ledger(s.(wsConnected := false, async := map[]), Listed(listing))
    ensures forall k :: k in listing ==> k in s.past.stored && s.past.stored[k] == s.async[k]
  {
  }

  lemma TakenOne(s: State, id: RequestId)
    requires Ledger(s, {}) && id in s.async
    ensures Ledger(Entered(s.(async := s.async - {id}), id, s.async[id]), {})
  {
    var t := s.(async := s.async - {id});
    assert Ledger(t, {id});
    RunEntered(t, id, s.async[id], {id});
    assert {id} - {id} == {};
  }

  lemma HandleLedger(s: State, m: Message)
    requires Ledger(s, {}) && Admissible(s, m)
    ensures var o := Handle(s, m); o.Next? ==> Ledger(o.state, {})
  {
    hide RunCallback, MakeAsyncRequest, FailAll, Ledger;
    match m
    case ApiNewOrder(order, reply) =>
      var t := Received(s, reply);
      SameLedgerKept(s, t, {});
      SameLedgerKept(s, AnswerTo(t, reply, TooManyRequest), {});
      AsyncLedger(t, Submit(order), Submitted(order, reply), {});
    case WalletSignedPset(orderId) =>
      if s.signCount > 0 {
        var t := s.(signCount := s.signCount - 1);
        SameLedgerKept(s, t, {});
        AsyncLedger(t, Sign(orderId), SignSent(orderId), {});
      }
    case WsConnected =>
      SameLedgerKept(s, s.(wsConnected := true), {});
      AsyncLedger(s.(wsConnected := true), Login, LoginDone, {});
    case WsDisconnected(listing) =>
      var t := s.(wsConnected := false, async := map[]);
      TakenAll(s, listing);
      FailAllLedger(t, s.async, listing);
      SameLedgerKept(FailAll(t, s.async, listing).state, Handle(s, m).state, {});
    case WsResponse(requestId, res, random) =>
      if Answers(s, m) {
        TakenOne(s, requestId.value);
        RunLedger(TakenOut(s, m), s.async[requestId.value], res, random);
      }
    case _ =>
      if Handle(s, m).Next? {
        SameLedgerKept(s, Handle(s, m).state, {});
      }
  }

  /** Every continuation ever stored is pending and has not run, or has run exactly once and is
      not pending; what runs is what was stored, and nothing else ever runs. */
  lemma StoredRunsOnce(s: State, k: RequestId)
    requires Ledger(s, {})
    ensures k in s.past.stored ==>
              || (k in s.async && s.async[k] == s.past.stored[k] && s.past.ran[(k, s.past.stored[k])] == 0)
              || (k !in s.async && s.past.ran[(k, s.past.stored[k])] == 1)
    ensures forall cb :: (k, cb) in s.past.ran ==> k in s.past.stored && s.past.stored[k] == cb && k !in s.async
  {
  }

  /** What a continuation does when its request fails: the login nothing, a submission the answer,
      a coin list and a signature the cancellation of their order (and the answer, if it is owed). */
  lemma FailedContinuation(s: State, cb: Callback)
    ensures var o := RunCallback(s, cb, Err, []);
            && o.Next? && o.state.past == s.past
            && o.state.orders == (if cb.PsetSent? || cb.SignSent? then s.orders[cb.orderId := Failed] else s.orders)
            && o.state.sent ==
                 s.sent + (if (cb.PsetSent? || cb.SignSent?) && s.wsConnected then [Cancel(cb.orderId)] else [])
            && o.state.answers ==
                 s.answers + (if cb.Submitted? then [(cb.reply, ServerError)]
                              else if cb.PsetSent? then [(cb.reply, NotInputs)] else [])
  {
  }

  // ---- unique keys ---------------------------------------------------------------------------------

  /** Of the orders ever recorded under a key, all but the current one have failed. */
  ghost predicate KeysUnique(s: State) {
    forall k, o :: (k, o) in s.past.accepted ==>
      k in s.uniqueOrders && o in s.orders && (o == s.uniqueOrders[k] || s.orders[o].Failed?)
  }

  /** The orders of pending PSET requests are known. */
  ghost predicate PsetsKnown(s: State) {
    forall r :: r in s.async && s.async[r].PsetSent? ==> s.async[r].orderId in s.orders
  }

  lemma KeysKept(s: State, t: State)
    requires KeysUnique(s) && Absorbing(s.orders, t.orders)
    requires t.past.accepted == s.past.accepted && t.uniqueOrders == s.uniqueOrders
    ensures KeysUnique(t)
  {
  }

  lemma AcceptKeepsKeys(s: State, orderId: OrderId, details: Details, uniqueKey: Option<string>, reply: ReplyId)
    requires KeysUnique(s) && orderId in s.orders
    ensures KeysUnique(AcceptOrder(s, orderId, details, uniqueKey, reply))
  {
  }

  lemma SubmitKnown(s: State, orderId: OrderId, d: Details, order: NewOrder, reply: ReplyId, random: seq<nat>)
    requires PsetsKnown(s)
    ensures var o := ProcessSubmitInputs(s, orderId, d, order, reply, random);
            o.Next? ==> PsetsKnown(o.state)
  {
    hide SelectionOfCoins, Candidates, Sum, Amounts, Payloads, ToSend;
    if s.swapInputs.Some? {
      var selected := SelectionOfCoins(Candidates(s, d, random), ToSend(s, d).1);
      if selected.Some? {
        var held := Payloads(selected.value);
        AsyncKnown(s.(orders := s.orders[orderId := Active(held)]), PsetMaker(orderId, held),
                   PsetSent(orderId, d, order.uniqueKey, reply));
      }
    }
  }

  lemma AsyncKnown(s: State, req: ServerRequest, cb: Callback)
    requires PsetsKnown(s) && (cb.PsetSent? ==> cb.orderId in s.orders)
    ensures var o := MakeAsyncRequest(s, req, cb);
            o.Next? ==>
              && PsetsKnown(o.state)
              && o.state.past.accepted == s.past.accepted && o.state.uniqueOrders == s.uniqueOrders
  {
    match cb
    case LoginDone =>
    case Submitted(_, _) =>
    case PsetSent(_, _, _, _) =>
    case SignSent(_) =>
  }

  lemma RunKeepsKeys(s: State, cb: Callback, res: ServerResult, random: seq<nat>)
    requires KeysUnique(s) && PsetsKnown(s) && IdsBelow(s)
    requires cb.PsetSent? ==> cb.orderId in s.orders
    requires var o := RunCallback(s, cb, res, random); o.Next? ==> Absorbing(s.orders, o.state.orders)
    ensures var o := RunCallback(s, cb, res, random);
            o.Next? ==> KeysUnique(o.state) && PsetsKnown(o.state)
  {
    var o := RunCallback(s, cb, res, random);
    if o.Next? {
      if res.Err? {
        ErrBalance(s, cb, 0);
        KeysKept(s, o.state);
      } else {
        match cb
        case LoginDone =>
          CancelAllSide(s, res.resp.active);
          KeysKept(s, o.state);
        case Submitted(order, reply) =>
          SubmitBalance(s, res.resp.orderId, res.resp.details, order, reply, random, 0);
          SubmitKnown(s, res.resp.orderId, res.resp.details, order, reply, random);
          KeysKept(s, o.state);
        case PsetSent(orderId, details, uniqueKey, reply) =>
          AcceptKeepsKeys(s, orderId, details, uniqueKey, reply);
        case SignSent(_) =>
      }
    }
  }

  lemma HandleKeepsKeys(s: State, m: Message)
    requires Reservations(s.orders) && InputsListedOnce(s) && Admissible(s, m) && Fresh(s, m)
    requires IdsBelow(s) && QuietWhenDown(s) && KeysUnique(s) && PsetsKnown(s)
    ensures var o := Handle(s, m); o.Next? ==> KeysUnique(o.state) && PsetsKnown(o.state)
  {
    HandleKeepsOrders(s, m);
    var o := Handle(s, m);
    if o.Next? {
      if m.WsResponse? {
        if Answers(s, m) {
          hide RunCallback, Reservations;
          RunKeepsKeys(TakenOut(s, m), s.async[m.requestId.value], m.res, m.random);
        }
      } else {
        HandleFrame(s, m);
        hide Handle, Reservations;
        KeysKept(s, o.state);
      }
    }
  }

  /** Only a response can change what is recorded under a key. */
  lemma HandleFrame(s: State, m: Message)
    requires PsetsKnown(s) && QuietWhenDown(s) && IdsBelow(s) && Admissible(s, m) && !m.WsResponse?
    requires var o := Handle(s, m); o.Next? ==> Absorbing(s.orders, o.state.orders)
    ensures var o := Handle(s, m);
            o.Next? ==>
              && o.state.past.accepted == s.past.accepted && o.state.uniqueOrders == s.uniqueOrders
              && PsetsKnown(o.state)
  {
    hide FailAll, RunCallback, MakeAsyncRequest;
    match m
    case WsDisconnected(listing) => DisconnectBalance(s, listing, 0);
    case ApiNewOrder(order, reply) =>
      AsyncKnown(Received(s, reply), Submit(order), Submitted(order, reply));
    case WalletSignedPset(orderId) =>
      if s.signCount > 0 {
        AsyncKnown(s.(signCount := s.signCount - 1), Sign(orderId), SignSent(orderId));
      }
    case WsConnected => AsyncKnown(s.(wsConnected := true), Login, LoginDone);
    case _ =>
  }

  // ---- the two threads -----------------------------------------------------------------------------

  /** The worker, the channel it reads, and (inside the worker's state) the wallet's queue. */
  datatype System = System(worker: State, inbox: seq<Message>)

  predicate IsSignReply(m: Message) {
    m.WalletSignedPset? || m.WalletSignFailed?
  }

  function SignReplies(inbox: seq<Message>): nat {
    if inbox == [] then 0
    else (if IsSignReply(inbox[0]) then 1 else 0) + SignReplies(inbox[1..])
  }

  lemma {:induction false} SignRepliesAppend(inbox: seq<Message>, m: Message)
    ensures SignReplies(inbox + [m]) == SignReplies(inbox) + if IsSignReply(m) then 1 else 0
  {
    if inbox == [] {
      assert inbox + [m] == [m];
    } else {
      SignRepliesAppend(inbox[1..], m);
      assert (inbox + [m])[1..] == inbox[1..] + [m];
    }
  }

  /** Anything but a sign reply may arrive from outside at any time. */
  ghost predicate Arrives(a: System, b: System, m: Message) {
    !IsSignReply(m) && b == a.(inbox := a.inbox + [m])
  }

  /** The wallet takes one signing request and answers it once, with a signature or a failure. */
  ghost predicate WalletSigns(a: System, b: System, success: bool) {
    && a.worker.walletQueue != []
    && var id := a.worker.walletQueue[0];
       b == System(a.worker.(walletQueue := a.worker.walletQueue[1..]),
                   a.inbox + [if success then WalletSignedPset(id) else WalletSignFailed(id)])
  }

  /** The worker handles the next message without panicking. With `newIds` the server gives every
      submitted order an id of its own. */
  ghost predicate Works(a: System, b: System, newIds: bool) {
    && a.inbox != [] && Admissible(a.worker, a.inbox[0])
    && (newIds ==> Fresh(a.worker, a.inbox[0]))
    && Handle(a.worker, a.inbox[0]).Next?
    && b == System(Handle(a.worker, a.inbox[0]).state, a.inbox[1..])
  }

  ghost predicate Step(a: System, b: System, newIds: bool) {
    || (exists m :: Arrives(a, b, m))
    || (exists success :: WalletSigns(a, b, success))
    || Works(a, b, newIds)
  }

  ghost predicate SignsCounted(y: System) {
    y.worker.signCount == |y.worker.walletQueue| + SignReplies(y.inbox)
  }

  ghost predicate WorkerInv(s: State, newIds: bool) {
    && Reservations(s.orders) && InputsListedOnce(s)
    && RepliesSettled(s) && Ledger(s, {})
    && (newIds ==> KeysUnique(s) && PsetsKnown(s))
  }

  ghost predicate Inv(y: System, newIds: bool) {
    WorkerInv(y.worker, newIds) && SignsCounted(y)
  }

  /** What a message does to the counter and the wallet's queue. */
  lemma HandleSigns(s: State, m: Message)
    requires IdsBelow(s) && Admissible(s, m)
    ensures var o := Handle(s, m);
            o.Next? ==>
              && o.state.signCount - |o.state.walletQueue| ==
                 s.signCount - |s.walletQueue| - (if IsSignReply(m) then 1 else 0)
  {
    hide FailAll, RunCallback, MakeAsyncRequest;
    match m
    case WsDisconnected(listing) => DisconnectBalance(s, listing, 0);
    case ApiNewOrder(order, reply) =>
      AsyncBalance(Received(s, reply), Submit(order), Submitted(order, reply), 0);
    case WalletSignedPset(orderId) =>
      if s.signCount > 0 {
        AsyncBalance(s.(signCount := s.signCount - 1), Sign(orderId), SignSent(orderId), 0);
      }
    case WsConnected => AsyncBalance(s.(wsConnected := true), Login, LoginDone, 0);
    case WsResponse(requestId, res, random) =>
      if Answers(s, m) {
        RunBalance(TakenOut(s, m), s.async[requestId.value], res, random, 0);
      }
    case _ =>
  }

  lemma WorkerKeepsInv(s: State, m: Message, newIds: bool)
    requires WorkerInv(s, newIds) && Admissible(s, m) && (newIds ==> Fresh(s, m))
    ensures var o := Handle(s, m); o.Next? ==> WorkerInv(o.state, newIds)
  {
    var o := Handle(s, m);
    HandleKeepsOrders(s, m);
    if newIds {
      HandleKeepsKeys(s, m);
    }
    HandleBalance(s, m, 0);
    HandleLedger(s, m);
    hide Handle, Ledger, Reservations, KeysUnique, PsetsKnown;
    forall r ensures o.Next? ==> Balance(o.state, r) == 0 {
      HandleBalance(s, m, r);
    }
  }

  lemma StepKeepsInv(a: System, b: System, newIds: bool)
    requires Inv(a, newIds) && Step(a, b, newIds)
    ensures Inv(b, newIds)
  {
    if m :| Arrives(a, b, m) {
      SignRepliesAppend(a.inbox, m);
    } else if success :| WalletSigns(a, b, success) {
      var id := a.worker.walletQueue[0];
      SignRepliesAppend(a.inbox, if success then WalletSignedPset(id) else WalletSignFailed(id));
      forall r ensures Balance(b.worker, r) == 0 {
        SameBooks(a.worker, b.worker, r);
      }
    } else {
      hide Handle, Reservations, KeysUnique;
      HandleSigns(a.worker, a.inbox[0]);
      WorkerKeepsInv(a.worker, a.inbox[0], newIds);
    }
  }

  ghost predicate Run(run: seq<System>, policyAsset: AssetId, newIds: bool) {
    && run != [] && run[0] == System(Init(policyAsset), [])
    && forall i :: 0 <= i < |run| - 1 ==> Step(run[i], run[i + 1], newIds)
  }

  /** Safety over whole runs: in every state of every run the reservations are disjoint, every
      reply channel is accounted for, and the signing requests in flight are counted exactly; if
      the server reuses no order id, at most the current order of a key is alive. */
  lemma {:induction false} RunsAreSafe(run: seq<System>, policyAsset: AssetId, newIds: bool, n: nat)
    requires Run(run, policyAsset, newIds) && n < |run|
    ensures Inv(run[n], newIds)
    decreases n
  {
    if n == 0 {
      assert forall r :: Holders(map[], r) == {};
    } else {
      RunsAreSafe(run, policyAsset, newIds, n - 1);
      StepKeepsInv(run[n - 1], run[n], newIds);
    }
  }

  /** In a run without reused order ids an order that has failed never comes back. */
  lemma {:induction false} FailedStaysFailed(run: seq<System>, policyAsset: AssetId, i: nat, j: nat, o: OrderId)
    requires Run(run, policyAsset, true) && i <= j < |run|
    requires o in run[i].worker.orders && run[i].worker.orders[o].Failed?
    ensures o in run[j].worker.orders && run[j].worker.orders[o].Failed?
    decreases j
  {
    if i < j {
      FailedStaysFailed(run, policyAsset, i, j - 1, o);
      RunsAreSafe(run, policyAsset, true, j - 1);
      var a, b := run[j - 1], run[j];
      assert Step(a, b, true);
      if Works(a, b, true) {
        HandleKeepsOrders(a.worker, a.inbox[0]);
      }
    }
  }

  // ---- what the invariant means --------------------------------------------------------------------

  /** A request whose reply channel is its own was answered once and holds nothing, or was not
      answered and exactly one pending request holds its channel. */
  lemma AnsweredOnceOrPending(s: State, reply: ReplyId)
    requires RepliesSettled(s) && s.past.handled[reply] == 1
    ensures || (AnswersTo(s.answers, reply) == 1 && Holders(s.async, reply) == {})
            || (AnswersTo(s.answers, reply) == 0 && |Holders(s.async, reply)| == 1)
  {
    assert Balance(s, reply) == 0;
  }

  /** Right after a disconnect nothing is pending: every request has been answered. */
  lemma DisconnectSettlesAll(s: State, listing: seq<RequestId>, reply: ReplyId)
    requires RepliesSettled(s) && Admissible(s, WsDisconnected(listing))
    ensures var o := Handle(s, WsDisconnected(listing));
            o.Next? && o.state.async == map[] && AnswersTo(o.state.answers, reply) == o.state.past.handled[reply]
  {
    DisconnectBalance(s, listing, reply);
    assert Balance(s, reply) == 0;
    assert Holders(map[], reply) == {};
  }

  /** At most one of the orders ever recorded under a key is active or completed. */
  lemma OneLiveOrderPerKey(s: State, key: string, a: OrderId, b: OrderId)
    requires KeysUnique(s) && (key, a) in s.past.accepted && (key, b) in s.past.accepted
    requires Live(s.orders, a) && Live(s.orders, b)
    ensures a == b
  {
    assert a == s.uniqueOrders[key];
  }

  /** A response of the wrong kind, or a quote for an order that sends nothing. */
  predicate WrongAnswer(s: State, cb: Callback, res: ServerResult) {
    res.Ok? &&
    match cb
    case LoginDone => !res.resp.LoginResp?
    case PsetSent(_, _, _, _) => !res.resp.PsetMakerResp?
    case SignSent(_) => !res.resp.SignResp?
    case Submitted(_, _) => !res.resp.SubmitResp? || (s.swapInputs.Some? && ToSend(s, res.resp.details).1 <= 0)
  }

  /** The server sends a response without a request id or a wrong answer, or completes an order
      that is not active. */
  predicate ServerBreaksProtocol(s: State, m: Message) {
    || (m.WsComplete? && m.txid.Some? && !(m.orderId in s.orders && s.orders[m.orderId].Active?))
    || (m.WsResponse? && m.requestId.None?)
    || (Answers(s, m) && WrongAnswer(s, s.async[m.requestId.value], m.res))
  }

  /** The worker panics exactly when the server breaks the protocol or a sign reply was not counted. */
  lemma PanicsExactly(s: State, m: Message)
    requires IdsBelow(s) && Admissible(s, m)
    ensures Handle(s, m).Panic? <==> ServerBreaksProtocol(s, m) || (IsSignReply(m) && s.signCount == 0)
  {
    match m
    case ApiNewOrder(order, reply) =>
      AsyncBalance(Received(s, reply), Submit(order), Submitted(order, reply), 0);
    case WalletSignedPset(orderId) =>
      if s.signCount > 0 {
        AsyncBalance(s.(signCount := s.signCount - 1), Sign(orderId), SignSent(orderId), 0);
      }
    case WsConnected => AsyncBalance(s.(wsConnected := true), Login, LoginDone, 0);
    case WsDisconnected(listing) => DisconnectBalance(s, listing, 0);
    case WsResponse(requestId, res, random) =>
      if Answers(s, m) {
        ResponsePanics(TakenOut(s, m), s.async[requestId.value], res, random);
      }
    case _ =>
  }

  /** In a reachable state the worker panics exactly when the server breaks the protocol: neither
      the coin selection nor the counter can fail. */
  lemma PanicsOnlyOnServerFault(y: System, newIds: bool)
    requires Inv(y, newIds) && y.inbox != [] && Admissible(y.worker, y.inbox[0])
    ensures Handle(y.worker, y.inbox[0]).Panic? <==> ServerBreaksProtocol(y.worker, y.inbox[0])
  {
    PanicsExactly(y.worker, y.inbox[0]);
    hide Handle;
  }

  lemma ResponsePanics(s: State, cb: Callback, res: ServerResult, random: seq<nat>)
    requires IdsBelow(s)
    ensures RunCallback(s, cb, res, random).Panic? <==> WrongAnswer(s, cb, res)
  {
    if cb.Submitted? && res.Ok? && res.resp.SubmitResp? && s.swapInputs.Some? {
      SubmitPanics(s, res.resp.orderId, res.resp.details, cb.order, cb.reply, random);
    }
  }

  lemma SubmitPanics(s: State, orderId: OrderId, d: Details, order: NewOrder, reply: ReplyId, random: seq<nat>)
    requires IdsBelow(s) && s.swapInputs.Some?
    ensures ProcessSubmitInputs(s, orderId, d, order, reply, random).Panic? <==> ToSend(s, d).1 <= 0
  {
    CandidatesNonNegative(s, d, random);
    SumNonNegative(Amounts(Candidates(s, d, random)));
    if Sum(Amounts(Candidates(s, d, random))) >= ToSend(s, d).1 > 0 {
      SelectionSucceeds(s, d, random);
      var held := Payloads(SelectionOfCoins(Candidates(s, d, random), ToSend(s, d).1).value);
      hide Candidates, SelectionOfCoins, Payloads, Sum;
      AsyncBalance(s.(orders := s.orders[orderId := Active(held)]), PsetMaker(orderId, held),
                   PsetSent(orderId, d, order.uniqueKey, reply), 0);
    }
  }
}
