/** The headless order server's worker: one thread that consumes API requests, wallet messages
    and websocket events, keeps the continuation of every outstanding server request, and
    reserves wallet coins for its orders. Panics end a run. */
module HeadlessServer {
  import opened Sequences
  import opened CoinSelection
  import opened Shuffle

  type OrderId = int
  type AssetId = int
  type RequestId = nat
  type ReplyId = int
  type Txid = int

  datatype OutPoint = OutPoint(txid: Txid, vout: nat)
  datatype Coin = Coin(outpoint: OutPoint, satoshi: nat)

  datatype OrderState =
    | Active(held: seq<OutPoint>)
    | Succeed(held: seq<OutPoint>, txid: Txid)
    | Failed

  datatype Details = Details(
    asset: AssetId, sendBitcoins: bool, bitcoinAmount: int, serverFee: int, assetAmount: int)

  datatype NewOrder = NewOrder(asset: AssetId, assetAmount: real, price: real, uniqueKey: Option<string>)

  /** The stored continuations, one constructor per closure of the worker. */
  datatype Callback =
    | LoginDone
    | Submitted(order: NewOrder, reply: ReplyId)
    | PsetSent(orderId: OrderId, details: Details, uniqueKey: Option<string>, reply: ReplyId)
    | SignSent(orderId: OrderId)

  datatype ServerRequest =
    | Connect
    | Login
    | Submit(order: NewOrder)
    | PsetMaker(orderId: OrderId, inputs: seq<OutPoint>)
    | Sign(orderId: OrderId)
    | Cancel(orderId: OrderId)

  datatype Response =
    | LoginResp(active: seq<OrderId>)
    | SubmitResp(orderId: OrderId, details: Details)
    | PsetMakerResp
    | SignResp
    | OtherResp

  datatype ServerResult = Ok(resp: Response) | Err

  datatype Status = IsActive | IsSucceed(txid: Txid) | IsExpired

  datatype Answer = Created(orderId: OrderId, details: Details) | StatusIs(status: Status)
                  | ServerError | NotInputs | DuplicatedOrder | TooManyRequest

  datatype State = State(
    policyAsset: AssetId,
    wsConnected: bool,
    nextId: RequestId,
    async: map<RequestId, Callback>,
    sent: seq<ServerRequest>,
    walletQueue: seq<OrderId>,
    orders: map<OrderId, OrderState>,
    swapInputs: Option<map<AssetId, seq<Coin>>>,
    uniqueOrders: map<string, OrderId>,
    signCount: nat,
    answers: seq<(ReplyId, Answer)>,
    past: History)

  /** The requests that took a reply channel, the orders ever recorded under a key, the continuations
      ever stored and those that were run, and the orders ever completed. */
  datatype History = History(
    handled: multiset<ReplyId>,
    accepted: set<(string, OrderId)>,
    stored: map<RequestId, Callback>,
    ran: multiset<(RequestId, Callback)>,
    completed: set<OrderId>)

  datatype Outcome = Next(state: State) | Panic

  function Init(policyAsset: AssetId): State {
    State(policyAsset, false, 0, map[], [Connect], [], map[], None, map[], 0, [],
          History(multiset{}, {}, map[], multiset{}, {}))
  }

  // ---- small steps -----------------------------------------------------------------------------

  function SendRequest(s: State, req: ServerRequest): State {
    if s.wsConnected then s.(sent := s.sent + [req], nextId := s.nextId + 1) else s
  }

  /** A request with a reply channel of its own. */
  function Received(s: State, reply: ReplyId): State {
    s.(past := s.past.(handled := s.past.handled + multiset{reply}))
  }

  function AnswerTo(s: State, reply: ReplyId, a: Answer): State {
    s.(answers := s.answers + [(reply, a)])
  }

  function CancelOrder(s: State, orderId: OrderId): State {
    SendRequest(s.(orders := s.orders[orderId := Failed]), Cancel(orderId))
  }

  function CancelAll(s: State, orderIds: seq<OrderId>): State
    decreases |orderIds|
  {
    if orderIds == [] then s else CancelAll(CancelOrder(s, orderIds[0]), orderIds[1..])
  }

  function Held(o: OrderState): seq<OutPoint> {
    if o.Failed? then [] else o.held
  }

  function Reserved(orders: map<OrderId, OrderState>): set<OutPoint> {
    set o, i | o in orders && 0 <= i < |Held(orders[o])| :: Held(orders[o])[i]
  }

  function WithAmounts(coins: seq<Coin>): (r: seq<(int, OutPoint)>)
    ensures |r| == |coins|
    ensures forall i :: 0 <= i < |coins| ==> r[i] == (coins[i].satoshi, coins[i].outpoint)
  {
    seq(|coins|, i requires 0 <= i < |coins| => (coins[i].satoshi as int, coins[i].outpoint))
  }

  function Free(coins: seq<(int, OutPoint)>, reserved: set<OutPoint>): seq<(int, OutPoint)> {
    if coins == [] then []
    else (if coins[0].1 in reserved then [] else [coins[0]]) + Free(coins[1..], reserved)
  }

  /** The asset and the amount an order has to send. */
  function ToSend(s: State, d: Details): (AssetId, int) {
    if d.sendBitcoins then (s.policyAsset, d.bitcoinAmount + d.serverFee) else (d.asset, d.assetAmount)
  }

  /** The free coins an order may use, in the order in which the selection sees them. */
  function Candidates(s: State, d: Details, random: seq<nat>): seq<(int, OutPoint)>
    requires s.swapInputs.Some?
  {
    var asset := ToSend(s, d).0;
    var coins := if asset in s.swapInputs.value then s.swapInputs.value[asset] else [];
    Shuffled(Free(WithAmounts(coins), Reserved(s.orders)), random)
  }

  // ---- continuations ---------------------------------------------------------------------------

  function MakeAsyncRequest(s: State, req: ServerRequest, cb: Callback): Outcome
    decreases cb.Submitted?, 1
  {
    if !s.wsConnected then RunCallback(s, cb, Err, [])
    else
      Next(s.(sent := s.sent + [req], nextId := s.nextId + 1, async := s.async[s.nextId := cb],
              past := s.past.(stored := s.past.stored[s.nextId := cb])))
  }

  /** A stored continuation that has been taken out is run. */
  function RunStored(s: State, id: RequestId, cb: Callback, res: ServerResult, random: seq<nat>): Outcome {
    RunCallback(Entered(s, id, cb), cb, res, random)
  }

  function Entered(s: State, id: RequestId, cb: Callback): State {
    s.(past := s.past.(ran := s.past.ran + multiset{(id, cb)}))
  }

  function RunCallback(s: State, cb: Callback, res: ServerResult, random: seq<nat>): Outcome
    decreases cb.Submitted?, 0
  {
    match cb
    case LoginDone =>
      if res.Err? then Next(s)
      else if res.resp.LoginResp? then Next(CancelAll(s, res.resp.active))
      else Panic
    case Submitted(order, reply) =>
      if res.Err? then Next(AnswerTo(s, reply, ServerError))
      else if res.resp.SubmitResp? then
        ProcessSubmitInputs(s, res.resp.orderId, res.resp.details, order, reply, random)
      else Panic
    case PsetSent(orderId, details, uniqueKey, reply) =>
      if res.Err? then Next(AnswerTo(CancelOrder(s, orderId), reply, NotInputs))
      else if res.resp.PsetMakerResp? then Next(AcceptOrder(s, orderId, details, uniqueKey, reply))
      else Panic
    case SignSent(orderId) =>
      if res.Err? then Next(CancelOrder(s, orderId))
      else if res.resp.SignResp? then Next(s)
      else Panic
  }

  function ProcessSubmitInputs(s: State, orderId: OrderId, details: Details, order: NewOrder,
                               reply: ReplyId, random: seq<nat>): Outcome
    decreases false, 2
  {
    if s.swapInputs.None? then Next(AnswerTo(CancelOrder(s, orderId), reply, NotInputs))
    else
      var inputs := Candidates(s, details, random);
      var amount := ToSend(s, details).1;
      if Sum(Amounts(inputs)) < amount then Next(AnswerTo(CancelOrder(s, orderId), reply, NotInputs))
      else if amount <= 0 then Panic
      else
        var selected := SelectionOfCoins(inputs, amount);
        if selected.None? then Panic
        else
          var held := Payloads(selected.value);
          MakeAsyncRequest(s.(orders := s.orders[orderId := Active(held)]), PsetMaker(orderId, held),
                           PsetSent(orderId, details, order.uniqueKey, reply))
  }

  predicate Live(orders: map<OrderId, OrderState>, orderId: OrderId) {
    orderId in orders && !orders[orderId].Failed?
  }

  function AcceptOrder(s: State, orderId: OrderId, details: Details, uniqueKey: Option<string>,
                       reply: ReplyId): State {
    if uniqueKey.None? then AnswerTo(s, reply, Created(orderId, details))
    else if uniqueKey.value in s.uniqueOrders && Live(s.orders, s.uniqueOrders[uniqueKey.value]) then
      CancelOrder(AnswerTo(s, reply, DuplicatedOrder), orderId)
    else
      AnswerTo(s.(uniqueOrders := s.uniqueOrders[uniqueKey.value := orderId],
                  past := s.past.(accepted := s.past.accepted + {(uniqueKey.value, orderId)})),
               reply, Created(orderId, details))
  }

  // ---- messages --------------------------------------------------------------------------------

  /** Everything the worker's channel carries. The random numbers feed the coin shuffle; the
      listing of a disconnect is the order in which the pending requests are visited. */
  datatype Message =
    | ApiNewOrder(order: NewOrder, reply: ReplyId)
    | ApiOrderStatus(orderId: OrderId, reply: ReplyId)
    | WalletSwapInputs(utxos: map<AssetId, seq<Coin>>)
    | WalletSignedPset(orderId: OrderId)
    | WalletSignFailed(orderId: OrderId)
    | WsConnected
    | WsDisconnected(listing: seq<RequestId>)
    | WsResponse(requestId: Option<RequestId>, res: ServerResult, random: seq<nat>)
    | WsOrderRemoved(orderId: OrderId)
    | WsComplete(orderId: OrderId, txid: Option<Txid>)
    | WsSign(orderId: OrderId)
    | WsOther

  function StatusOf(orders: map<OrderId, OrderState>, orderId: OrderId): Status {
    if orderId !in orders then IsExpired
    else match orders[orderId]
      case Active(_) => IsActive
      case Succeed(_, txid) => IsSucceed(txid)
      case Failed => IsExpired
  }

  /** The continuations of a closed connection, all with an error. */
  function FailAll(s: State, pending: map<RequestId, Callback>, listing: seq<RequestId>): Outcome
    decreases |listing|
  {
    if listing == [] then Next(s)
    else if listing[0] !in pending then Panic
    else
      var o := RunStored(s, listing[0], pending[listing[0]], Err, []);
      if o.Panic? then Panic else FailAll(o.state, pending, listing[1..])
  }

  function Handle(s: State, m: Message): Outcome {
    match m
    case ApiNewOrder(order, reply) =>
      var s := Received(s, reply);
      if s.signCount > 5 then Next(AnswerTo(s, reply, TooManyRequest))
      else MakeAsyncRequest(s, Submit(order), Submitted(order, reply))
    case ApiOrderStatus(orderId, reply) =>
      var s := Received(s, reply);
      Next(AnswerTo(s, reply, StatusIs(StatusOf(s.orders, orderId))))
    case WalletSwapInputs(utxos) => Next(s.(swapInputs := Some(utxos)))
    case WalletSignedPset(orderId) =>
      if s.signCount == 0 then Panic
      else MakeAsyncRequest(s.(signCount := s.signCount - 1), Sign(orderId), SignSent(orderId))
    case WalletSignFailed(orderId) =>
      if s.signCount == 0 then Panic
      else Next(CancelOrder(s.(signCount := s.signCount - 1), orderId))
    case WsConnected => MakeAsyncRequest(s.(wsConnected := true), Login, LoginDone)
    case WsDisconnected(listing) =>
      var o := FailAll(s.(wsConnected := false, async := map[]), s.async, listing);
      if o.Panic? then Panic else Next(o.state.(sent := o.state.sent + [Connect]))
    case WsResponse(requestId, res, random) =>
      if requestId.None? then Panic
      else
        var id := requestId.value;
        if id !in s.async then Next(s)
        else RunStored(s.(async := s.async - {id}), id, s.async[id], res, random)
    case WsOrderRemoved(orderId) =>
      if orderId in s.orders && !s.orders[orderId].Active? then
        Next(s.(orders := s.orders[orderId := Failed]))
      else Next(s)
    case WsComplete(orderId, txid) =>
      if txid.None? then Next(s.(orders := s.orders[orderId := Failed]))
      else if orderId in s.orders && s.orders[orderId].Active? then
        Next(s.(orders := s.orders[orderId := Succeed(s.orders[orderId].held, txid.value)],
                past := s.past.(completed := s.past.completed + {orderId})))
      else Panic
    case WsSign(orderId) =>
      Next(s.(walletQueue := s.walletQueue + [orderId], signCount := s.signCount + 1))
    case WsOther => Next(s)
  }
}
