/** The client's order-signing machine: submit records, sign notifications, the queue of review
    prompts, user decisions and price edits. Each handler of the worker is a composition of the
    operations below; wallet and server outcomes are parameters of an operation. */
module ClientSigning {
  import opened Sequences
  import opened Money

  type OrderId = int
  type AssetId = int
  type Txid = int

  datatype Side = Maker | Taker
  datatype OrderType = Bitcoin | Asset

  datatype Details = Details(
    asset: AssetId, bitcoinAmount: int, assetAmount: int, price: real, serverFee: int,
    side: Side, sendBitcoins: bool, orderType: OrderType, market: MarketType)

  /** What the client remembers of an order it submitted. */
  datatype Record = Record(
    side: Side, asset: AssetId, precision: nat, orderType: OrderType, bitcoinAmount: int,
    assetAmount: int, price: real, serverFee: int, sellBitcoin: bool, autoSign: bool,
    txid: Option<Txid>, indexPrice: bool, market: MarketType, signed: bool)

  datatype SignMsg = SignMsg(orderId: OrderId, details: Details)
  datatype Link = Link(orderId: OrderId, details: Details, indexPrice: bool)

  /** The amounts the wallet is asked to check the transaction against. */
  datatype SwapAmounts = SwapAmounts(sendAsset: AssetId, sendAmount: int, recvAsset: AssetId, recvAmount: int)

  /** The terms of an order as its record has them. */
  datatype Terms = Terms(
    asset: AssetId, precision: nat, orderType: OrderType, sellBitcoin: bool, market: MarketType,
    bitcoinAmount: int, assetAmount: int, price: real, serverFee: int)

  /** A Sign request: the amounts the wallet checked, and the terms it was made for. */
  datatype SignRequest = SignRequest(orderId: OrderId, amounts: SwapAmounts, terms: Terms)

  /** What has happened to the terms of orders and on the screen: a notification was accepted, the price
      was edited, an order was recorded (placed or found missing), a prompt was shown, a Sign request
      went out, an order to place was shown for review, a prompt or a review was closed, automatic
      signing was chosen for an order or forced for all, the user agreed to a prompt. */
  datatype Event =
    | Notified(msg: SignMsg, terms: Terms)
    | Edited(orderId: OrderId, terms: Terms)
    | Recorded(orderId: OrderId, terms: Terms, origin: Origin)
    | Shown(orderId: OrderId, terms: Terms)
    | Signed(request: SignRequest)
    | Linked(orderId: OrderId)
    | Left
    | AutoSet(orderId: OrderId, autoSign: bool)
    | Forced(force: bool)
    | Agreed(orderId: OrderId)

  /** How an order came to be recorded: placed by the user, with the choice made then, or found missing,
      when two-step orders count as chosen for automatic signing. */
  datatype Origin = Placed(link: Link, autoSign: bool) | Restored(details: Details, twoStep: bool)

  /** How a signing attempt ends: the wallet refuses, or the request goes out and the server
      rejects or accepts it. */
  datatype SignOutcome = WalletRefuses | ServerRejects | ServerAccepts

  datatype State = State(
    liquidAsset: AssetId,
    assets: map<AssetId, nat>,
    forceAutoSign: bool,
    submitData: map<OrderId, Record>,
    processedSigns: set<OrderId>,
    pendingSigns: set<OrderId>,
    pendingSignRequests: seq<SignMsg>,
    pendingSignPrompts: seq<SignMsg>,
    activeSign: Option<SignMsg>,
    visibleSubmit: Option<OrderId>,
    waitingSubmit: Option<OrderId>,
    activeSubmits: map<OrderId, Link>,
    log: seq<Event>)

  function Init(liquidAsset: AssetId): State {
    State(liquidAsset, map[], false, map[], {}, {}, [], [], None, None, None, map[], [])
  }

  /** The review or prompt is taken off the screen. */
  function Closed(s: State): State {
    Logged(s.(visibleSubmit := None), Left)
  }

  function Logged(s: State, e: Event): State {
    s.(log := s.log + [e])
  }

  function TermsOf(rec: Record): Terms {
    Terms(rec.asset, rec.precision, rec.orderType, rec.sellBitcoin, rec.market, rec.bitcoinAmount,
          rec.assetAmount, rec.price, rec.serverFee)
  }

  // ---- amount checks ---------------------------------------------------------------------------

  predicate PriceFormula(orderType: OrderType, bitcoinAmount: int, assetAmount: int, price: real,
                         precision: nat, market: MarketType)
    requires price > 0.0
  {
    match orderType
    case Bitcoin => AssetAmount(bitcoinAmount, price, precision, market) == assetAmount
    case Asset => BitcoinAmount(assetAmount, price, precision, market) == bitcoinAmount
  }

  /** `verify_amounts` */
  predicate AmountsVerified(s: State, d: Details) {
    && d.asset != s.liquidAsset
    && d.price > 0.0
    && d.bitcoinAmount >= MIN_BITCOIN_AMOUNT
    && d.serverFee >= MIN_SERVER_FEE
    && d.assetAmount > 0
    && d.serverFee < d.bitcoinAmount
    && d.asset in s.assets
    && s.assets[d.asset] <= 8
    && (d.orderType.Bitcoin? ==> s.assets[d.asset] == 8)
    && PriceFormula(d.orderType, d.bitcoinAmount, d.assetAmount, d.price, s.assets[d.asset], d.market)
    && d.serverFee == GetServerFee(d.bitcoinAmount)
  }

  /** A record and a sign notification agree on everything that may not change. */
  predicate Matches(rec: Record, d: Details) {
    && rec.sellBitcoin == d.sendBitcoins
    && rec.orderType == d.orderType
    && rec.asset == d.asset
    && (match rec.orderType
        case Bitcoin => rec.serverFee == d.serverFee && rec.bitcoinAmount == d.bitcoinAmount
        case Asset => rec.assetAmount == d.assetAmount)
    && rec.side == d.side
    && (d.price == rec.price || !rec.side.Taker?)
  }

  const INDEX_PRICE_CHANGE: real := 0.1

  /** Signing without asking: always for a taker; for a maker only within the allowed change. */
  predicate AutoSignAllowed(s: State, rec: Record, d: Details) {
    rec.side.Taker? || s.forceAutoSign || (rec.autoSign && WithinChange(rec, d))
  }

  /** The relative change of the price is allowed; against a recorded price of zero it is infinite, and
      against a negative one it is negative and always allowed. */
  predicate WithinChange(rec: Record, d: Details) {
    var change := if d.price >= rec.price then d.price - rec.price else rec.price - d.price;
    rec.price != 0.0 && Over(change, rec.price) <= (if rec.indexPrice then INDEX_PRICE_CHANGE else 0.0)
  }

  /** For a positive price no allowed change means no change. */
  lemma NoChange(rec: Record, d: Details)
    requires rec.price > 0.0 && !rec.indexPrice && WithinChange(rec, d)
    ensures rec.price == d.price
  {
    var change := if d.price >= rec.price then d.price - rec.price else rec.price - d.price;
    Quotient(change, rec.price);
    MulAtMost(Over(change, rec.price), 0.0, rec.price);
    assert Times(0.0, rec.price) == 0.0;
  }

  function AmountsOf(s: State, rec: Record): SwapAmounts {
    if rec.sellBitcoin then
      SwapAmounts(s.liquidAsset, rec.bitcoinAmount + rec.serverFee, rec.asset, rec.assetAmount)
    else
      SwapAmounts(rec.asset, rec.assetAmount, s.liquidAsset, rec.bitcoinAmount - rec.serverFee)
  }

  // ---- signing ---------------------------------------------------------------------------------

  function TrySign(s: State, msg: SignMsg, outcome: SignOutcome): State {
    if msg.orderId !in s.submitData || outcome.WalletRefuses? then s
    else
      var rec := s.submitData[msg.orderId];
      var t := Logged(s, Signed(SignRequest(msg.orderId, AmountsOf(s, rec), TermsOf(rec))));
      if outcome.ServerRejects? then t
      else t.(submitData := s.submitData[msg.orderId := rec.(signed := true)])
  }

  /** Show the next prompt whose order is still known, unless something is on screen. */
  function ProcessPrompts(s: State): State
    decreases |s.pendingSignPrompts|
  {
    if s.visibleSubmit.Some? || s.pendingSignPrompts == [] then s
    else
      var msg := s.pendingSignPrompts[0];
      var t := s.(pendingSignPrompts := s.pendingSignPrompts[1..]);
      if msg.orderId !in s.submitData then ProcessPrompts(t)
      else
        Logged(t.(visibleSubmit := Some(msg.orderId), activeSign := Some(msg)),
               Shown(msg.orderId, TermsOf(s.submitData[msg.orderId])))
  }

  predicate Accepted(s: State, msg: SignMsg) {
    && AmountsVerified(s, msg.details)
    && msg.orderId in s.submitData
    && Matches(s.submitData[msg.orderId], msg.details)
  }

  function Updated(rec: Record, d: Details): Record {
    rec.(price := d.price, assetAmount := d.assetAmount, bitcoinAmount := d.bitcoinAmount,
         serverFee := d.serverFee)
  }

  /** An accepted notification: the record takes its amounts, and it is signed or queued for a prompt. */
  function Settle(s: State, msg: SignMsg, outcome: SignOutcome): State
    requires msg.orderId in s.submitData
  {
    var rec := s.submitData[msg.orderId];
    var t := Logged(s.(submitData := s.submitData[msg.orderId := Updated(rec, msg.details)]),
                    Notified(msg, TermsOf(Updated(rec, msg.details))));
    if AutoSignAllowed(s, rec, msg.details) then TrySign(t, msg, outcome)
    else ProcessPrompts(t.(pendingSignPrompts := t.pendingSignPrompts + [msg]))
  }

  /** `try_process_sign` */
  function TryProcessSign(s: State, msg: SignMsg, outcome: SignOutcome): State {
    if msg.orderId in s.processedSigns then s
    else
      var s := s.(processedSigns := s.processedSigns + {msg.orderId});
      if !Accepted(s, msg) then s else Settle(s, msg, outcome)
  }

  // ---- operations ------------------------------------------------------------------------------

  datatype Op =
    | LearnAsset(asset: AssetId, precision: nat)
    | SetForceAutoSign(force: bool)
    | PushSign(orderId: OrderId)
    | TakePendingSigns
    | ShowLink(link: Link)
    | QueueSign(msg: SignMsg)
    | NextSign(outcome: SignOutcome)
    | DirectSign(msg: SignMsg, outcome: SignOutcome)
    | ShowPrompts
    | Decide(orderId: OrderId, accept: bool, autoSign: bool, placed: bool, outcome: SignOutcome)
    | EditPrice(orderId: OrderId, price: real)
    | EditAutoSign(orderId: OrderId, autoSign: bool)
    | Complete(orderId: OrderId, txid: Option<Txid>)
    | AddMissing(orderId: OrderId, details: Details, twoStep: bool)
    | Logout

  function NewRecord(s: State, link: Link, autoSign: bool): Record
    requires link.details.asset in s.assets
  {
    var d := link.details;
    Record(d.side, d.asset, s.assets[d.asset], d.orderType, d.bitcoinAmount, d.assetAmount, d.price,
           d.serverFee, d.sendBitcoins, autoSign && d.side.Maker?, None, link.indexPrice, d.market, false)
  }

  function Reviewed(s: State, waiting: bool): State {
    Closed(s.(waitingSubmit := if waiting then s.visibleSubmit else s.waitingSubmit))
  }

  /** The part of `process_submit_decision` after the reply to the user. */
  function CloseReview(s: State, waiting: bool): State {
    ProcessPrompts(Reviewed(s, waiting))
  }

  /** A decision signs the active prompt, or places the order under review, or does neither. The
      flag `placed` tells whether the wallet and the server let the order through. */
  function ApplyDecision(s: State, orderId: OrderId, accept: bool, autoSign: bool, placed: bool,
                         outcome: SignOutcome): State {
    if !accept then CloseReview(s, false)
    else if s.activeSign.Some? && s.activeSign.value.orderId == orderId then
      var t := TrySign(Agreeing(s, orderId), s.activeSign.value, outcome);
      CloseReview(t, orderId in s.submitData && outcome.ServerAccepts?)
    else if orderId !in s.activeSubmits then CloseReview(s, false)
    else
      var link := s.activeSubmits[orderId];
      var t := s.(activeSubmits := s.activeSubmits - {orderId});
      if !AmountsVerified(s, link.details) || !placed then CloseReview(t, false)
      else
        CloseReview(WithRecord(t, orderId, NewRecord(t, link, autoSign), Placed(link, autoSign)),
                    link.details.side.Taker?)
  }

  /** An order is recorded anew. */
  function WithRecord(s: State, orderId: OrderId, rec: Record, origin: Origin): State {
    Logged(s.(submitData := s.submitData[orderId := rec]), Recorded(orderId, TermsOf(rec), origin))
  }

  /** The user agrees to the active prompt, which is taken. */
  function Agreeing(s: State, orderId: OrderId): State {
    Logged(s.(activeSign := None), Agreed(orderId))
  }

  const I64_MAX: int := 0x7fff_ffff_ffff_ffff

  /** The quotient by a price of zero, cast to an integer. */
  function ByZero(n: int): int {
    if n > 0 then I64_MAX else if n < 0 then -I64_MAX - 1 else 0
  }

  /** A price edit computes the other amount anew; the code does not check the price. */
  function Repriced(rec: Record, price: real): Record {
    match rec.orderType
    case Bitcoin =>
      rec.(price := price,
           assetAmount := if price != 0.0 then AssetAmount(rec.bitcoinAmount, price, rec.precision, rec.market)
                          else if rec.market.PricedInBitcoins() then ByZero(rec.bitcoinAmount) else 0)
    case Asset =>
      var bitcoin := if price != 0.0 then BitcoinAmount(rec.assetAmount, price, rec.precision, rec.market)
                     else if rec.market.PricedInBitcoins() then 0 else ByZero(rec.assetAmount);
      rec.(price := price, bitcoinAmount := bitcoin, serverFee := GetServerFee(bitcoin))
  }

  function MissingRecord(s: State, d: Details, twoStep: bool): Record
    requires d.asset in s.assets
  {
    Record(Maker, d.asset, s.assets[d.asset], d.orderType, d.bitcoinAmount, d.assetAmount, d.price,
           d.serverFee, d.sendBitcoins == d.side.Maker?, twoStep, None, false, d.market, false)
  }

  function ApplyComplete(s: State, orderId: OrderId, txid: Option<Txid>): State {
    if txid.Some? then
      if orderId !in s.submitData then s
      else s.(submitData := s.submitData[orderId := s.submitData[orderId].(txid := txid)])
    else
      var t := s.(submitData := s.submitData - {orderId});
      if s.visibleSubmit == Some(orderId) || (s.visibleSubmit.None? && s.waitingSubmit == Some(orderId)) then
        ProcessPrompts(Closed(t))
      else t
  }

  function Apply(s: State, op: Op): State {
    match op
    case LearnAsset(asset, precision) =>
      if asset in s.assets then s else s.(assets := s.assets[asset := precision])
    case SetForceAutoSign(force) => Logged(s.(forceAutoSign := force), Forced(force))
    case PushSign(orderId) => s.(pendingSigns := s.pendingSigns + {orderId})
    case TakePendingSigns => s.(pendingSigns := {})
    case ShowLink(link) =>
      Logged(s.(visibleSubmit := Some(link.orderId), activeSubmits := s.activeSubmits[link.orderId := link]),
             Linked(link.orderId))
    case QueueSign(msg) => s.(pendingSignRequests := s.pendingSignRequests + [msg])
    case NextSign(outcome) =>
      if s.pendingSignRequests == [] then s
      else
        TryProcessSign(s.(pendingSignRequests := s.pendingSignRequests[1..]),
                       s.pendingSignRequests[0], outcome)
    case DirectSign(msg, outcome) => TryProcessSign(s, msg, outcome)
    case ShowPrompts => ProcessPrompts(s)
    case Decide(orderId, accept, autoSign, placed, outcome) =>
      ApplyDecision(s, orderId, accept, autoSign, placed, outcome)
    case EditPrice(orderId, price) =>
      if orderId !in s.submitData then s
      else
        var rec := Repriced(s.submitData[orderId], price);
        Logged(s.(submitData := s.submitData[orderId := rec]), Edited(orderId, TermsOf(rec)))
    case EditAutoSign(orderId, autoSign) =>
      if orderId !in s.submitData then s
      else
        Logged(s.(submitData := s.submitData[orderId := s.submitData[orderId].(autoSign := autoSign)]),
               AutoSet(orderId, autoSign))
    case Complete(orderId, txid) => ApplyComplete(s, orderId, txid)
    case AddMissing(orderId, details, twoStep) =>
      if orderId in s.submitData || !AmountsVerified(s, details) then s
      else WithRecord(s, orderId, MissingRecord(s, details, twoStep), Restored(details, twoStep))
    case Logout => s.(activeSubmits := map[], activeSign := None)
  }

  function Exec(s: State, ops: seq<Op>): State
    decreases |ops|
  {
    if ops == [] then s else Apply(Exec(s, ops[..|ops| - 1]), ops[|ops| - 1])
  }

  lemma {:induction false} ExecAppend(s: State, a: seq<Op>, b: seq<Op>)
    ensures Exec(s, a + b) == Exec(Exec(s, a), b)
    decreases |b|
  {
    if b == [] {
      assert a + b == a;
    } else {
      ExecAppend(s, a, b[..|b| - 1]);
      assert (a + b)[..|a + b| - 1] == a + b[..|b| - 1];
    }
  }

  lemma ExecMore(s: State, ops: seq<Op>, op: Op)
    ensures Exec(s, ops + [op]) == Apply(Exec(s, ops), op)
  {
    assert (ops + [op])[..|ops|] == ops;
  }

  // ---- at most one signature per order ---------------------------------------------------------

  function Count(msgs: seq<SignMsg>, o: OrderId): nat {
    if msgs == [] then 0 else (if msgs[0].orderId == o then 1 else 0) + Count(msgs[1..], o)
  }

  predicate SignedFor(e: Event, o: OrderId) {
    e.Signed? && e.request.orderId == o
  }

  /** The Sign requests of an order. */
  function SentFor(log: seq<Event>, o: OrderId): nat {
    if log == [] then 0
    else SentFor(log[..|log| - 1], o) + if SignedFor(log[|log| - 1], o) then 1 else 0
  }

  lemma SentForMore(log: seq<Event>, e: Event, o: OrderId)
    ensures SentFor(log + [e], o) == SentFor(log, o) + if SignedFor(e, o) then 1 else 0
  {
    assert (log + [e])[..|log|] == log;
  }

  /** Queued prompts, the active prompt and the Sign requests of an order. */
  function Load(s: State, o: OrderId): nat {
    Count(s.pendingSignPrompts, o)
    + (if s.activeSign.Some? && s.activeSign.value.orderId == o then 1 else 0)
    + SentFor(s.log, o)
  }

  ghost predicate SignedOnce(s: State) {
    forall o :: Load(s, o) <= if o in s.processedSigns then 1 else 0
  }

  lemma {:induction false} CountAppend(msgs: seq<SignMsg>, m: SignMsg, o: OrderId)
    ensures Count(msgs + [m], o) == Count(msgs, o) + if m.orderId == o then 1 else 0
  {
    if msgs == [] {
      assert msgs + [m] == [m];
    } else {
      CountAppend(msgs[1..], m, o);
      assert (msgs + [m])[1..] == msgs[1..] + [m];
    }
  }

  lemma TrySignLoad(s: State, msg: SignMsg, outcome: SignOutcome, o: OrderId)
    ensures var t := TrySign(s, msg, outcome);
            && Load(t, o) <= Load(s, o) + (if msg.orderId == o then 1 else 0)
            && t.processedSigns == s.processedSigns
  {
    hide SentFor, Count;
    if msg.orderId in s.submitData {
      var rec := s.submitData[msg.orderId];
      SentForMore(s.log, Signed(SignRequest(msg.orderId, AmountsOf(s, rec), TermsOf(rec))), o);
    }
  }

  lemma {:induction false} PromptsLoad(s: State, o: OrderId)
    ensures Load(ProcessPrompts(s), o) <= Load(s, o)
    ensures ProcessPrompts(s).processedSigns == s.processedSigns
    decreases |s.pendingSignPrompts|
  {
    hide SentFor;
    if s.visibleSubmit.None? && s.pendingSignPrompts != [] && s.pendingSignPrompts[0].orderId !in s.submitData {
      PromptsLoad(s.(pendingSignPrompts := s.pendingSignPrompts[1..]), o);
    } else if s.visibleSubmit.None? && s.pendingSignPrompts != [] {
      var id := s.pendingSignPrompts[0].orderId;
      SentForMore(s.log, Shown(id, TermsOf(s.submitData[id])), o);
    }
  }

  /** A notification adds to an order's load only when it is the first one for that order. */
  lemma ProcessSignLoad(s: State, msg: SignMsg, outcome: SignOutcome, o: OrderId)
    ensures var t := TryProcessSign(s, msg, outcome);
            && t.processedSigns == s.processedSigns + {msg.orderId}
            && Load(t, o) <= Load(s, o) +
                 (if o == msg.orderId && o !in s.processedSigns then 1 else 0)
  {
    hide SentFor, Count, TrySign, ProcessPrompts;
    if msg.orderId in s.processedSigns {
      assert s.processedSigns + {msg.orderId} == s.processedSigns;
    } else {
      var p := s.(processedSigns := s.processedSigns + {msg.orderId});
      hide AmountsVerified, Matches, AutoSignAllowed;
      if Accepted(p, msg) {
        var rec := Updated(p.submitData[msg.orderId], msg.details);
        var t := Logged(p.(submitData := p.submitData[msg.orderId := rec]), Notified(msg, TermsOf(rec)));
        SentForMore(p.log, Notified(msg, TermsOf(rec)), o);
        TrySignLoad(t, msg, outcome, o);
        CountAppend(t.pendingSignPrompts, msg, o);
        PromptsLoad(t.(pendingSignPrompts := t.pendingSignPrompts + [msg]), o);
      }
    }
  }

  lemma AgreedLoad(s: State, orderId: OrderId, outcome: SignOutcome, o: OrderId)
    requires s.activeSign.Some? && s.activeSign.value.orderId == orderId
    ensures var t := TrySign(Agreeing(s, orderId), s.activeSign.value, outcome);
            Load(t, o) <= Load(s, o) && t.processedSigns == s.processedSigns
  {
    hide SentFor, Count, TrySign;
    SentForMore(s.log, Agreed(orderId), o);
    TrySignLoad(Agreeing(s, orderId), s.activeSign.value, outcome, o);
  }

  lemma RecordedLoad(s: State, orderId: OrderId, rec: Record, origin: Origin, o: OrderId)
    ensures Load(WithRecord(s, orderId, rec, origin), o) == Load(s, o)
  {
    hide SentFor, Count, TermsOf;
    SentForMore(s.log, Recorded(orderId, TermsOf(rec), origin), o);
  }

  lemma DecisionLoad(s: State, orderId: OrderId, accept: bool, autoSign: bool, placed: bool,
                     outcome: SignOutcome, o: OrderId)
    ensures var t := ApplyDecision(s, orderId, accept, autoSign, placed, outcome);
            Load(t, o) <= Load(s, o) && t.processedSigns == s.processedSigns
  {
    hide AmountsVerified, Load, CloseReview, TrySign, NewRecord, TermsOf;
    ClosedLoad(s, false, o);
    if accept {
      if s.activeSign.Some? && s.activeSign.value.orderId == orderId {
        AgreedLoad(s, orderId, outcome, o);
        var t := TrySign(Agreeing(s, orderId), s.activeSign.value, outcome);
        ClosedLoad(t, orderId in s.submitData && outcome.ServerAccepts?, o);
      } else if orderId in s.activeSubmits {
        var link := s.activeSubmits[orderId];
        var t := s.(activeSubmits := s.activeSubmits - {orderId});
        SameLoad(s, t, o);
        ClosedLoad(t, false, o);
        if AmountsVerified(s, link.details) {
          KnownAsset(s, link.details);
          var rec := NewRecord(t, link, autoSign);
          RecordedLoad(t, orderId, rec, Placed(link, autoSign), o);
          ClosedLoad(WithRecord(t, orderId, rec, Placed(link, autoSign)), link.details.side.Taker?, o);
        }
      }
    }
  }

  lemma KnownAsset(s: State, d: Details)
    requires AmountsVerified(s, d)
    ensures d.asset in s.assets
  {
  }

  lemma ClosedLoad(s: State, waiting: bool, o: OrderId)
    ensures Load(CloseReview(s, waiting), o) <= Load(s, o)
    ensures CloseReview(s, waiting).processedSigns == s.processedSigns
  {
    SentForMore(s.log, Left, o);
    PromptsLoad(Reviewed(s, waiting), o);
  }

  lemma ApplyKeepsSignedOnce(s: State, op: Op)
    requires SignedOnce(s)
    ensures SignedOnce(Apply(s, op))
  {
    var t := Apply(s, op);
    forall o ensures Load(t, o) <= if o in t.processedSigns then 1 else 0 {
      hide AmountsVerified, TryProcessSign, ApplyDecision, Load;
      assert Load(s, o) <= if o in s.processedSigns then 1 else 0;
      OpLoad(s, op, o);
    }
  }

  /** Prompts and signatures of the order are the same. */
  lemma SameLoad(s: State, t: State, o: OrderId)
    requires t.pendingSignPrompts == s.pendingSignPrompts && SentFor(t.log, o) == SentFor(s.log, o)
    requires t.activeSign == s.activeSign || t.activeSign.None?
    ensures Load(t, o) <= Load(s, o)
  {
  }

  /** No operation raises the load of an order except its first sign notification. */
  lemma OpLoad(s: State, op: Op, o: OrderId)
    ensures var t := Apply(s, op);
            && s.processedSigns <= t.processedSigns
            && Load(t, o) <= Load(s, o) + (if o in t.processedSigns && o !in s.processedSigns then 1 else 0)
  {
    hide AmountsVerified, TryProcessSign, ApplyDecision, ProcessPrompts, Repriced, MissingRecord, Load, SentFor, TermsOf;
    match op
    case NextSign(outcome) =>
      if s.pendingSignRequests != [] {
        var t := s.(pendingSignRequests := s.pendingSignRequests[1..]);
        SameLoad(s, t, o);
        ProcessSignLoad(t, s.pendingSignRequests[0], outcome, o);
      }
    case DirectSign(msg, outcome) => ProcessSignLoad(s, msg, outcome, o);
    case ShowPrompts => PromptsLoad(s, o);
    case Decide(orderId, accept, autoSign, placed, outcome) =>
      DecisionLoad(s, orderId, accept, autoSign, placed, outcome, o);
    case Complete(orderId, txid) => CompleteLoad(s, orderId, txid, o);
    case EditPrice(orderId, price) =>
      if orderId in s.submitData {
        SentForMore(s.log, Edited(orderId, TermsOf(Repriced(s.submitData[orderId], price))), o);
      }
      SameLoad(s, Apply(s, op), o);
    case AddMissing(orderId, details, twoStep) =>
      if AmountsVerified(s, details) {
        KnownAsset(s, details);
        SentForMore(s.log, Recorded(orderId, TermsOf(MissingRecord(s, details, twoStep)), Restored(details, twoStep)), o);
      }
      SameLoad(s, Apply(s, op), o);
    case SetForceAutoSign(force) =>
      SentForMore(s.log, Forced(force), o);
      SameLoad(s, Apply(s, op), o);
    case EditAutoSign(orderId, autoSign) =>
      SentForMore(s.log, AutoSet(orderId, autoSign), o);
      SameLoad(s, Apply(s, op), o);
    case ShowLink(link) =>
      SentForMore(s.log, Linked(link.orderId), o);
      SameLoad(s, Apply(s, op), o);
    case _ => SameLoad(s, Apply(s, op), o);
  }

  lemma CompleteLoad(s: State, orderId: OrderId, txid: Option<Txid>, o: OrderId)
    ensures var t := ApplyComplete(s, orderId, txid);
            Load(t, o) <= Load(s, o) && t.processedSigns == s.processedSigns
  {
    hide ProcessPrompts, SentFor, Count;
    SentForMore(s.log, Left, o);
    PromptsLoad(Closed(s.(submitData := s.submitData - {orderId})), o);
  }

  /** Over any run the client sends at most one Sign request per order id, and none for an order
      it got no sign notification for. */
  lemma {:induction false} AtMostOneSignPerOrder(liquidAsset: AssetId, ops: seq<Op>)
    ensures SignedOnce(Exec(Init(liquidAsset), ops))
    ensures forall o :: SentFor(Exec(Init(liquidAsset), ops).log, o) <= 1
    ensures forall o :: o !in Exec(Init(liquidAsset), ops).processedSigns ==>
              SentFor(Exec(Init(liquidAsset), ops).log, o) == 0
    decreases |ops|
  {
    if ops != [] {
      AtMostOneSignPerOrder(liquidAsset, ops[..|ops| - 1]);
      ApplyKeepsSignedOnce(Exec(Init(liquidAsset), ops[..|ops| - 1]), ops[|ops| - 1]);
    }
    var s := Exec(Init(liquidAsset), ops);
    forall o ensures SentFor(s.log, o) <= if o in s.processedSigns then 1 else 0 {
      assert Load(s, o) <= if o in s.processedSigns then 1 else 0;
    }
  }

  // ---- submit records --------------------------------------------------------------------------

  /** The fee is the fee of the amount, and the amounts belong to the price. */
  ghost predicate RecordOk(s: State, rec: Record) {
    && rec.price > 0.0
    && rec.asset in s.assets && s.assets[rec.asset] == rec.precision
    && rec.serverFee == GetServerFee(rec.bitcoinAmount)
    && PriceFormula(rec.orderType, rec.bitcoinAmount, rec.assetAmount, rec.price, rec.precision, rec.market)
  }

  ghost predicate RecordsOk(s: State) {
    forall o :: o in s.submitData ==> RecordOk(s, s.submitData[o])
  }

  /** Everything the client is told about an order names the order's market. */
  predicate InMarket(markets: map<OrderId, MarketType>, o: OrderId, market: MarketType) {
    o in markets && markets[o] == market
  }

  ghost predicate MarketsOk(s: State, markets: map<OrderId, MarketType>) {
    && (forall o :: o in s.submitData ==> InMarket(markets, o, s.submitData[o].market))
    && (forall i :: 0 <= i < |s.pendingSignRequests| ==>
          InMarket(markets, s.pendingSignRequests[i].orderId, s.pendingSignRequests[i].details.market))
    && (forall o :: o in s.activeSubmits ==> InMarket(markets, o, s.activeSubmits[o].details.market))
  }

  /** The environment's part: an order's market does not change, and prices the server confirms are
      positive. */
  ghost predicate Fits(op: Op, markets: map<OrderId, MarketType>) {
    match op
    case ShowLink(link) => InMarket(markets, link.orderId, link.details.market)
    case QueueSign(msg) => InMarket(markets, msg.orderId, msg.details.market)
    case DirectSign(msg, _) => InMarket(markets, msg.orderId, msg.details.market)
    case AddMissing(orderId, details, _) => InMarket(markets, orderId, details.market)
    case EditPrice(_, price) => price > 0.0
    case _ => true
  }

  ghost predicate Consistent(s: State, markets: map<OrderId, MarketType>) {
    RecordsOk(s) && MarketsOk(s, markets)
  }

  /** Nothing that bears on the records differs. */
  ghost predicate SameRecords(s: State, t: State) {
    && t.submitData == s.submitData && t.assets == s.assets && t.liquidAsset == s.liquidAsset
    && t.pendingSignRequests == s.pendingSignRequests && t.activeSubmits == s.activeSubmits
  }

  lemma {:induction false} PromptsKeepRecords(s: State)
    ensures SameRecords(s, ProcessPrompts(s))
    decreases |s.pendingSignPrompts|
  {
    if s.visibleSubmit.None? && s.pendingSignPrompts != [] && s.pendingSignPrompts[0].orderId !in s.submitData {
      PromptsKeepRecords(s.(pendingSignPrompts := s.pendingSignPrompts[1..]));
    }
  }

  lemma TrySignKeepsRecords(s: State, msg: SignMsg, outcome: SignOutcome, markets: map<OrderId, MarketType>)
    requires Consistent(s, markets)
    ensures Consistent(TrySign(s, msg, outcome), markets)
  {
    hide GetServerFee, AssetAmount, BitcoinAmount;
  }

  lemma UpdatedOk(s: State, rec: Record, d: Details)
    requires RecordOk(s, rec) && AmountsVerified(s, d) && Matches(rec, d) && rec.market == d.market
    ensures RecordOk(s, Updated(rec, d))
  {
    hide GetServerFee, AssetAmount, BitcoinAmount;
  }

  lemma ProcessSignKeepsRecords(s: State, msg: SignMsg, outcome: SignOutcome, markets: map<OrderId, MarketType>)
    requires Consistent(s, markets) && InMarket(markets, msg.orderId, msg.details.market)
    ensures Consistent(TryProcessSign(s, msg, outcome), markets)
  {
    if msg.orderId !in s.processedSigns {
      var p := s.(processedSigns := s.processedSigns + {msg.orderId});
      if Accepted(p, msg) {
        var rec := p.submitData[msg.orderId];
        UpdatedOk(p, rec, msg.details);
        hide AmountsVerified, Matches, AutoSignAllowed, RecordOk;
        var t := Logged(p.(submitData := p.submitData[msg.orderId := Updated(rec, msg.details)]),
                        Notified(msg, TermsOf(Updated(rec, msg.details))));
        assert RecordsOk(t);
        TrySignKeepsRecords(t, msg, outcome, markets);
        PromptsKeepRecords(t.(pendingSignPrompts := t.pendingSignPrompts + [msg]));
      }
    }
  }

  lemma CloseKeepsRecords(s: State, waiting: bool, markets: map<OrderId, MarketType>)
    requires Consistent(s, markets)
    ensures Consistent(CloseReview(s, waiting), markets)
  {
    PromptsKeepRecords(Reviewed(s, waiting));
  }

  lemma NewRecordOk(s: State, link: Link, autoSign: bool)
    requires AmountsVerified(s, link.details)
    ensures RecordOk(s, NewRecord(s, link, autoSign))
  {
  }

  lemma DecisionKeepsRecords(s: State, orderId: OrderId, accept: bool, autoSign: bool, placed: bool,
                             outcome: SignOutcome, markets: map<OrderId, MarketType>)
    requires Consistent(s, markets)
    ensures Consistent(ApplyDecision(s, orderId, accept, autoSign, placed, outcome), markets)
  {
    hide AmountsVerified, RecordOk, CloseReview, Consistent;
    CloseKeepsRecords(s, false, markets);
    if accept {
      if s.activeSign.Some? && s.activeSign.value.orderId == orderId {
        var a := Agreeing(s, orderId);
        SameConsistent(s, a, markets);
        TrySignKeepsRecords(a, s.activeSign.value, outcome, markets);
        CloseKeepsRecords(TrySign(a, s.activeSign.value, outcome),
                          orderId in s.submitData && outcome.ServerAccepts?, markets);
      } else if orderId in s.activeSubmits {
        var link := s.activeSubmits[orderId];
        var t := s.(activeSubmits := s.activeSubmits - {orderId});
        SameConsistent(s, t, markets);
        CloseKeepsRecords(t, false, markets);
        if AmountsVerified(s, link.details) {
          KnownAsset(s, link.details);
          SameVerdict(s, t, link.details);
          NewRecordOk(t, link, autoSign);
          SubmitInMarket(s, orderId, markets);
          var rec := NewRecord(t, link, autoSign);
          PutRecord(t, orderId, rec, t.log + [Recorded(orderId, TermsOf(rec), Placed(link, autoSign))], markets);
          CloseKeepsRecords(WithRecord(t, orderId, rec, Placed(link, autoSign)), link.details.side.Taker?, markets);
        }
      }
    }
  }

  lemma SubmitInMarket(s: State, o: OrderId, markets: map<OrderId, MarketType>)
    requires Consistent(s, markets) && o in s.activeSubmits
    ensures InMarket(markets, o, s.activeSubmits[o].details.market)
  {
  }

  lemma SameConsistent(s: State, t: State, markets: map<OrderId, MarketType>)
    requires Consistent(s, markets) && t.submitData == s.submitData && t.assets == s.assets
    requires t.pendingSignRequests == s.pendingSignRequests
    requires forall o :: o in t.activeSubmits ==> o in s.activeSubmits && t.activeSubmits[o] == s.activeSubmits[o]
    ensures Consistent(t, markets)
  {
    SameRecordsOk(s, t);
  }

  lemma SameRecordsOk(s: State, t: State)
    requires RecordsOk(s) && t.submitData == s.submitData && t.assets == s.assets
    ensures RecordsOk(t)
  {
  }

  lemma SameVerdict(s: State, t: State, d: Details)
    requires AmountsVerified(s, d) && t.assets == s.assets && t.liquidAsset == s.liquidAsset
    ensures AmountsVerified(t, d)
  {
  }

  lemma OneMoreRecord(s: State, o: OrderId, rec: Record, log: seq<Event>)
    requires RecordsOk(s) && RecordOk(s, rec)
    ensures RecordsOk(s.(submitData := s.submitData[o := rec], log := log))
  {
  }

  /** A price edit computes the other amount and the fee anew. */
  lemma RepricedOk(s: State, rec: Record, price: real)
    requires RecordOk(s, rec) && price > 0.0
    ensures RecordOk(s, Repriced(rec, price))
  {
  }

  lemma PutRecord(s: State, o: OrderId, rec: Record, log: seq<Event>, markets: map<OrderId, MarketType>)
    requires Consistent(s, markets) && RecordOk(s, rec) && InMarket(markets, o, rec.market)
    ensures Consistent(s.(submitData := s.submitData[o := rec], log := log), markets)
  {
    OneMoreRecord(s, o, rec, log);
  }

  lemma LearnKeepsRecords(s: State, asset: AssetId, precision: nat, markets: map<OrderId, MarketType>)
    requires Consistent(s, markets) && asset !in s.assets
    ensures Consistent(s.(assets := s.assets[asset := precision]), markets)
  {
    hide PriceFormula, GetServerFee;
  }

  lemma CompleteKeepsRecords(s: State, orderId: OrderId, txid: Option<Txid>, markets: map<OrderId, MarketType>)
    requires Consistent(s, markets)
    ensures Consistent(ApplyComplete(s, orderId, txid), markets)
  {
    hide PriceFormula, GetServerFee, ProcessPrompts;
    if txid.Some? {
      if orderId in s.submitData {
        PutRecord(s, orderId, s.submitData[orderId].(txid := txid), s.log, markets);
      }
    } else {
      PromptsKeepRecords(Closed(s.(submitData := s.submitData - {orderId})));
    }
  }

  lemma EditKeepsRecords(s: State, orderId: OrderId, price: real, markets: map<OrderId, MarketType>)
    requires Consistent(s, markets) && orderId in s.submitData && price > 0.0
    ensures Consistent(Apply(s, EditPrice(orderId, price)), markets)
  {
    RepricedOk(s, s.submitData[orderId], price);
    RepricedMarket(s.submitData[orderId], price);
    hide Repriced, RecordOk;
    var rec := Repriced(s.submitData[orderId], price);
    PutRecord(s, orderId, rec, s.log + [Edited(orderId, TermsOf(rec))], markets);
  }

  lemma ApplyKeepsRecords(s: State, op: Op, markets: map<OrderId, MarketType>)
    requires Consistent(s, markets) && Fits(op, markets)
    ensures Consistent(Apply(s, op), markets)
  {
    hide AmountsVerified, TryProcessSign, ApplyDecision, ProcessPrompts, Repriced, RecordOk, ApplyComplete;
    match op
    case LearnAsset(asset, precision) =>
      if asset !in s.assets {
        LearnKeepsRecords(s, asset, precision, markets);
      }
    case NextSign(outcome) =>
      if s.pendingSignRequests != [] {
        var t := s.(pendingSignRequests := s.pendingSignRequests[1..]);
        SameRecordsOk(s, t);
        ProcessSignKeepsRecords(t, s.pendingSignRequests[0], outcome, markets);
      }
    case DirectSign(msg, outcome) => ProcessSignKeepsRecords(s, msg, outcome, markets);
    case ShowPrompts =>
      PromptsKeepRecords(s);
      SameRecordsOk(s, ProcessPrompts(s));
    case Decide(orderId, accept, autoSign, placed, outcome) =>
      DecisionKeepsRecords(s, orderId, accept, autoSign, placed, outcome, markets);
    case EditPrice(orderId, price) =>
      if orderId in s.submitData {
        EditKeepsRecords(s, orderId, price, markets);
      }
    case EditAutoSign(orderId, autoSign) =>
      if orderId in s.submitData {
        var rec := s.submitData[orderId];
        AutoSignIsFree(s, rec, autoSign);
        PutRecord(s, orderId, rec.(autoSign := autoSign), s.log + [AutoSet(orderId, autoSign)], markets);
      }
    case Complete(orderId, txid) => CompleteKeepsRecords(s, orderId, txid, markets);
    case AddMissing(orderId, details, twoStep) =>
      if AmountsVerified(s, details) {
        KnownAsset(s, details);
        MissingRecordOk(s, details, twoStep);
        var rec := MissingRecord(s, details, twoStep);
        PutRecord(s, orderId, rec, s.log + [Recorded(orderId, TermsOf(rec), Restored(details, twoStep))], markets);
      }
    case _ => SameRecordsOk(s, Apply(s, op));
  }

  lemma AutoSignIsFree(s: State, rec: Record, autoSign: bool)
    requires RecordOk(s, rec)
    ensures RecordOk(s, rec.(autoSign := autoSign))
  {
  }

  lemma RepricedMarket(rec: Record, price: real)
    ensures Repriced(rec, price).market == rec.market
  {
  }

  lemma MissingRecordOk(s: State, d: Details, twoStep: bool)
    requires AmountsVerified(s, d)
    ensures RecordOk(s, MissingRecord(s, d, twoStep))
  {
  }

  /** In every reachable state every submit record is consistent. */
  lemma {:induction false} RecordsStayConsistent(liquidAsset: AssetId, ops: seq<Op>, markets: map<OrderId, MarketType>)
    requires forall i :: 0 <= i < |ops| ==> Fits(ops[i], markets)
    ensures Consistent(Exec(Init(liquidAsset), ops), markets)
    decreases |ops|
  {
    if ops != [] {
      RecordsStayConsistent(liquidAsset, ops[..|ops| - 1], markets);
      ApplyKeepsRecords(Exec(Init(liquidAsset), ops[..|ops| - 1]), ops[|ops| - 1], markets);
    }
  }

  // ---- signing without asking ------------------------------------------------------------------

  /** A consistent record and a verified notification that agree on the price agree on every
      amount: the checks name only one of the two amounts, the formula fixes the other. */
  lemma SamePriceSameAmounts(s: State, rec: Record, d: Details)
    requires RecordOk(s, rec) && AmountsVerified(s, d) && Matches(rec, d) && rec.market == d.market
    requires d.price == rec.price
    ensures Updated(rec, d) == rec
  {
  }

  /** What is signed without asking is what was recorded: for a taker, and for a maker whose order
      does not follow an index and who is not forced, an automatic signature changes no amount, and
      the wallet checks the transaction against exactly the recorded amounts. */
  lemma AutoSignSignsTheRecord(s: State, msg: SignMsg, outcome: SignOutcome, markets: map<OrderId, MarketType>)
    requires Consistent(s, markets) && InMarket(markets, msg.orderId, msg.details.market)
    requires msg.orderId !in s.processedSigns && Accepted(s, msg)
    requires var rec := s.submitData[msg.orderId];
             && AutoSignAllowed(s, rec, msg.details)
             && (rec.side.Taker? || (!rec.indexPrice && !s.forceAutoSign))
    ensures var t, rec := TryProcessSign(s, msg, outcome), s.submitData[msg.orderId];
            && t.submitData == s.submitData[msg.orderId := rec.(signed := rec.signed || outcome.ServerAccepts?)]
            && t.log == s.log + [Notified(msg, TermsOf(rec))]
                        + if outcome.WalletRefuses? then []
                          else [Signed(SignRequest(msg.orderId, AmountsOf(s, rec), TermsOf(rec)))]
  {
    var rec := s.submitData[msg.orderId];
    if !rec.side.Taker? {
      NoChange(rec, msg.details);
    }
    assert rec.price == msg.details.price;
    SamePriceSameAmounts(s, rec, msg.details);
    hide RecordOk, Matches, AutoSignAllowed;
    var p := s.(processedSigns := s.processedSigns + {msg.orderId});
    SameVerdict(s, p, msg.details);
    assert p.submitData[msg.orderId := Updated(rec, msg.details)] == p.submitData;
    assert s.submitData[msg.orderId := rec] == s.submitData;
    SameRule(s, p, rec, msg.details);
  }

  lemma SameRule(s: State, t: State, rec: Record, d: Details)
    requires t.forceAutoSign == s.forceAutoSign
    ensures AutoSignAllowed(t, rec, d) <==> AutoSignAllowed(s, rec, d)
  {
  }
}
