/** What the client signs, and for which terms: every Sign request over whole runs of the signing
    machine, traced back to the notification, the edits and the prompts of its order. */
module ClientTerms {
  import opened Sequences
  import opened Money
  import opened ClientSigning

  /** The event sets the terms of the order. */
  predicate Prices(e: Event, o: OrderId) {
    || (e.Notified? && e.msg.orderId == o)
    || ((e.Edited? || e.Recorded?) && e.orderId == o)
  }

  /** The terms an order was given last. */
  function LastTerms(log: seq<Event>, o: OrderId): Option<Terms> {
    if log == [] then None
    else if Prices(log[|log| - 1], o) then Some(log[|log| - 1].terms)
    else LastTerms(log[..|log| - 1], o)
  }

  /** A sign notification of the order was accepted. */
  predicate WasNotified(log: seq<Event>, o: OrderId) {
    log != [] && (NotifiedFor(log[|log| - 1], o) || WasNotified(log[..|log| - 1], o))
  }

  /** A prompt of the order was shown. */
  predicate WasShown(log: seq<Event>, o: OrderId) {
    log != [] && (ShownFor(log[|log| - 1], o) || WasShown(log[..|log| - 1], o))
  }

  predicate ShownFor(e: Event, o: OrderId) {
    e.Shown? && e.orderId == o
  }

  predicate NotifiedFor(e: Event, o: OrderId) {
    e.Notified? && e.msg.orderId == o
  }

  /** The fee is the fee of the amount, and the amounts belong to the price. */
  ghost predicate TermsOk(t: Terms) {
    && t.price > 0.0 && t.serverFee == GetServerFee(t.bitcoinAmount)
    && PriceFormula(t.orderType, t.bitcoinAmount, t.assetAmount, t.price, t.precision, t.market)
  }

  /** The same order at another price: everything that does not depend on the price is equal. */
  ghost predicate SameOrder(a: Terms, b: Terms) {
    && a.asset == b.asset && a.precision == b.precision && a.orderType == b.orderType
    && a.sellBitcoin == b.sellBitcoin && a.market == b.market
    && (if a.orderType.Bitcoin? then a.bitcoinAmount == b.bitcoinAmount else a.assetAmount == b.assetAmount)
  }

  /** The terms are those of a notification. */
  ghost predicate Reports(t: Terms, d: Details) {
    && t.asset == d.asset && t.orderType == d.orderType && t.sellBitcoin == d.sendBitcoins
    && t.market == d.market && t.bitcoinAmount == d.bitcoinAmount && t.assetAmount == d.assetAmount
    && t.price == d.price && t.serverFee == d.serverFee
  }

  /** The seller of bitcoin pays the fee on top of the bitcoin amount, the buyer has it taken off. */
  ghost predicate Swaps(liquidAsset: AssetId, a: SwapAmounts, t: Terms) {
    if t.sellBitcoin then
      && a.sendAsset == liquidAsset && a.sendAmount == t.bitcoinAmount + t.serverFee
      && a.recvAsset == t.asset && a.recvAmount == t.assetAmount
    else
      && a.sendAsset == t.asset && a.sendAmount == t.assetAmount
      && a.recvAsset == liquidAsset && a.recvAmount == t.bitcoinAmount - t.serverFee
  }

  ghost predicate Follows(before: seq<Event>, o: OrderId, t: Terms) {
    LastTerms(before, o).Some? && SameOrder(LastTerms(before, o).value, t)
  }

  /** What an event means for the terms before it. */
  ghost predicate EventOk(liquidAsset: AssetId, before: seq<Event>, e: Event) {
    match e
    case Notified(msg, terms) =>
      TermsOk(terms) && Reports(terms, msg.details) && Follows(before, msg.orderId, terms)
    case Edited(o, terms) => TermsOk(terms) && Follows(before, o, terms)
    case Recorded(o, terms, _) => TermsOk(terms)
    case Shown(o, terms) => LastTerms(before, o) == Some(terms) && WasNotified(before, o)
    case Signed(q) =>
      && LastTerms(before, q.orderId) == Some(q.terms) && WasNotified(before, q.orderId)
      && Swaps(liquidAsset, q.amounts, q.terms)
    case Agreed(o) => WasShown(before, o) && WasNotified(before, o)
    case _ => true
  }

  ghost predicate LogOk(liquidAsset: AssetId, log: seq<Event>) {
    log == [] ||
    (LogOk(liquidAsset, log[..|log| - 1]) && EventOk(liquidAsset, log[..|log| - 1], log[|log| - 1]))
  }

  lemma LogMore(liquidAsset: AssetId, log: seq<Event>, e: Event, o: OrderId)
    ensures LastTerms(log + [e], o) == if Prices(e, o) then Some(e.terms) else LastTerms(log, o)
    ensures WasNotified(log + [e], o) <==> NotifiedFor(e, o) || WasNotified(log, o)
    ensures WasShown(log + [e], o) <==> ShownFor(e, o) || WasShown(log, o)
    ensures LogOk(liquidAsset, log + [e]) <==> LogOk(liquidAsset, log) && EventOk(liquidAsset, log, e)
  {
    assert (log + [e])[..|log|] == log;
    hide EventOk;
  }

  // ---- what every operation keeps ----------------------------------------------------------------

  /** A record has the terms its order was given last. */
  ghost predicate Tracked(s: State) {
    forall o :: o in s.submitData ==> LastTerms(s.log, o) == Some(TermsOf(s.submitData[o]))
  }

  /** Prompts are for orders whose notification was accepted, and the active one was shown. */
  ghost predicate Prompted(s: State) {
    && (forall m :: m in s.pendingSignPrompts ==> WasNotified(s.log, m.orderId))
    && (s.activeSign.Some? ==>
          WasNotified(s.log, s.activeSign.value.orderId) && WasShown(s.log, s.activeSign.value.orderId))
  }

  ghost predicate TermsInv(s: State) {
    Tracked(s) && Prompted(s) && LogOk(s.liquidAsset, s.log)
  }

  /** Nothing that bears on the terms differs, except that records and prompts may be gone. */
  ghost predicate SameTerms(s: State, t: State) {
    && t.log == s.log && t.liquidAsset == s.liquidAsset
    && (forall o :: o in t.submitData ==> o in s.submitData && TermsOf(t.submitData[o]) == TermsOf(s.submitData[o]))
    && (forall m :: m in t.pendingSignPrompts ==> m in s.pendingSignPrompts)
    && (t.activeSign.Some? ==> t.activeSign == s.activeSign)
  }

  lemma SameTermsKept(s: State, t: State)
    requires TermsInv(s) && SameTerms(s, t)
    ensures TermsInv(t)
  {
    hide LastTerms, WasNotified, WasShown, LogOk, TermsOf;
  }

  /** An event that sets no terms. */
  lemma NotedKept(s: State, e: Event)
    requires TermsInv(s) && EventOk(s.liquidAsset, s.log, e) && !e.Notified? && !e.Edited? && !e.Recorded?
    ensures TermsInv(Logged(s, e))
    ensures e.Shown? ==> WasShown(s.log + [e], e.orderId) && WasNotified(s.log + [e], e.orderId)
  {
    forall o
      ensures LastTerms(s.log + [e], o) == LastTerms(s.log, o)
      ensures WasNotified(s.log + [e], o) <==> WasNotified(s.log, o)
      ensures WasShown(s.log, o) || ShownFor(e, o) ==> WasShown(s.log + [e], o)
    {
      LogMore(s.liquidAsset, s.log, e, o);
    }
    LogMore(s.liquidAsset, s.log, e, 0);
    hide LastTerms, WasNotified, WasShown, LogOk;
  }

  /** An event that sets the terms of an order, and the record with it. */
  lemma PricedKept(s: State, o: OrderId, rec: Record, e: Event)
    requires TermsInv(s) && EventOk(s.liquidAsset, s.log, e) && Prices(e, o) && e.terms == TermsOf(rec)
    ensures TermsInv(Logged(s.(submitData := s.submitData[o := rec]), e))
    ensures NotifiedFor(e, o) ==> WasNotified(s.log + [e], o)
  {
    forall p
      ensures LastTerms(s.log + [e], p) == if p == o then Some(e.terms) else LastTerms(s.log, p)
      ensures WasNotified(s.log, p) ==> WasNotified(s.log + [e], p)
      ensures NotifiedFor(e, p) ==> WasNotified(s.log + [e], p)
      ensures WasShown(s.log, p) ==> WasShown(s.log + [e], p)
    {
      LogMore(s.liquidAsset, s.log, e, p);
    }
    LogMore(s.liquidAsset, s.log, e, 0);
    hide LastTerms, WasNotified, WasShown, LogOk, EventOk, TermsOf;
  }

  lemma TrySignTerms(s: State, msg: SignMsg, outcome: SignOutcome)
    requires TermsInv(s) && WasNotified(s.log, msg.orderId)
    ensures TermsInv(TrySign(s, msg, outcome))
  {
    if msg.orderId in s.submitData && !outcome.WalletRefuses? {
      var rec := s.submitData[msg.orderId];
      var e := Signed(SignRequest(msg.orderId, AmountsOf(s, rec), TermsOf(rec)));
      assert EventOk(s.liquidAsset, s.log, e);
      NotedKept(s, e);
      hide EventOk, TermsInv;
      SameTermsKept(Logged(s, e), TrySign(s, msg, outcome));
    }
  }

  lemma {:induction false} PromptsTerms(s: State)
    requires TermsInv(s)
    ensures TermsInv(ProcessPrompts(s))
    decreases |s.pendingSignPrompts|
  {
    if s.visibleSubmit.None? && s.pendingSignPrompts != [] {
      var msg := s.pendingSignPrompts[0];
      var t := s.(pendingSignPrompts := s.pendingSignPrompts[1..]);
      SameTermsKept(s, t);
      if msg.orderId !in s.submitData {
        PromptsTerms(t);
      } else {
        var e := Shown(msg.orderId, TermsOf(s.submitData[msg.orderId]));
        assert msg in s.pendingSignPrompts;
        assert EventOk(s.liquidAsset, s.log, e);
        NotedKept(t, e);
        hide TermsInv, EventOk;
        Activated(Logged(t, e), msg);
      }
    }
  }

  lemma Activated(s: State, msg: SignMsg)
    requires TermsInv(s) && WasNotified(s.log, msg.orderId) && WasShown(s.log, msg.orderId)
    ensures TermsInv(s.(visibleSubmit := Some(msg.orderId), activeSign := Some(msg)))
  {
    hide LastTerms, WasNotified, WasShown, LogOk;
  }

  /** The terms an accepted notification gives to its order. */
  lemma UpdatedTerms(s: State, rec: Record, msg: SignMsg)
    requires RecordOk(s, rec) && AmountsVerified(s, msg.details) && Matches(rec, msg.details)
    requires rec.market == msg.details.market
    ensures var t := TermsOf(Updated(rec, msg.details));
            TermsOk(t) && Reports(t, msg.details) && SameOrder(TermsOf(rec), t)
  {
    hide GetServerFee, AssetAmount, BitcoinAmount;
  }

  lemma ProcessSignTerms(s: State, msg: SignMsg, outcome: SignOutcome, markets: map<OrderId, MarketType>)
    requires Consistent(s, markets) && InMarket(markets, msg.orderId, msg.details.market) && TermsInv(s)
    ensures TermsInv(TryProcessSign(s, msg, outcome))
  {
    if msg.orderId !in s.processedSigns {
      var p := s.(processedSigns := s.processedSigns + {msg.orderId});
      SameTermsKept(s, p);
      if Accepted(p, msg) {
        var rec := s.submitData[msg.orderId];
        var now := Updated(rec, msg.details);
        SameVerdict(p, s, msg.details);
        UpdatedTerms(s, rec, msg);
        var e := Notified(msg, TermsOf(now));
        assert EventOk(s.liquidAsset, s.log, e);
        PricedKept(p, msg.orderId, now, e);
        hide AmountsVerified, Matches, AutoSignAllowed, TrySign, ProcessPrompts, Consistent, TermsInv, EventOk;
        var t := Logged(p.(submitData := p.submitData[msg.orderId := now]), e);
        TrySignTerms(t, msg, outcome);
        var u := t.(pendingSignPrompts := t.pendingSignPrompts + [msg]);
        OneMorePrompt(t, msg);
        PromptsTerms(u);
      }
    }
  }

  lemma OneMorePrompt(s: State, msg: SignMsg)
    requires TermsInv(s) && WasNotified(s.log, msg.orderId)
    ensures TermsInv(s.(pendingSignPrompts := s.pendingSignPrompts + [msg]))
  {
    hide LastTerms, WasNotified, WasShown, LogOk;
  }

  lemma CloseTerms(s: State, waiting: bool)
    requires TermsInv(s)
    ensures TermsInv(CloseReview(s, waiting))
  {
    hide TermsInv, ProcessPrompts;
    var t := s.(visibleSubmit := None, waitingSubmit := if waiting then s.visibleSubmit else s.waitingSubmit);
    SameTermsKept(s, t);
    NotedKept(t, Left);
    PromptsTerms(Reviewed(s, waiting));
  }

  lemma AgreeingTerms(s: State)
    requires TermsInv(s) && s.activeSign.Some?
    ensures var a := Agreeing(s, s.activeSign.value.orderId);
            TermsInv(a) && WasNotified(a.log, s.activeSign.value.orderId)
  {
    ActiveWasNotified(s);
    hide TermsInv, LastTerms, WasNotified, WasShown, LogOk;
    var o := s.activeSign.value.orderId;
    SameTermsKept(s, s.(activeSign := None));
    NotedKept(s.(activeSign := None), Agreed(o));
    LogMore(s.liquidAsset, s.log, Agreed(o), o);
  }

  lemma ActiveWasNotified(s: State)
    requires TermsInv(s) && s.activeSign.Some?
    ensures WasNotified(s.log, s.activeSign.value.orderId) && WasShown(s.log, s.activeSign.value.orderId)
  {
  }

  lemma RecordedTerms(s: State, o: OrderId, rec: Record, origin: Origin)
    requires TermsInv(s) && RecordOk(s, rec)
    ensures TermsInv(WithRecord(s, o, rec, origin))
  {
    assert TermsOk(TermsOf(rec));
    hide RecordOk, TermsInv, TermsOk;
    PricedKept(s, o, rec, Recorded(o, TermsOf(rec), origin));
  }

  lemma DecisionTerms(s: State, orderId: OrderId, accept: bool, autoSign: bool, placed: bool, outcome: SignOutcome)
    requires TermsInv(s)
    ensures TermsInv(ApplyDecision(s, orderId, accept, autoSign, placed, outcome))
  {
    hide AmountsVerified, CloseReview, TrySign, TermsInv, NewRecord;
    CloseTerms(s, false);
    if accept {
      if s.activeSign.Some? && s.activeSign.value.orderId == orderId {
        var a := Agreeing(s, orderId);
        ActiveWasNotified(s);
        AgreeingTerms(s);
        TrySignTerms(a, s.activeSign.value, outcome);
        CloseTerms(TrySign(a, s.activeSign.value, outcome), orderId in s.submitData && outcome.ServerAccepts?);
      } else if orderId in s.activeSubmits {
        var link := s.activeSubmits[orderId];
        var t := s.(activeSubmits := s.activeSubmits - {orderId});
        SameTermsKept(s, t);
        CloseTerms(t, false);
        if AmountsVerified(s, link.details) {
          KnownAsset(s, link.details);
          SameVerdict(s, t, link.details);
          NewRecordOk(t, link, autoSign);
          RecordedTerms(t, orderId, NewRecord(t, link, autoSign), Placed(link, autoSign));
          CloseTerms(WithRecord(t, orderId, NewRecord(t, link, autoSign), Placed(link, autoSign)), link.details.side.Taker?);
        }
      }
    }
  }

  lemma RepricedTerms(s: State, rec: Record, price: real)
    requires RecordOk(s, rec) && price > 0.0
    ensures var t := TermsOf(Repriced(rec, price));
            TermsOk(t) && SameOrder(TermsOf(rec), t) && t.price == price
  {
    RepricedOk(s, rec, price);
    hide GetServerFee, AssetAmount, BitcoinAmount;
  }

  lemma EditTerms(s: State, orderId: OrderId, price: real)
    requires TermsInv(s) && orderId in s.submitData && RecordOk(s, s.submitData[orderId]) && price > 0.0
    ensures TermsInv(Apply(s, EditPrice(orderId, price)))
  {
    var rec := s.submitData[orderId];
    RepricedTerms(s, rec, price);
    var e := Edited(orderId, TermsOf(Repriced(rec, price)));
    assert EventOk(s.liquidAsset, s.log, e);
    hide TermsInv, EventOk, Repriced, RecordOk;
    PricedKept(s, orderId, Repriced(rec, price), e);
  }

  lemma ApplyTerms(s: State, op: Op, markets: map<OrderId, MarketType>)
    requires Consistent(s, markets) && Fits(op, markets) && TermsInv(s)
    ensures TermsInv(Apply(s, op))
  {
    hide AmountsVerified, TryProcessSign, ApplyDecision, ProcessPrompts, Repriced, MissingRecord, RecordOk, TermsInv;
    match op
    case NextSign(outcome) =>
      if s.pendingSignRequests != [] {
        var t := s.(pendingSignRequests := s.pendingSignRequests[1..]);
        SameTermsKept(s, t);
        SameRecordsOk(s, t);
        ProcessSignTerms(t, s.pendingSignRequests[0], outcome, markets);
      }
    case DirectSign(msg, outcome) => ProcessSignTerms(s, msg, outcome, markets);
    case Decide(orderId, accept, autoSign, placed, outcome) =>
      DecisionTerms(s, orderId, accept, autoSign, placed, outcome);
    case ShowPrompts => PromptsTerms(s);
    case EditPrice(orderId, price) =>
      if orderId in s.submitData {
        EditTerms(s, orderId, price);
      }
    case SetForceAutoSign(force) =>
      SameTermsKept(s, s.(forceAutoSign := force));
      NotedKept(s.(forceAutoSign := force), Forced(force));
    case EditAutoSign(orderId, autoSign) =>
      if orderId in s.submitData {
        AutoSetTerms(s, orderId, autoSign);
      }
    case ShowLink(link) =>
      var t := s.(visibleSubmit := Some(link.orderId), activeSubmits := s.activeSubmits[link.orderId := link]);
      SameTermsKept(s, t);
      NotedKept(t, Linked(link.orderId));
    case Complete(orderId, txid) => CompleteTerms(s, orderId, txid);
    case AddMissing(orderId, details, twoStep) =>
      if orderId !in s.submitData && AmountsVerified(s, details) {
        KnownAsset(s, details);
        MissingRecordOk(s, details, twoStep);
        RecordedTerms(s, orderId, MissingRecord(s, details, twoStep), Restored(details, twoStep));
      }
    case _ => SameTermsKept(s, Apply(s, op));
  }

  lemma AutoSetTerms(s: State, orderId: OrderId, autoSign: bool)
    requires TermsInv(s) && orderId in s.submitData
    ensures TermsInv(Apply(s, EditAutoSign(orderId, autoSign)))
  {
    hide TermsInv;
    var t := s.(submitData := s.submitData[orderId := s.submitData[orderId].(autoSign := autoSign)]);
    SameTermsKept(s, t);
    NotedKept(t, AutoSet(orderId, autoSign));
  }

  lemma CompleteTerms(s: State, orderId: OrderId, txid: Option<Txid>)
    requires TermsInv(s)
    ensures TermsInv(ApplyComplete(s, orderId, txid))
  {
    hide TermsInv, ProcessPrompts;
    if txid.Some? {
      SameTermsKept(s, ApplyComplete(s, orderId, txid));
    } else {
      var t := s.(submitData := s.submitData - {orderId});
      SameTermsKept(s, t);
      SameTermsKept(s, t.(visibleSubmit := None));
      NotedKept(t.(visibleSubmit := None), Left);
      PromptsTerms(Closed(t));
    }
  }

  /** Over any run the log is in order: in particular every Sign request was made for the terms its
      order was given last, after a notification of that order had been accepted. */
  lemma {:induction false} RunsKeepTerms(liquidAsset: AssetId, ops: seq<Op>, markets: map<OrderId, MarketType>)
    requires forall i :: 0 <= i < |ops| ==> Fits(ops[i], markets)
    ensures TermsInv(Exec(Init(liquidAsset), ops)) && Exec(Init(liquidAsset), ops).liquidAsset == liquidAsset
    decreases |ops|
  {
    if ops != [] {
      var front := ops[..|ops| - 1];
      RunsKeepTerms(liquidAsset, front, markets);
      RecordsStayConsistent(liquidAsset, front, markets);
      hide TermsInv, Consistent;
      ApplyTerms(Exec(Init(liquidAsset), front), ops[|ops| - 1], markets);
      SameLiquid(Exec(Init(liquidAsset), front), ops[|ops| - 1]);
      hide Apply;
    }
  }

  lemma SignLiquid(s: State, msg: SignMsg, outcome: SignOutcome)
    ensures TryProcessSign(s, msg, outcome).liquidAsset == s.liquidAsset
  {
    hide ProcessPrompts, Accepted, AutoSignAllowed, AmountsOf;
    forall x: State ensures ProcessPrompts(x).liquidAsset == x.liquidAsset {
      PromptsKeepRecords(x);
    }
  }

  lemma CloseLiquid(s: State, waiting: bool)
    ensures CloseReview(s, waiting).liquidAsset == s.liquidAsset
  {
    PromptsKeepRecords(Reviewed(s, waiting));
    hide ProcessPrompts;
  }

  lemma DecisionLiquid(s: State, orderId: OrderId, accept: bool, autoSign: bool, placed: bool, outcome: SignOutcome)
    ensures ApplyDecision(s, orderId, accept, autoSign, placed, outcome).liquidAsset == s.liquidAsset
  {
    hide CloseReview, AmountsVerified, NewRecord, AmountsOf, TermsOf;
    if accept && !(s.activeSign.Some? && s.activeSign.value.orderId == orderId) && orderId in s.activeSubmits
       && AmountsVerified(s, s.activeSubmits[orderId].details) {
      KnownAsset(s, s.activeSubmits[orderId].details);
    }
    forall x: State, waiting ensures CloseReview(x, waiting).liquidAsset == x.liquidAsset {
      CloseLiquid(x, waiting);
    }
  }

  lemma SameLiquid(s: State, op: Op)
    ensures Apply(s, op).liquidAsset == s.liquidAsset
  {
    hide TryProcessSign, ApplyDecision, ProcessPrompts, AmountsVerified, Repriced, MissingRecord;
    match op
    case NextSign(outcome) =>
      if s.pendingSignRequests != [] {
        SignLiquid(s.(pendingSignRequests := s.pendingSignRequests[1..]), s.pendingSignRequests[0], outcome);
      }
    case DirectSign(msg, outcome) => SignLiquid(s, msg, outcome);
    case Decide(orderId, accept, autoSign, placed, outcome) =>
      DecisionLiquid(s, orderId, accept, autoSign, placed, outcome);
    case ShowPrompts => PromptsKeepRecords(s);
    case Complete(orderId, txid) =>
      PromptsKeepRecords(Closed(s.(submitData := s.submitData - {orderId})));
    case _ =>
  }

  // ---- what the log says of a signature ------------------------------------------------------------

  lemma {:induction false} EventInLog(liquidAsset: AssetId, log: seq<Event>, j: nat)
    requires LogOk(liquidAsset, log) && j < |log|
    ensures LogOk(liquidAsset, log[..j]) && EventOk(liquidAsset, log[..j], log[j])
    decreases |log|
  {
    hide EventOk;
    if j < |log| - 1 {
      var front := log[..|log| - 1];
      EventInLog(liquidAsset, front, j);
      assert front[..j] == log[..j];
    }
  }

  lemma {:induction false} LastTermsAt(liquidAsset: AssetId, log: seq<Event>, o: OrderId) returns (m: nat)
    requires LogOk(liquidAsset, log) && LastTerms(log, o).Some?
    ensures m < |log| && Prices(log[m], o) && LastTerms(log, o) == Some(log[m].terms) && TermsOk(log[m].terms)
    ensures forall n :: m < n < |log| ==> !Prices(log[n], o)
    decreases |log|
  {
    if Prices(log[|log| - 1], o) {
      m := |log| - 1;
    } else {
      m := LastTermsAt(liquidAsset, log[..|log| - 1], o);
    }
  }

  lemma {:induction false} LastNotifiedAt(log: seq<Event>, o: OrderId) returns (p: nat)
    requires WasNotified(log, o)
    ensures p < |log| && NotifiedFor(log[p], o) && forall n :: p < n < |log| ==> !NotifiedFor(log[n], o)
    decreases |log|
  {
    if NotifiedFor(log[|log| - 1], o) {
      p := |log| - 1;
    } else {
      p := LastNotifiedAt(log[..|log| - 1], o);
    }
  }

  lemma {:induction false} LastShownAt(log: seq<Event>, o: OrderId) returns (i: nat)
    requires WasShown(log, o)
    ensures i < |log| && ShownFor(log[i], o) && forall n :: i < n < |log| ==> !ShownFor(log[n], o)
    decreases |log|
  {
    if ShownFor(log[|log| - 1], o) {
      i := |log| - 1;
    } else {
      i := LastShownAt(log[..|log| - 1], o);
    }
  }

  /** The order was recorded anew between two events. */
  ghost predicate Rerecorded(log: seq<Event>, i: nat, j: nat, o: OrderId)
    requires j <= |log|
  {
    exists n :: i < n < j && RecordedFor(log[n], o)
  }

  predicate RecordedFor(e: Event, o: OrderId) {
    e.Recorded? && e.orderId == o
  }

  /** The terms of a Sign request in a log that is in order: fee and formula hold at the price of the
      request; a notification of the order was accepted before, at `p`, with just the terms it
      reports; and the terms are those of the last event that set them, at `m`. That event is the
      notification itself or a later price edit, unless the order was recorded anew in between. */
  lemma SignedTerms(liquidAsset: AssetId, log: seq<Event>, j: nat) returns (p: nat, m: nat)
    requires LogOk(liquidAsset, log) && j < |log| && log[j].Signed?
    ensures var q := log[j].request;
            && TermsOk(q.terms) && Swaps(liquidAsset, q.amounts, q.terms)
            && p <= m < j && NotifiedFor(log[p], q.orderId) && Reports(log[p].terms, log[p].msg.details)
            && Prices(log[m], q.orderId) && log[m].terms == q.terms
            && (forall n :: m < n < j ==> !Prices(log[n], q.orderId))
            && (m == p || log[m].Edited? || Rerecorded(log, p, j, q.orderId))
  {
    var o := log[j].request.orderId;
    EventInLog(liquidAsset, log, j);
    var before := log[..j];
    m := LastTermsAt(liquidAsset, before, o);
    p := LastNotifiedAt(before, o);
    EventInLog(liquidAsset, log, p);
    assert before[m] == log[m] && before[p] == log[p];
    hide LogOk, LastTerms, WasNotified, TermsOk, Swaps, Reports, Follows;
    assert forall n :: m < n < j ==> before[n] == log[n];
    assert Prices(before[p], o);
    if m != p && !log[m].Edited? {
      assert !NotifiedFor(before[m], o);
      assert RecordedFor(log[m], o);
    }
  }

  /** Over any run: every Sign request was made for terms whose fee and price formula hold, traced to
      the accepted notification of its order and to the last event that set its price. */
  lemma EverySignatureIsPriced(liquidAsset: AssetId, ops: seq<Op>, markets: map<OrderId, MarketType>, j: nat)
    returns (p: nat, m: nat)
    requires forall i :: 0 <= i < |ops| ==> Fits(ops[i], markets)
    requires j < |Exec(Init(liquidAsset), ops).log| && Exec(Init(liquidAsset), ops).log[j].Signed?
    ensures var log := Exec(Init(liquidAsset), ops).log;
            var q := log[j].request;
            && TermsOk(q.terms) && Swaps(liquidAsset, q.amounts, q.terms)
            && p <= m < j && NotifiedFor(log[p], q.orderId) && Reports(log[p].terms, log[p].msg.details)
            && Prices(log[m], q.orderId) && log[m].terms == q.terms
            && (forall n :: m < n < j ==> !Prices(log[n], q.orderId))
            && (m == p || log[m].Edited? || Rerecorded(log, p, j, q.orderId))
  {
    hide *;
    RunsKeepTerms(liquidAsset, ops, markets);
    InvHasLog(Exec(Init(liquidAsset), ops));
    p, m := SignedTerms(liquidAsset, Exec(Init(liquidAsset), ops).log, j);
  }

  lemma InvHasLog(s: State)
    requires TermsInv(s)
    ensures LogOk(s.liquidAsset, s.log)
  {
  }

  // ---- prompts ---------------------------------------------------------------------------------------

  /** At the same price the same order has the same terms: the formula fixes the other amount. */
  lemma SamePriceSameTerms(a: Terms, b: Terms)
    requires TermsOk(a) && TermsOk(b) && SameOrder(a, b)
    ensures a == b <==> a.price == b.price
  {
    hide GetServerFee, AssetAmount, BitcoinAmount;
  }

  /** While an order is not recorded anew, its terms stay those of the same order. */
  lemma {:induction false} TermsStaySame(liquidAsset: AssetId, log: seq<Event>, i: nat, o: OrderId)
    requires LogOk(liquidAsset, log) && i < |log| && ShownFor(log[i], o) && !Rerecorded(log, i, |log|, o)
    ensures LastTerms(log, o).Some? && SameOrder(log[i].terms, LastTerms(log, o).value)
    decreases |log|
  {
    var front, last := log[..|log| - 1], log[|log| - 1];
    if i < |log| - 1 {
      RerecordedLonger(log, i, o);
      TermsStaySame(liquidAsset, front, i, o);
      assert !RecordedFor(last, o);
    }
    hide TermsOk, Reports, Swaps;
  }

  lemma RerecordedLonger(log: seq<Event>, i: nat, o: OrderId)
    requires log != []
    ensures Rerecorded(log[..|log| - 1], i, |log| - 1, o) ==> Rerecorded(log, i, |log|, o)
  {
    var front := log[..|log| - 1];
    if Rerecorded(front, i, |front|, o) {
      var n :| i < n < |front| && RecordedFor(front[n], o);
      assert RecordedFor(log[n], o);
    }
  }

  /** What an accepted prompt signs. The last prompt shown for the order is at `i`; unless the order
      has been recorded anew since, the request is made for exactly the terms that were shown if and
      only if the record still has the price that was shown. */
  lemma PromptSignsShown(s: State, orderId: OrderId, autoSign: bool, placed: bool, outcome: SignOutcome)
    returns (i: nat)
    requires TermsInv(s) && s.activeSign.Some? && s.activeSign.value.orderId == orderId
    requires orderId in s.submitData && !outcome.WalletRefuses?
    ensures i < |s.log| && ShownFor(s.log[i], orderId) && forall n :: i < n < |s.log| ==> !ShownFor(s.log[n], orderId)
    ensures var t := ApplyDecision(s, orderId, true, autoSign, placed, outcome);
            && |t.log| > |s.log| + 1 && t.log[|s.log|] == Agreed(orderId) && t.log[|s.log| + 1].Signed?
            && var q := t.log[|s.log| + 1].request;
               && q.orderId == orderId && Swaps(s.liquidAsset, q.amounts, q.terms)
               && (Rerecorded(s.log, i, |s.log|, orderId) ||
                   (q.terms == s.log[i].terms <==> s.submitData[orderId].price == s.log[i].terms.price))
  {
    ActiveWasNotified(s);
    i := LastShownAt(s.log, orderId);
    var rec := s.submitData[orderId];
    DecisionSigns(s, orderId, autoSign, placed, outcome);
    EventInLog(s.liquidAsset, s.log, i);
    var m := LastTermsAt(s.liquidAsset, s.log, orderId);
    var k := LastTermsAt(s.liquidAsset, s.log[..i], orderId);
    if !Rerecorded(s.log, i, |s.log|, orderId) {
      TermsStaySame(s.liquidAsset, s.log, i, orderId);
      SamePriceSameTerms(s.log[i].terms, TermsOf(rec));
    }
    hide LogOk, LastTerms, WasNotified, WasShown, TermsOk, SameOrder, ApplyDecision, Prompted;
  }

  lemma {:induction false} PromptsAppend(s: State)
    ensures s.log <= ProcessPrompts(s).log
    decreases |s.pendingSignPrompts|
  {
    if s.visibleSubmit.None? && s.pendingSignPrompts != [] && s.pendingSignPrompts[0].orderId !in s.submitData {
      PromptsAppend(s.(pendingSignPrompts := s.pendingSignPrompts[1..]));
    }
  }

  lemma DecisionSigns(s: State, orderId: OrderId, autoSign: bool, placed: bool, outcome: SignOutcome)
    requires s.activeSign.Some? && s.activeSign.value.orderId == orderId
    requires orderId in s.submitData && !outcome.WalletRefuses?
    ensures var t, rec := ApplyDecision(s, orderId, true, autoSign, placed, outcome), s.submitData[orderId];
            && |t.log| > |s.log| + 1 && t.log[|s.log|] == Agreed(orderId) && t.log[|s.log| + 1].Signed?
            && t.log[|s.log| + 1].request.orderId == orderId && t.log[|s.log| + 1].request.terms == TermsOf(rec)
            && Swaps(s.liquidAsset, t.log[|s.log| + 1].request.amounts, TermsOf(rec))
  {
    var a := TrySign(Agreeing(s, orderId), s.activeSign.value, outcome);
    PromptsAppend(Reviewed(a, outcome.ServerAccepts?));
    hide ProcessPrompts;
    assert a.log[|s.log|] == Agreed(orderId) && a.log[|s.log| + 1].Signed?;
  }

  /** The input that signs other terms than were shown: the price is edited while the prompt is up. */
  lemma EditedPromptSigned(s: State, orderId: OrderId, price: real, outcome: SignOutcome)
    requires s.activeSign.Some? && s.activeSign.value.orderId == orderId && orderId in s.submitData
    requires !outcome.WalletRefuses?
    ensures var e := Apply(s, EditPrice(orderId, price));
            var t := Apply(e, Decide(orderId, true, false, false, outcome));
            |t.log| > |e.log| + 1 && t.log[|e.log| + 1].Signed? && t.log[|e.log| + 1].request.terms.price == price
  {
    hide ApplyDecision, GetServerFee, AssetAmount, BitcoinAmount;
    var e := Apply(s, EditPrice(orderId, price));
    DecisionSigns(e, orderId, false, false, outcome);
    DecideIs(e, orderId, outcome);
    hide Apply;
  }

  /** The input that signs terms of neither the notification nor an edit: the order is cancelled, which
      closes its prompt but leaves it active, and is recorded anew from what the server then says; a
      decision on the old prompt signs the new terms. */
  lemma RerecordedPromptSigned(s: State, orderId: OrderId, d: Details, outcome: SignOutcome)
    requires s.activeSign.Some? && s.activeSign.value.orderId == orderId && s.visibleSubmit == Some(orderId)
    requires s.pendingSignPrompts == [] && AmountsVerified(s, d) && !outcome.WalletRefuses?
    ensures var e := Apply(Apply(s, Complete(orderId, None)), AddMissing(orderId, d, false));
            var t := Apply(e, Decide(orderId, true, false, false, outcome));
            && |t.log| > |e.log| + 1 && t.log[|e.log| + 1].Signed?
            && t.log[|e.log| + 1].request.terms.price == d.price
            && t.log[|e.log| + 1].request.terms.assetAmount == d.assetAmount
            && t.log[|e.log| + 1].request.terms.bitcoinAmount == d.bitcoinAmount
  {
    hide Apply;
    var c := Apply(s, Complete(orderId, None));
    Cancelled(s, orderId);
    SameVerdict(s, c, d);
    KnownAsset(c, d);
    var e := Apply(c, AddMissing(orderId, d, false));
    Missing(c, orderId, d);
    DecisionSigns(e, orderId, false, false, outcome);
    DecideIs(e, orderId, outcome);
    hide AmountsVerified, ApplyDecision;
  }

  lemma Cancelled(s: State, orderId: OrderId)
    requires s.visibleSubmit == Some(orderId) && s.pendingSignPrompts == []
    ensures Apply(s, Complete(orderId, None)) == Closed(s.(submitData := s.submitData - {orderId}))
  {
  }

  lemma Missing(s: State, orderId: OrderId, d: Details)
    requires orderId !in s.submitData && AmountsVerified(s, d) && d.asset in s.assets
    ensures Apply(s, AddMissing(orderId, d, false)) ==
            WithRecord(s, orderId, MissingRecord(s, d, false), Restored(d, false))
  {
    hide AmountsVerified;
  }

  lemma DecideIs(s: State, orderId: OrderId, outcome: SignOutcome)
    ensures Apply(s, Decide(orderId, true, false, false, outcome)) ==
            ApplyDecision(s, orderId, true, false, false, outcome)
  {
    hide ApplyDecision;
  }
}
