/** Who let the client sign: over whole runs every Sign request follows the user's agreement to a prompt,
    or a notification that may be signed without asking by what was chosen for its order. */
module ClientChoice {
  import opened Sequences
  import opened Money
  import opened ClientSigning
  import opened ClientTerms

  // ---- what was chosen, from the log -------------------------------------------------------------------

  /** How the order was recorded last. */
  function LastOrigin(log: seq<Event>, o: OrderId): Option<Origin> {
    if log == [] then None
    else
      var e := log[|log| - 1];
      if e.Recorded? && e.orderId == o then Some(e.origin) else LastOrigin(log[..|log| - 1], o)
  }

  /** The last explicit choice of automatic signing: the user's when the order was placed or edited, or
      that of a two-step order found missing. */
  function LastChoice(log: seq<Event>, o: OrderId): bool {
    if log == [] then false
    else
      var e := log[|log| - 1];
      if e.Recorded? && e.orderId == o then ChoiceOf(e.origin)
      else if e.AutoSet? && e.orderId == o then e.autoSign
      else LastChoice(log[..|log| - 1], o)
  }

  /** Automatic signing is forced for all orders. */
  function LastForced(log: seq<Event>): bool {
    if log == [] then false
    else if log[|log| - 1].Forced? then log[|log| - 1].force
    else LastForced(log[..|log| - 1])
  }

  function ChoiceOf(origin: Origin): bool {
    match origin
    case Placed(_, autoSign) => autoSign
    case Restored(_, twoStep) => twoStep
  }

  function SideOf(origin: Origin): Side {
    if origin.Placed? then origin.link.details.side else Maker
  }

  predicate FollowsIndex(origin: Origin) {
    origin.Placed? && origin.link.indexPrice
  }

  /** The record of an order has the terms it was placed or found with. A missing order is recorded for
      the maker, who sells bitcoin if the maker does. */
  ghost predicate RecordFollows(t: Terms, origin: Origin) {
    match origin
    case Placed(link, _) => Reports(t, link.details)
    case Restored(d, _) =>
      && t.sellBitcoin == (if d.side.Maker? then d.sendBitcoins else !d.sendBitcoins)
      && t.asset == d.asset && t.orderType == d.orderType && t.market == d.market && t.price == d.price
      && t.bitcoinAmount == d.bitcoinAmount && t.assetAmount == d.assetAmount && t.serverFee == d.serverFee
  }

  /** A price that follows an index may change by a tenth, any other not at all. */
  ghost predicate CloseTo(index: bool, was: real, now: real) {
    if index then 10.0 * (now - was) <= was && 10.0 * (was - now) <= was else now == was
  }

  /** An accepted notification may be signed without asking: for a taker, while forced, or for a maker who
      chose so when the price is close to the recorded one. */
  ghost predicate MaySign(before: seq<Event>, msg: SignMsg) {
    var origin := LastOrigin(before, msg.orderId);
    && origin.Some?
    && (|| SideOf(origin.value).Taker?
        || LastForced(before)
        || (&& LastChoice(before, msg.orderId) && LastTerms(before, msg.orderId).Some?
            && CloseTo(FollowsIndex(origin.value), LastTerms(before, msg.orderId).value.price, msg.details.price)))
  }

  /** The event before a Sign request of the order. */
  ghost predicate LetsSign(before: seq<Event>, o: OrderId) {
    && before != []
    && var e := before[|before| - 1];
       || e == Agreed(o)
       || (e.Notified? && e.msg.orderId == o && MaySign(before[..|before| - 1], e.msg))
  }

  ghost predicate ChoiceOk(log: seq<Event>) {
    log == [] ||
    var front, e := log[..|log| - 1], log[|log| - 1];
    && ChoiceOk(front)
    && (e.Signed? ==> LetsSign(front, e.request.orderId))
    && (e.Recorded? ==> RecordFollows(e.terms, e.origin))
  }

  lemma ChoiceMore(log: seq<Event>, e: Event, o: OrderId)
    ensures LastOrigin(log + [e], o) == if e.Recorded? && e.orderId == o then Some(e.origin) else LastOrigin(log, o)
    ensures LastChoice(log + [e], o) ==
            if e.Recorded? && e.orderId == o then ChoiceOf(e.origin)
            else if e.AutoSet? && e.orderId == o then e.autoSign else LastChoice(log, o)
    ensures LastForced(log + [e]) == if e.Forced? then e.force else LastForced(log)
    ensures ChoiceOk(log + [e]) <==>
            && ChoiceOk(log) && (e.Signed? ==> LetsSign(log, e.request.orderId))
            && (e.Recorded? ==> RecordFollows(e.terms, e.origin))
  {
    assert (log + [e])[..|log|] == log;
    hide LetsSign, RecordFollows;
  }

  // ---- what every operation keeps ------------------------------------------------------------------------

  /** Side, index and choice of a record are those of the log. */
  ghost predicate Flagged(log: seq<Event>, o: OrderId, rec: Record) {
    var origin := LastOrigin(log, o);
    && origin.Some? && rec.side == SideOf(origin.value) && rec.indexPrice == FollowsIndex(origin.value)
    && (rec.side.Maker? ==> rec.autoSign == LastChoice(log, o))
  }

  ghost predicate ChoiceInv(s: State) {
    && (forall o :: o in s.submitData ==> Flagged(s.log, o, s.submitData[o]))
    && s.forceAutoSign == LastForced(s.log)
    && ChoiceOk(s.log)
  }

  ghost predicate SameFlags(a: Record, b: Record) {
    a.side == b.side && a.indexPrice == b.indexPrice && a.autoSign == b.autoSign
  }

  ghost predicate SameChoices(s: State, t: State) {
    && t.log == s.log && t.forceAutoSign == s.forceAutoSign
    && forall o :: o in t.submitData ==> o in s.submitData && SameFlags(s.submitData[o], t.submitData[o])
  }

  lemma SameChoicesKept(s: State, t: State)
    requires ChoiceInv(s) && SameChoices(s, t)
    ensures ChoiceInv(t)
  {
    hide LastOrigin, LastChoice, LastForced, ChoiceOk;
    forall o | o in t.submitData ensures Flagged(t.log, o, t.submitData[o]) {
      assert Flagged(s.log, o, s.submitData[o]);
    }
  }

  /** An event that chooses nothing. */
  lemma OtherKept(s: State, e: Event)
    requires ChoiceInv(s) && !e.Recorded? && !e.AutoSet? && !e.Forced?
    requires e.Signed? ==> LetsSign(s.log, e.request.orderId)
    ensures ChoiceInv(Logged(s, e))
  {
    forall o
      ensures LastOrigin(s.log + [e], o) == LastOrigin(s.log, o) && LastChoice(s.log + [e], o) == LastChoice(s.log, o)
    {
      ChoiceMore(s.log, e, o);
    }
    ChoiceMore(s.log, e, 0);
    hide LastOrigin, LastChoice, LastForced, ChoiceOk, LetsSign;
    forall o | o in s.submitData ensures Flagged(s.log + [e], o, s.submitData[o]) {
      assert Flagged(s.log, o, s.submitData[o]);
    }
  }

  /** An event that chooses for one order, or records it. */
  lemma ChosenKept(s: State, o: OrderId, rec: Record, e: Event)
    requires ChoiceInv(s) && ((e.Recorded? && e.orderId == o) || (e.AutoSet? && e.orderId == o))
    requires e.Recorded? ==>
               && RecordFollows(e.terms, e.origin) && rec.side == SideOf(e.origin)
               && rec.indexPrice == FollowsIndex(e.origin) && (rec.side.Maker? ==> rec.autoSign == ChoiceOf(e.origin))
    requires e.AutoSet? ==>
               o in s.submitData && rec.side == s.submitData[o].side && rec.indexPrice == s.submitData[o].indexPrice
               && rec.autoSign == e.autoSign
    ensures ChoiceInv(Logged(s.(submitData := s.submitData[o := rec]), e))
  {
    forall p
      ensures p != o ==> LastOrigin(s.log + [e], p) == LastOrigin(s.log, p) && LastChoice(s.log + [e], p) == LastChoice(s.log, p)
    {
      ChoiceMore(s.log, e, p);
    }
    ChoiceMore(s.log, e, o);
    hide LastOrigin, LastChoice, LastForced, ChoiceOk, LetsSign, RecordFollows;
    assert e.AutoSet? ==> Flagged(s.log, o, s.submitData[o]);
    assert Flagged(s.log + [e], o, rec);
    forall p | p in s.submitData && p != o ensures Flagged(s.log + [e], p, s.submitData[p]) {
      assert Flagged(s.log, p, s.submitData[p]);
    }
  }

  lemma TrySignChoice(s: State, msg: SignMsg, outcome: SignOutcome)
    requires ChoiceInv(s) && LetsSign(s.log, msg.orderId)
    ensures ChoiceInv(TrySign(s, msg, outcome))
  {
    hide ChoiceInv, LetsSign, TermsOf, AmountsOf;
    if msg.orderId in s.submitData && !outcome.WalletRefuses? {
      var rec := s.submitData[msg.orderId];
      var e := Signed(SignRequest(msg.orderId, AmountsOf(s, rec), TermsOf(rec)));
      OtherKept(s, e);
      SameChoicesKept(Logged(s, e), TrySign(s, msg, outcome));
    }
  }

  lemma {:induction false} PromptsChoice(s: State)
    requires ChoiceInv(s)
    ensures ChoiceInv(ProcessPrompts(s))
    decreases |s.pendingSignPrompts|
  {
    hide ChoiceInv, TermsOf;
    if s.visibleSubmit.None? && s.pendingSignPrompts != [] {
      var msg := s.pendingSignPrompts[0];
      var t := s.(pendingSignPrompts := s.pendingSignPrompts[1..]);
      SameChoicesKept(s, t);
      if msg.orderId !in s.submitData {
        PromptsChoice(t);
      } else {
        var u := t.(visibleSubmit := Some(msg.orderId), activeSign := Some(msg));
        SameChoicesKept(s, u);
        OtherKept(u, Shown(msg.orderId, TermsOf(s.submitData[msg.orderId])));
      }
    }
  }

  lemma CloseChoice(s: State, waiting: bool)
    requires ChoiceInv(s)
    ensures ChoiceInv(CloseReview(s, waiting))
  {
    hide ChoiceInv, ProcessPrompts;
    var t := s.(visibleSubmit := None, waitingSubmit := if waiting then s.visibleSubmit else s.waitingSubmit);
    SameChoicesKept(s, t);
    OtherKept(t, Left);
    PromptsChoice(Reviewed(s, waiting));
  }

  // ---- the rule of automatic signing -----------------------------------------------------------------------

  lemma OverAtMost(m: real, p: real, y: real)
    requires p > 0.0
    ensures Over(m, p) <= y <==> m <= Times(y, p)
  {
    Quotient(m, p);
    if Over(m, p) <= y {
      MulAtMost(Over(m, p), y, p);
    } else {
      MulBelow(y, Over(m, p), p);
    }
  }

  /** The rule in numbers, for the positive prices of consistent records. */
  lemma AutoSignExactly(s: State, rec: Record, d: Details)
    requires rec.price > 0.0
    ensures AutoSignAllowed(s, rec, d) <==>
            rec.side.Taker? || s.forceAutoSign || (rec.autoSign && CloseTo(rec.indexPrice, rec.price, d.price))
  {
    var change := if d.price >= rec.price then d.price - rec.price else rec.price - d.price;
    OverAtMost(change, rec.price, if rec.indexPrice then INDEX_PRICE_CHANGE else 0.0);
    assert Times(0.1, rec.price) == rec.price / 10.0 && Times(0.0, rec.price) == 0.0;
    hide Over, Times;
  }

  lemma AllowedMaySign(s: State, msg: SignMsg)
    requires ChoiceInv(s) && Tracked(s) && msg.orderId in s.submitData
    requires s.submitData[msg.orderId].price > 0.0 && AutoSignAllowed(s, s.submitData[msg.orderId], msg.details)
    ensures MaySign(s.log, msg)
  {
    var rec := s.submitData[msg.orderId];
    AutoSignExactly(s, rec, msg.details);
    assert Flagged(s.log, msg.orderId, rec);
    assert LastTerms(s.log, msg.orderId) == Some(TermsOf(rec));
    hide LastOrigin, LastChoice, LastForced, ChoiceOk, LastTerms, AutoSignAllowed;
  }

  lemma LetsAfter(before: seq<Event>, e: Event, o: OrderId)
    requires e == Agreed(o) || (e.Notified? && e.msg.orderId == o && MaySign(before, e.msg))
    ensures LetsSign(before + [e], o)
  {
    assert (before + [e])[..|before|] == before;
    hide MaySign;
  }

  lemma SettleChoice(s: State, msg: SignMsg, outcome: SignOutcome)
    requires ChoiceInv(s) && Tracked(s) && msg.orderId in s.submitData && s.submitData[msg.orderId].price > 0.0
    ensures ChoiceInv(Settle(s, msg, outcome))
  {
    var rec := s.submitData[msg.orderId];
    var now := Updated(rec, msg.details);
    var u := s.(submitData := s.submitData[msg.orderId := now]);
    if AutoSignAllowed(s, rec, msg.details) {
      AllowedMaySign(s, msg);
    }
    assert SameFlags(rec, now);
    hide ChoiceInv, TermsOf, AutoSignAllowed, TrySign, ProcessPrompts, Updated, MaySign, Tracked;
    SameChoicesKept(s, u);
    var e := Notified(msg, TermsOf(now));
    OtherKept(u, e);
    var t := Logged(u, e);
    if AutoSignAllowed(s, rec, msg.details) {
      LetsAfter(s.log, e, msg.orderId);
      TrySignChoice(t, msg, outcome);
    } else {
      SameChoicesKept(t, t.(pendingSignPrompts := t.pendingSignPrompts + [msg]));
      PromptsChoice(t.(pendingSignPrompts := t.pendingSignPrompts + [msg]));
    }
  }

  lemma ProcessSignChoice(s: State, msg: SignMsg, outcome: SignOutcome, markets: map<OrderId, MarketType>)
    requires ChoiceInv(s) && TermsInv(s) && Consistent(s, markets)
    ensures ChoiceInv(TryProcessSign(s, msg, outcome))
  {
    if msg.orderId !in s.processedSigns {
      var p := s.(processedSigns := s.processedSigns + {msg.orderId});
      SameChoicesKept(s, p);
      SameTermsKept(s, p);
      if Accepted(p, msg) {
        PositivePrice(s, msg.orderId, markets);
        hide ChoiceInv, Settle, Accepted, Consistent, LogOk, Prompted;
        SettleChoice(p, msg, outcome);
      }
    }
  }

  lemma PositivePrice(s: State, o: OrderId, markets: map<OrderId, MarketType>)
    requires Consistent(s, markets) && o in s.submitData
    ensures s.submitData[o].price > 0.0
  {
    assert RecordOk(s, s.submitData[o]);
    hide PriceFormula;
  }

  lemma NewRecordFollows(s: State, link: Link, autoSign: bool)
    requires link.details.asset in s.assets
    ensures var rec, origin := NewRecord(s, link, autoSign), Placed(link, autoSign);
            && RecordFollows(TermsOf(rec), origin) && rec.side == SideOf(origin)
            && rec.indexPrice == FollowsIndex(origin) && (rec.side.Maker? ==> rec.autoSign == ChoiceOf(origin))
  {
  }

  lemma MissingRecordFollows(s: State, d: Details, twoStep: bool)
    requires d.asset in s.assets
    ensures var rec, origin := MissingRecord(s, d, twoStep), Restored(d, twoStep);
            && RecordFollows(TermsOf(rec), origin) && rec.side == SideOf(origin)
            && rec.indexPrice == FollowsIndex(origin) && (rec.side.Maker? ==> rec.autoSign == ChoiceOf(origin))
  {
  }

  lemma DecisionChoice(s: State, orderId: OrderId, accept: bool, autoSign: bool, placed: bool, outcome: SignOutcome)
    requires ChoiceInv(s)
    ensures ChoiceInv(ApplyDecision(s, orderId, accept, autoSign, placed, outcome))
  {
    hide ChoiceInv, CloseReview, TrySign, AmountsVerified, NewRecord, RecordFollows, TermsOf, LetsSign;
    CloseChoice(s, false);
    if accept {
      if s.activeSign.Some? && s.activeSign.value.orderId == orderId {
        SameChoicesKept(s, s.(activeSign := None));
        OtherKept(s.(activeSign := None), Agreed(orderId));
        var a := Agreeing(s, orderId);
        LetsAfter(s.log, Agreed(orderId), orderId);
        TrySignChoice(a, s.activeSign.value, outcome);
        CloseChoice(TrySign(a, s.activeSign.value, outcome), orderId in s.submitData && outcome.ServerAccepts?);
      } else if orderId in s.activeSubmits {
        var link := s.activeSubmits[orderId];
        var t := s.(activeSubmits := s.activeSubmits - {orderId});
        SameChoicesKept(s, t);
        CloseChoice(t, false);
        if AmountsVerified(s, link.details) {
          KnownAsset(s, link.details);
          NewRecordFollows(t, link, autoSign);
          var rec := NewRecord(t, link, autoSign);
          ChosenKept(t, orderId, rec, Recorded(orderId, TermsOf(rec), Placed(link, autoSign)));
          CloseChoice(WithRecord(t, orderId, rec, Placed(link, autoSign)), link.details.side.Taker?);
        }
      }
    }
  }

  lemma ForcedKept(s: State, force: bool)
    requires ChoiceInv(s)
    ensures ChoiceInv(Apply(s, SetForceAutoSign(force)))
  {
    var e := Forced(force);
    forall o
      ensures LastOrigin(s.log + [e], o) == LastOrigin(s.log, o) && LastChoice(s.log + [e], o) == LastChoice(s.log, o)
    {
      ChoiceMore(s.log, e, o);
    }
    ChoiceMore(s.log, e, 0);
    hide LastOrigin, LastChoice, LastForced, ChoiceOk, LetsSign;
    forall o | o in s.submitData ensures Flagged(s.log + [e], o, s.submitData[o]) {
      assert Flagged(s.log, o, s.submitData[o]);
    }
  }

  lemma EditChoice(s: State, orderId: OrderId, price: real)
    requires ChoiceInv(s) && orderId in s.submitData
    ensures ChoiceInv(Apply(s, EditPrice(orderId, price)))
  {
    var rec := s.submitData[orderId];
    var now := Repriced(rec, price);
    assert SameFlags(rec, now) by { hide GetServerFee, AssetAmount, BitcoinAmount; }
    hide ChoiceInv, Repriced, TermsOf;
    SameChoicesKept(s, s.(submitData := s.submitData[orderId := now]));
    OtherKept(s.(submitData := s.submitData[orderId := now]), Edited(orderId, TermsOf(now)));
  }

  lemma CompleteChoice(s: State, orderId: OrderId, txid: Option<Txid>)
    requires ChoiceInv(s)
    ensures ChoiceInv(ApplyComplete(s, orderId, txid))
  {
    hide ChoiceInv, ProcessPrompts;
    if txid.Some? {
      SameChoicesKept(s, ApplyComplete(s, orderId, txid));
    } else {
      var t := s.(submitData := s.submitData - {orderId});
      SameChoicesKept(s, t);
      SameChoicesKept(s, t.(visibleSubmit := None));
      OtherKept(t.(visibleSubmit := None), Left);
      PromptsChoice(Closed(t));
    }
  }

  lemma ApplyChoice(s: State, op: Op, markets: map<OrderId, MarketType>)
    requires ChoiceInv(s) && TermsInv(s) && Consistent(s, markets)
    ensures ChoiceInv(Apply(s, op))
  {
    hide ChoiceInv, TermsInv, Consistent, TryProcessSign, ApplyDecision, ApplyComplete, ProcessPrompts, AmountsVerified,
         Repriced, MissingRecord, TermsOf, RecordFollows;
    match op
    case NextSign(outcome) =>
      if s.pendingSignRequests != [] {
        var t := s.(pendingSignRequests := s.pendingSignRequests[1..]);
        SameChoicesKept(s, t);
        SameTermsKept(s, t);
        FewerRequests(s, markets);
        ProcessSignChoice(t, s.pendingSignRequests[0], outcome, markets);
      }
    case DirectSign(msg, outcome) => ProcessSignChoice(s, msg, outcome, markets);
    case Decide(orderId, accept, autoSign, placed, outcome) =>
      DecisionChoice(s, orderId, accept, autoSign, placed, outcome);
    case ShowPrompts => PromptsChoice(s);
    case SetForceAutoSign(force) => ForcedKept(s, force);
    case EditPrice(orderId, price) =>
      if orderId in s.submitData {
        EditChoice(s, orderId, price);
      }
    case EditAutoSign(orderId, autoSign) =>
      if orderId in s.submitData {
        ChosenKept(s, orderId, s.submitData[orderId].(autoSign := autoSign), AutoSet(orderId, autoSign));
      }
    case Complete(orderId, txid) => CompleteChoice(s, orderId, txid);
    case AddMissing(orderId, details, twoStep) =>
      if AmountsVerified(s, details) {
        KnownAsset(s, details);
        MissingRecordFollows(s, details, twoStep);
        var rec := MissingRecord(s, details, twoStep);
        ChosenKept(s, orderId, rec, Recorded(orderId, TermsOf(rec), Restored(details, twoStep)));
      }
    case ShowLink(link) =>
      var t := s.(visibleSubmit := Some(link.orderId), activeSubmits := s.activeSubmits[link.orderId := link]);
      SameChoicesKept(s, t);
      OtherKept(t, Linked(link.orderId));
    case _ => SameChoicesKept(s, Apply(s, op));
  }

  lemma FewerRequests(s: State, markets: map<OrderId, MarketType>)
    requires Consistent(s, markets) && s.pendingSignRequests != []
    ensures Consistent(s.(pendingSignRequests := s.pendingSignRequests[1..]), markets)
  {
    SameRecordsOk(s, s.(pendingSignRequests := s.pendingSignRequests[1..]));
    hide RecordOk;
  }

  lemma {:induction false} RunsKeepChoices(liquidAsset: AssetId, ops: seq<Op>, markets: map<OrderId, MarketType>)
    requires forall i :: 0 <= i < |ops| ==> Fits(ops[i], markets)
    ensures ChoiceInv(Exec(Init(liquidAsset), ops))
    decreases |ops|
  {
    if ops != [] {
      var front := ops[..|ops| - 1];
      RunsKeepChoices(liquidAsset, front, markets);
      RunsKeepTerms(liquidAsset, front, markets);
      RecordsStayConsistent(liquidAsset, front, markets);
      hide ChoiceInv, TermsInv, Consistent, Apply;
      ApplyChoice(Exec(Init(liquidAsset), front), ops[|ops| - 1], markets);
    }
  }

  // ---- what the log says of a signature --------------------------------------------------------------------

  lemma {:induction false} ChoiceInLog(log: seq<Event>, j: nat)
    requires ChoiceOk(log) && j < |log|
    ensures log[j].Signed? ==> LetsSign(log[..j], log[j].request.orderId)
    ensures log[j].Recorded? ==> RecordFollows(log[j].terms, log[j].origin)
    decreases |log|
  {
    hide LetsSign, RecordFollows;
    if j < |log| - 1 {
      var front := log[..|log| - 1];
      ChoiceInLog(front, j);
      assert front[..j] == log[..j];
    }
  }

  /** Over any run: the event before a Sign request is the user's agreement to a prompt of the order that
      was shown before, or the notification itself. In that case the order is a taker's, or signing is
      forced, or the maker's last explicit choice was automatic and the notified price is the recorded
      one, or for an order that follows an index within a tenth of it. */
  lemma SignedByChoice(liquidAsset: AssetId, ops: seq<Op>, markets: map<OrderId, MarketType>, j: nat)
    requires forall i :: 0 <= i < |ops| ==> Fits(ops[i], markets)
    requires j < |Exec(Init(liquidAsset), ops).log| && Exec(Init(liquidAsset), ops).log[j].Signed?
    ensures var log := Exec(Init(liquidAsset), ops).log;
            var o := log[j].request.orderId;
            && j >= 1
            && (|| (log[j - 1] == Agreed(o) && WasShown(log[..j - 1], o))
                || (log[j - 1].Notified? && log[j - 1].msg.orderId == o && MaySign(log[..j - 1], log[j - 1].msg)))
  {
    var s := Exec(Init(liquidAsset), ops);
    RunsKeepChoices(liquidAsset, ops, markets);
    RunsKeepTerms(liquidAsset, ops, markets);
    hide Exec;
    ChoiceInLog(s.log, j);
    assert s.log[..j][..j - 1] == s.log[..j - 1];
    EventInLog(s.liquidAsset, s.log, j - 1);
    hide LogOk, ChoiceOk, MaySign, WasShown, WasNotified, Tracked, Prompted, Flagged;
  }

  /** And every record, placed or restored, has the terms of what was placed or restored. */
  lemma RecordedAsPlaced(liquidAsset: AssetId, ops: seq<Op>, markets: map<OrderId, MarketType>, j: nat)
    requires forall i :: 0 <= i < |ops| ==> Fits(ops[i], markets)
    requires j < |Exec(Init(liquidAsset), ops).log| && Exec(Init(liquidAsset), ops).log[j].Recorded?
    ensures var e := Exec(Init(liquidAsset), ops).log[j]; RecordFollows(e.terms, e.origin)
  {
    RunsKeepChoices(liquidAsset, ops, markets);
    ChoiceInLog(Exec(Init(liquidAsset), ops).log, j);
    hide Exec, RecordFollows, ChoiceOk;
  }
}
