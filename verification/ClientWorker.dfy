/** The signing handlers as the client worker writes them. Leaf handlers do exactly one operation
    of the signing machine; the pump of pending requests and the notification handler perform a
    sequence of them, which they return as a ghost result. */
module ClientWorker {
  import opened Sequences
  import opened Money
  import opened ClientSigning
  import opened ClientTerms
  import opened ClientScreen
  import opened ClientChoice

  /** The wallet and the server as the worker sees them: any answer is possible, except that an
      order's market does not change. */
  class Backend {
    const markets: map<OrderId, MarketType>

    constructor (markets: map<OrderId, MarketType>) {
      this.markets := markets;
    }

    method Succeeds() returns (b: bool) {
      b := *;
    }

    /** The precision of an asset, if the server knows it. */
    method AssetInfo(asset: AssetId) returns (precision: Option<nat>) {
      precision := *;
    }

    method GetSign(orderId: OrderId) returns (r: Option<SignMsg>)
      ensures r.Some? ==> InMarket(markets, r.value.orderId, r.value.details.market) &&
                          InMarket(markets, orderId, r.value.details.market)
    {
      r := *;
      if r.Some? && !(InMarket(markets, r.value.orderId, r.value.details.market) &&
                      InMarket(markets, orderId, r.value.details.market)) {
        r := None;
      }
    }

    /** The id of a submitted order, if the server takes it. */
    method Submit(request: int) returns (orderId: Option<OrderId>) {
      orderId := *;
    }

    /** The order to review, if the server knows it. */
    method GetLink(orderId: OrderId) returns (link: Option<Link>)
      ensures link.Some? ==> InMarket(markets, link.value.orderId, link.value.details.market)
    {
      link := *;
      if link.Some? && !InMarket(markets, link.value.orderId, link.value.details.market) {
        link := None;
      }
    }
  }

  ghost predicate AllFit(ops: seq<Op>, markets: map<OrderId, MarketType>) {
    forall i :: 0 <= i < |ops| ==> Fits(ops[i], markets)
  }

  lemma ExecNothing(s: State)
    ensures Exec(s, []) == s
  {
  }

  lemma ExecTwo(s: State, a: Op, b: Op)
    ensures Exec(s, [a, b]) == Apply(Apply(s, a), b)
  {
    ExecMore(s, [], a);
    ExecMore(s, [a], b);
    assert [] + [a] == [a] && [a] + [b] == [a, b];
  }

  ghost predicate ClientInv(s: State, markets: map<OrderId, MarketType>) {
    SignedOnce(s) && Consistent(s, markets) && TermsInv(s) && ScreenInv(s) && ChoiceInv(s)
  }

  lemma OpKeepsInv(s: State, op: Op, markets: map<OrderId, MarketType>)
    requires Fits(op, markets)
    ensures ClientInv(s, markets) ==> ClientInv(Apply(s, op), markets)
  {
    hide *;
    if ClientInv(s, markets) {
      Unfold(s, markets);
      ApplyKeepsSignedOnce(s, op);
      ApplyKeepsRecords(s, op, markets);
      ApplyTerms(s, op, markets);
      ApplyScreen(s, op);
      ApplyChoice(s, op, markets);
      Unfold(Apply(s, op), markets);
    }
  }

  lemma Unfold(s: State, markets: map<OrderId, MarketType>)
    ensures ClientInv(s, markets) <==>
            SignedOnce(s) && Consistent(s, markets) && TermsInv(s) && ScreenInv(s) && ChoiceInv(s)
  {
    hide SignedOnce, Consistent, TermsInv, ScreenInv, ChoiceInv;
  }

  lemma {:induction false} OpsKeepInv(s: State, ops: seq<Op>, markets: map<OrderId, MarketType>)
    requires AllFit(ops, markets)
    ensures ClientInv(s, markets) ==> ClientInv(Exec(s, ops), markets)
    decreases |ops|
  {
    hide ClientInv, Apply;
    if ops != [] {
      OpsKeepInv(s, ops[..|ops| - 1], markets);
      OpKeepsInv(Exec(s, ops[..|ops| - 1]), ops[|ops| - 1], markets);
    }
  }

  lemma PromptStep(s: State)
    requires s.visibleSubmit.None? && s.pendingSignPrompts != []
    ensures var msg, t := s.pendingSignPrompts[0], s.(pendingSignPrompts := s.pendingSignPrompts[1..]);
            ProcessPrompts(s) ==
            if msg.orderId !in s.submitData then ProcessPrompts(t)
            else Logged(t.(visibleSubmit := Some(msg.orderId), activeSign := Some(msg)),
                        Shown(msg.orderId, TermsOf(s.submitData[msg.orderId])))
  {
  }

  lemma PromptsDone(s: State)
    requires s.visibleSubmit.Some? || s.pendingSignPrompts == []
    ensures ProcessPrompts(s) == s
  {
  }

  lemma AutoSignRule(s: State, rec: Record, d: Details)
    ensures AutoSignAllowed(s, rec, d) <==>
            rec.side.Taker? || (rec.autoSign && WithinChange(rec, d)) || s.forceAutoSign
  {
    hide WithinChange;
  }

  lemma CompleteIs(s: State, orderId: OrderId, txid: Option<Txid>)
    ensures Apply(s, Complete(orderId, txid)) == ApplyComplete(s, orderId, txid)
  {
    hide ApplyComplete;
  }

  class Client {
    const liquidAsset: AssetId
    const backend: Backend
    var connected: bool
    var assets: map<AssetId, nat>
    var forceAutoSign: bool
    var submitData: map<OrderId, Record>
    var processedSigns: set<OrderId>
    var pendingSigns: set<OrderId>
    var pendingSignRequests: seq<SignMsg>
    var pendingSignPrompts: seq<SignMsg>
    var activeSign: Option<SignMsg>
    var visibleSubmit: Option<OrderId>
    var waitingSubmit: Option<OrderId>
    var activeSubmits: map<OrderId, Link>
    ghost var log: seq<Event>

    // the queues of the pump and the AMP connection, which do not bear on signing
    var pendingSubmits: seq<int>
    var pendingLinks: seq<OrderId>
    var ampConnected: bool
    var ampAssets: set<AssetId>
    var hasAmpWallet: bool

    ghost function Current(): State
      reads this
    {
      State(liquidAsset, assets, forceAutoSign, submitData, processedSigns, pendingSigns,
            pendingSignRequests, pendingSignPrompts, activeSign, visibleSubmit, waitingSubmit,
            activeSubmits, log)
    }

    /** At most one signature per order, consistent records, a log of terms that is in order, a
        visible order that agrees with the screen, and signatures by choice only. */
    ghost predicate Valid()
      reads this
    {
      ClientInv(Current(), backend.markets)
    }

    constructor (liquidAsset: AssetId, backend: Backend)
      ensures Current() == Init(liquidAsset) && this.backend == backend && Valid()
    {
      this.liquidAsset, this.backend, connected := liquidAsset, backend, false;
      assets, forceAutoSign, submitData, processedSigns, pendingSigns := map[], false, map[], {}, {};
      pendingSignRequests, pendingSignPrompts, activeSign := [], [], None;
      visibleSubmit, waitingSubmit, activeSubmits, log := None, None, map[], [];
      pendingSubmits, pendingLinks, ampConnected, ampAssets, hasAmpWallet := [], [], false, {}, false;
    }

    /** `try_sign`; the result tells whether it got through. */
    method Sign(msg: SignMsg) returns (ok: bool, ghost outcome: SignOutcome)
      modifies this`log, this`submitData
      ensures Current() == TrySign(old(Current()), msg, outcome)
      ensures ok <==> msg.orderId in old(submitData) && outcome.ServerAccepts?
    {
      if msg.orderId !in submitData {
        return false, WalletRefuses;
      }
      var rec := submitData[msg.orderId];
      var amounts :=
        if rec.sellBitcoin then
          SwapAmounts(liquidAsset, rec.bitcoinAmount + rec.serverFee, rec.asset, rec.assetAmount)
        else
          SwapAmounts(rec.asset, rec.assetAmount, liquidAsset, rec.bitcoinAmount - rec.serverFee);
      var signed := backend.Succeeds();
      if !signed {
        return false, WalletRefuses;
      }
      log := log + [Signed(SignRequest(msg.orderId, amounts, TermsOf(rec)))];
      ok := backend.Succeeds();
      if !ok {
        return false, ServerRejects;
      }
      submitData := submitData[msg.orderId := rec.(signed := true)];
      outcome := ServerAccepts;
    }

    /** `process_pending_sign_prompts` */
    method NextPrompt()
      modifies this`pendingSignPrompts, this`visibleSubmit, this`activeSign, this`log
      ensures Current() == ProcessPrompts(old(Current()))
    {
      hide TermsOf, ProcessPrompts;
      while visibleSubmit.None? && pendingSignPrompts != []
        invariant ProcessPrompts(Current()) == ProcessPrompts(old(Current()))
        decreases |pendingSignPrompts|
      {
        PromptStep(Current());
        var msg := pendingSignPrompts[0];
        pendingSignPrompts := pendingSignPrompts[1..];
        if msg.orderId in submitData {
          visibleSubmit := Some(msg.orderId);
          activeSign := Some(msg);
          log := log + [Shown(msg.orderId, TermsOf(submitData[msg.orderId]))];
          PromptsDone(Current());
        }
      }
      PromptsDone(Current());
    }

    /** `try_process_sign` */
    method ProcessSign(msg: SignMsg) returns (ghost outcome: SignOutcome)
      modifies this`processedSigns, this`submitData, this`log
      modifies this`pendingSignPrompts, this`visibleSubmit, this`activeSign
      ensures Current() == TryProcessSign(old(Current()), msg, outcome)
    {
      hide AmountsVerified, Matches, Settle;
      outcome := WalletRefuses;
      if msg.orderId in processedSigns {
        return;
      }
      processedSigns := processedSigns + {msg.orderId};
      var accepted := Verify(msg.details);
      if accepted && msg.orderId in submitData && Matches(submitData[msg.orderId], msg.details) {
        outcome := SettleSign(msg);
      }
    }

    /** The part of `try_process_sign` after its checks. */
    method SettleSign(msg: SignMsg) returns (ghost outcome: SignOutcome)
      requires msg.orderId in submitData
      modifies this`submitData, this`log, this`pendingSignPrompts, this`visibleSubmit, this`activeSign
      ensures Current() == Settle(old(Current()), msg, outcome)
    {
      hide ProcessPrompts, TrySign, TermsOf, AutoSignAllowed, Updated;
      outcome := WalletRefuses;
      var rec, d := submitData[msg.orderId], msg.details;
      var change := if d.price >= rec.price then d.price - rec.price else rec.price - d.price;
      var allowedChange := if rec.indexPrice then INDEX_PRICE_CHANGE else 0.0;
      var within := rec.price != 0.0 && Over(change, rec.price) <= allowedChange;
      var autoSignAllowed :=
        match rec.side
        case Maker => (rec.autoSign && within) || forceAutoSign
        case Taker => true;
      AutoSignRule(Current(), rec, d);
      hide WithinChange, Over;
      submitData := submitData[msg.orderId := Updated(rec, d)];
      log := log + [Notified(msg, TermsOf(Updated(rec, d)))];
      if !autoSignAllowed {
        pendingSignPrompts := pendingSignPrompts + [msg];
        NextPrompt();
      } else {
        var _, o := Sign(msg);
        outcome := o;
      }
    }

    /** `verify_amounts` */
    method Verify(d: Details) returns (ok: bool)
      ensures ok == AmountsVerified(Current(), d)
    {
      ok := d.asset != liquidAsset && d.price > 0.0 && d.bitcoinAmount >= MIN_BITCOIN_AMOUNT
            && d.serverFee >= MIN_SERVER_FEE && d.assetAmount > 0 && d.serverFee < d.bitcoinAmount
            && d.asset in assets && assets[d.asset] <= 8;
      if ok {
        var precision := assets[d.asset];
        match d.orderType {
          case Bitcoin =>
            ok := precision == 8 && AssetAmount(d.bitcoinAmount, d.price, precision, d.market) == d.assetAmount;
          case Asset =>
            ok := BitcoinAmount(d.assetAmount, d.price, precision, d.market) == d.bitcoinAmount;
        }
        ok := ok && d.serverFee == GetServerFee(d.bitcoinAmount);
      }
    }

    /** `add_missing_submit_data`; fails for unknown assets and wrong amounts. */
    method AddMissingSubmitData(orderId: OrderId, d: Details, twoStep: bool) returns (ok: bool)
      modifies this`submitData, this`log
      ensures Current() == Apply(old(Current()), AddMissing(orderId, d, twoStep))
      ensures ok <==> orderId in old(submitData) || AmountsVerified(old(Current()), d)
    {
      hide AmountsVerified;
      if orderId in submitData {
        return true;
      }
      ok := Verify(d);
      if ok {
        KnownAsset(Current(), d);
        submitData := submitData[orderId :=
          Record(Maker, d.asset, assets[d.asset], d.orderType, d.bitcoinAmount, d.assetAmount, d.price,
                 d.serverFee, d.sendBitcoins == d.side.Maker?, twoStep, None, false, d.market, false)];
        log := log + [Recorded(orderId, TermsOf(submitData[orderId]), Restored(d, twoStep))];
      }
    }

    /** A sign notification from the server. */
    method OnNotification(msg: SignMsg) returns (ghost ops: seq<Op>)
      requires InMarket(backend.markets, msg.orderId, msg.details.market)
      modifies this
      ensures Current() == Exec(old(Current()), ops) && AllFit(ops, backend.markets)
      ensures old(Valid()) ==> Valid()
    {
      hide ClientInv;
      ops := OnSign(msg);
      OpsKeepInv(old(Current()), ops, backend.markets);
    }

    /** `process_sign` */
    method OnSign(msg: SignMsg) returns (ghost ops: seq<Op>)
      requires InMarket(backend.markets, msg.orderId, msg.details.market)
      modifies this
      ensures Current() == Exec(old(Current()), ops) && AllFit(ops, backend.markets)
      ensures msg.details.side.Taker? ==> |ops| == 1 && ops[0].DirectSign? && ops[0].msg == msg
      ensures msg.details.side.Maker? ==> ops != [] && ops[0] == QueueSign(msg)
      ensures old(pendingSigns) == {} ==> pendingSigns == {}
      decreases pendingSigns != {}, 1
    {
      if msg.details.side.Taker? {
        hide TryProcessSign;
        ghost var outcome := ProcessSign(msg);
        ops := [DirectSign(msg, outcome)];
        assert ops[..0] == [];
      } else {
        pendingSignRequests := pendingSignRequests + [msg];
        ops := [QueueSign(msg)];
        assert ops[..0] == [];
        assert Current() == Exec(old(Current()), ops);
        var _, more := PendingRequests();
        ExecAppend(old(Current()), ops, more);
        ops := ops + more;
      }
    }

    /** `try_add_asset`: an unknown asset is looked up. */
    method AddAsset(asset: AssetId) returns (ok: bool, ghost precision: nat)
      modifies this`assets
      ensures ok ==> asset in assets && Current() == Apply(old(Current()), LearnAsset(asset, precision))
      ensures !ok ==> Current() == old(Current())
    {
      ok, precision := true, 0;
      if asset !in assets {
        var info := backend.AssetInfo(asset);
        if info.None? {
          return false, 0;
        }
        precision := info.value;
        assets := assets[asset := info.value];
      }
    }

    /** `download_sign_request` */
    method DownloadSign(orderId: OrderId) returns (ghost ops: seq<Op>)
      requires pendingSigns == {}
      modifies this
      ensures Current() == Exec(old(Current()), ops) && AllFit(ops, backend.markets)
      ensures pendingSigns == {}
      ensures ops != [] ==>
                && |ops| >= 2 && ops[0].LearnAsset?
                && ops[1].AddMissing? && ops[1].orderId == orderId && !ops[1].twoStep
      decreases pendingSigns != {}, 2
    {
      hide Apply, Exec;
      ExecNothing(Current());
      ops := [];
      var got := backend.GetSign(orderId);
      if got.Some? {
        var d := got.value.details;
        var known, precision := AddAsset(d.asset);
        if !known {
          return;
        }
        ghost var learn, add := LearnAsset(d.asset, precision), AddMissing(orderId, d, false);
        var ok := AddMissingSubmitData(orderId, d, false);
        ExecTwo(old(Current()), learn, add);
        ops := [learn, add];
        if ok {
          ghost var more := OnSign(got.value);
          ExecAppend(old(Current()), ops, more);
          ops := ops + more;
        }
      }
    }

    /** Signatures for AMP assets wait until that wallet is connected. A set of pending pushes that are
        all for AMP orders counts as well, even when it is empty. */
    predicate AmpBlocks()
      reads this
    {
      && !ampConnected && hasAmpWallet
      && ((exists i :: 0 <= i < |pendingSignRequests| && pendingSignRequests[i].details.asset in ampAssets)
          || forall o :: o in pendingSigns ==> o in submitData && submitData[o].market.Amp?)
    }

    /** `process_pending_requests`; `ran` tells whether the connections let it through. Then nothing
        stays queued: pushed orders, prompts and notifications have all been looked at. */
    method PendingRequests() returns (ran: bool, ghost ops: seq<Op>)
      modifies this
      ensures Current() == Exec(old(Current()), ops) && AllFit(ops, backend.markets)
      ensures ran <==>
                && old(connected)
                && (|| old(ampConnected || !hasAmpWallet)
                    || (&& (forall i :: 0 <= i < old(|pendingSignRequests|) ==>
                              old(pendingSignRequests[i]).details.asset !in old(ampAssets))
                        && exists o :: o in old(pendingSigns) &&
                             !(o in old(submitData) && old(submitData)[o].market.Amp?)))
      ensures ran ==> pendingSigns == {} && pendingSignRequests == [] && TakePendingSigns in ops && ShowPrompts in ops
      ensures ran ==> pendingSubmits == [] && pendingLinks == []
      ensures !ran ==> ops == []
      ensures old(pendingSigns) == {} ==> pendingSigns == {}
      decreases pendingSigns != {}, 0
    {
      ran, ops := false, [];
      if !connected || AmpBlocks() {
        return;
      }
      var remaining := pendingSigns;
      pendingSigns := {};
      ops := [TakePendingSigns];
      assert ops[..0] == [];
      hide Exec;
      while remaining != {}
        invariant remaining != {} ==> old(pendingSigns) != {}
        invariant pendingSigns == {} && TakePendingSigns in ops
        invariant Current() == Exec(old(Current()), ops) && AllFit(ops, backend.markets)
        decreases remaining
      {
        SomeMember(remaining);
        var orderId :| orderId in remaining;
        remaining := remaining - {orderId};
        if orderId !in processedSigns {
          ghost var more := DownloadSign(orderId);
          ExecAppend(old(Current()), ops, more);
          ops := ops + more;
        }
      }
      ghost var rest := FinishRequests();
      ExecAppend(old(Current()), ops, rest);
      ran, ops := true, ops + rest;
    }

    /** The later stages of `process_pending_requests`: reviews, prompts, queued notifications. */
    method FinishRequests() returns (ghost ops: seq<Op>)
      modifies this
      ensures Current() == Exec(old(Current()), ops) && AllFit(ops, backend.markets)
      ensures pendingSigns == old(pendingSigns) && pendingSignRequests == [] && ShowPrompts in ops
      ensures pendingSubmits == [] && pendingLinks == []
    {
      hide TryProcessSign, ProcessPrompts, ApplyDecision, ApplyComplete, Repriced, MissingRecord, AmountsVerified;
      ops := ShowLinks();
      NextPrompt();
      ExecMore(old(Current()), ops, ShowPrompts);
      ops := ops + [ShowPrompts];
      ghost var rest := DrainSigns();
      ExecAppend(old(Current()), ops, rest);
      ops := ops + rest;
    }

    /** `try_process_downloaded_link`: a link is dropped when its asset is unknown or the wallet
        cannot fund it. */
    method ReviewLink(link: Link) returns (ghost ops: seq<Op>)
      requires InMarket(backend.markets, link.orderId, link.details.market)
      modifies this`assets, this`visibleSubmit, this`activeSubmits, this`log
      ensures Current() == Exec(old(Current()), ops) && AllFit(ops, backend.markets)
      ensures ops == [] || (ops[0].LearnAsset? && (|ops| == 1 || ops[1..] == [ShowLink(link)]))
    {
      hide Exec;
      ExecNothing(Current());
      ops := [];
      var known, precision := AddAsset(link.details.asset);
      if known {
        ghost var learn := LearnAsset(link.details.asset, precision);
        ExecMore(old(Current()), [], learn);
        assert [] + [learn] == [learn];
        ops := [learn];
        var funded := backend.Succeeds();
        if funded {
          ShowOne(link);
          ExecTwo(old(Current()), learn, ShowLink(link));
          hide Apply;
          ops := [learn, ShowLink(link)];
        }
      }
    }

    method ShowOne(link: Link)
      modifies this`visibleSubmit, this`activeSubmits, this`log
      ensures Current() == Apply(old(Current()), ShowLink(link))
    {
      visibleSubmit := Some(link.orderId);
      log := log + [Linked(link.orderId)];
      activeSubmits := activeSubmits[link.orderId := link];
    }

    /** The submissions and links asked for since the last time, and the reviews they lead to. */
    method ShowLinks() returns (ghost ops: seq<Op>)
      modifies this`assets, this`visibleSubmit, this`activeSubmits, this`log, this`pendingSubmits, this`pendingLinks
      ensures Current() == Exec(old(Current()), ops) && AllFit(ops, backend.markets)
      ensures pendingSubmits == [] && pendingLinks == []
    {
      hide Apply, Exec;
      var submitted := SubmitAll(pendingSubmits);
      var wanted := submitted + pendingLinks;
      pendingSubmits, pendingLinks := [], [];
      ops := Download(wanted);
    }

    method SubmitAll(requests: seq<int>) returns (ids: seq<OrderId>)
      ensures |ids| <= |requests|
    {
      ids := [];
      for k := 0 to |requests|
        invariant |ids| <= k
      {
        var id := backend.Submit(requests[k]);
        if id.Some? {
          ids := ids + [id.value];
        }
      }
    }

    method Download(wanted: seq<OrderId>) returns (ghost ops: seq<Op>)
      modifies this`assets, this`visibleSubmit, this`activeSubmits, this`log
      ensures Current() == Exec(old(Current()), ops) && AllFit(ops, backend.markets)
    {
      hide Apply, Exec;
      ExecNothing(Current());
      ops := [];
      for k := 0 to |wanted|
        invariant Current() == Exec(old(Current()), ops) && AllFit(ops, backend.markets)
      {
        var link := backend.GetLink(wanted[k]);
        if link.Some? {
          ghost var more := ReviewLink(link.value);
          ExecAppend(old(Current()), ops, more);
          ops := ops + more;
        }
      }
    }

    /** The queued notifications, first in first out. */
    method DrainSigns() returns (ghost ops: seq<Op>)
      modifies this
      ensures Current() == Exec(old(Current()), ops) && AllFit(ops, backend.markets)
      ensures pendingSigns == old(pendingSigns) && pendingSignRequests == []
      ensures pendingSubmits == old(pendingSubmits) && pendingLinks == old(pendingLinks)
    {
      hide TryProcessSign, ApplyDecision, ApplyComplete, Repriced, MissingRecord, AmountsVerified;
      ops := [];
      while pendingSignRequests != []
        invariant Current() == Exec(old(Current()), ops) && AllFit(ops, backend.markets)
        invariant pendingSigns == old(pendingSigns)
        invariant pendingSubmits == old(pendingSubmits) && pendingLinks == old(pendingLinks)
        decreases |pendingSignRequests|
      {
        var msg := pendingSignRequests[0];
        pendingSignRequests := pendingSignRequests[1..];
        ghost var outcome := ProcessSign(msg);
        ExecMore(old(Current()), ops, NextSign(outcome));
        ops := ops + [NextSign(outcome)];
      }
    }

    /** The placing half of `try_process_submit_decision`; the result tells whether to wait. */
    method PlaceOrder(orderId: OrderId, autoSign: bool) returns (waiting: bool, ghost placed: bool)
      requires orderId in activeSubmits
      modifies this`activeSubmits, this`submitData, this`log
      ensures var link, s := old(activeSubmits[orderId]), old(Current());
              var t := s.(activeSubmits := s.activeSubmits - {orderId});
              if placed && AmountsVerified(s, link.details) then
                && waiting == link.details.side.Taker?
                && Current() == WithRecord(t, orderId, NewRecord(t, link, autoSign), Placed(link, autoSign))
              else !waiting && Current() == t
    {
      hide AmountsVerified;
      var link := activeSubmits[orderId];
      var d := link.details;
      var verified := Verify(d);
      activeSubmits := activeSubmits - {orderId};
      var wentThrough := backend.Succeeds();
      placed, waiting := wentThrough, false;
      if verified && wentThrough {
        KnownAsset(old(Current()), d);
        submitData := submitData[orderId :=
          Record(d.side, d.asset, assets[d.asset], d.orderType, d.bitcoinAmount, d.assetAmount, d.price,
                 d.serverFee, d.sendBitcoins, autoSign && d.side.Maker?, None, link.indexPrice, d.market,
                 false)];
        log := log + [Recorded(orderId, TermsOf(submitData[orderId]), Placed(link, autoSign))];
        waiting := d.side.Taker?;
      }
    }

    /** `process_submit_decision` */
    method SubmitDecision(orderId: OrderId, accept: bool, autoSign: bool) returns (ghost op: Op)
      modifies this
      ensures op.Decide? && op.orderId == orderId && op.accept == accept && op.autoSign == autoSign
      ensures Current() == Apply(old(Current()), op)
      ensures old(Valid()) ==> Valid()
    {
      hide AmountsVerified, TrySign, CloseReview, NewRecord, ClientInv;
      ghost var outcome, placed := WalletRefuses, false;
      var waiting := false;
      if accept {
        if activeSign.Some? && activeSign.value.orderId == orderId {
          var msg := activeSign.value;
          activeSign := None;
          log := log + [Agreed(orderId)];
          waiting, outcome := Sign(msg);
        } else if orderId in activeSubmits {
          waiting, placed := PlaceOrder(orderId, autoSign);
        }
      }
      op := Decide(orderId, accept, autoSign, placed, outcome);
      EndReview(waiting);
      OpKeepsInv(old(Current()), op, backend.markets);
    }

    method EndReview(waiting: bool)
      modifies this`pendingSignPrompts, this`visibleSubmit, this`activeSign, this`waitingSubmit, this`log
      ensures Current() == CloseReview(old(Current()), waiting)
    {
      if waiting {
        waitingSubmit := visibleSubmit;
      }
      visibleSubmit := None;
      log := log + [Left];
      NextPrompt();
    }

    /** The record half of `process_edit_order`, once the server has confirmed the new price. The
        price is stored as it is; the invariant needs it to be positive. */
    method EditOrderPrice(orderId: OrderId, price: real)
      modifies this`submitData, this`log
      ensures Current() == Apply(old(Current()), EditPrice(orderId, price))
      ensures old(Valid()) && price > 0.0 ==> Valid()
    {
      hide ClientInv, GetServerFee, AssetAmount, BitcoinAmount;
      if orderId in submitData {
        var rec := submitData[orderId];
        match rec.orderType {
          case Bitcoin =>
            var asset :=
              if price != 0.0 then AssetAmount(rec.bitcoinAmount, price, rec.precision, rec.market)
              else if rec.market.PricedInBitcoins() then ByZero(rec.bitcoinAmount) else 0;
            rec := rec.(price := price, assetAmount := asset);
          case Asset =>
            var bitcoin :=
              if price != 0.0 then BitcoinAmount(rec.assetAmount, price, rec.precision, rec.market)
              else if rec.market.PricedInBitcoins() then 0 else ByZero(rec.assetAmount);
            rec := rec.(price := price, bitcoinAmount := bitcoin, serverFee := GetServerFee(bitcoin));
        }
        submitData := submitData[orderId := rec];
        log := log + [Edited(orderId, TermsOf(rec))];
      }
      if price > 0.0 {
        OpKeepsInv(old(Current()), EditPrice(orderId, price), backend.markets);
      }
    }

    /** `process_complete` */
    method OnComplete(orderId: OrderId, txid: Option<Txid>)
      modifies this
      ensures Current() == Apply(old(Current()), Complete(orderId, txid))
      ensures old(Valid()) ==> Valid()
    {
      hide ProcessPrompts, ClientInv, TermsOf, Apply;
      CompleteIs(Current(), orderId, txid);
      OpKeepsInv(Current(), Complete(orderId, txid), backend.markets);
      if txid.Some? {
        if orderId in submitData {
          submitData := submitData[orderId := submitData[orderId].(txid := txid)];
        }
        return;
      }
      submitData := submitData - {orderId};
      if visibleSubmit == Some(orderId) || (visibleSubmit.None? && waitingSubmit == Some(orderId)) {
        visibleSubmit := None;
        log := log + [Left];
        NextPrompt();
      }
    }

    /** A push message for an order: remember it and pump. */
    method OnPush(orderId: OrderId) returns (ghost ops: seq<Op>)
      modifies this
      ensures Current() == Exec(old(Current()), ops) && AllFit(ops, backend.markets)
      ensures ops != [] && ops[0] == PushSign(orderId)
      ensures old(Valid()) ==> Valid()
    {
      hide ClientInv;
      pendingSigns := pendingSigns + {orderId};
      ops := [PushSign(orderId)];
      assert ops[..0] == [];
      assert Current() == Exec(old(Current()), ops);
      var _, more := PendingRequests();
      ExecAppend(old(Current()), ops, more);
      ops := ops + more;
      OpsKeepInv(old(Current()), ops, backend.markets);
    }

    /** The record half of an order notification: an own order that is not known yet is recorded. */
    method OnOrderCreated(orderId: OrderId, d: Details, own: bool, twoStep: bool) returns (ghost ops: seq<Op>)
      requires InMarket(backend.markets, orderId, d.market)
      modifies this`assets, this`submitData, this`log
      ensures Current() == Exec(old(Current()), ops) && AllFit(ops, backend.markets)
      ensures old(Valid()) ==> Valid()
      ensures own ==> ops != [] && ops[|ops| - 1] == AddMissing(orderId, d, twoStep)
    {
      hide Exec, ClientInv;
      ExecNothing(Current());
      ops := [];
      var known, precision := AddAsset(d.asset);
      if known {
        ghost var learn := LearnAsset(d.asset, precision);
        ExecMore(old(Current()), ops, learn);
        ops := ops + [learn];
      }
      if own {
        var _ := AddMissingSubmitData(orderId, d, twoStep);
        hide Apply;
        ExecMore(old(Current()), ops, AddMissing(orderId, d, twoStep));
        ops := ops + [AddMissing(orderId, d, twoStep)];
      }
      OpsKeepInv(old(Current()), ops, backend.markets);
    }

    method OnLogout()
      modifies this
      ensures Current() == Apply(old(Current()), Logout)
      ensures old(Valid()) ==> Valid()
    {
      hide ClientInv;
      OpKeepsInv(Current(), Logout, backend.markets);
      activeSubmits := map[];
      activeSign := None;
    }
  }
}
