/** The checks of the client in numbers: which amounts it verifies, which notifications it accepts, and
    what happens to an accepted one. */
module ClientChecks {
  import opened Sequences
  import opened Money
  import opened ClientSigning
  import opened ClientTerms
  import opened ClientChoice

  /** Amounts are verified exactly if the asset is a known one other than bitcoin with at most eight
      decimals, the price is positive, at least 2000 satoshi and some of the asset are traded, the fee is
      a thousandth but at least 500 satoshi and less than the amount, and the one amount follows from the
      other at the price; orders in bitcoin are only for assets with eight decimals. */
  lemma VerifiedExactly(s: State, d: Details)
    ensures AmountsVerified(s, d) <==>
            && d.asset != s.liquidAsset && d.asset in s.assets && s.assets[d.asset] <= 8
            && d.price > 0.0 && d.bitcoinAmount >= 2000 && d.assetAmount > 0
            && d.serverFee == (if (d.bitcoinAmount + 500) / 1000 >= 500 then (d.bitcoinAmount + 500) / 1000 else 500)
            && d.serverFee < d.bitcoinAmount
            && (d.orderType.Bitcoin? ==>
                  s.assets[d.asset] == 8 && d.assetAmount == AssetAmount(d.bitcoinAmount, d.price, 8, d.market))
            && (d.orderType.Asset? ==>
                  d.bitcoinAmount == BitcoinAmount(d.assetAmount, d.price, s.assets[d.asset], d.market))
  {
    if d.bitcoinAmount >= 2000 {
      ServerFeeInIntegers(d.bitcoinAmount);
    }
    hide GetServerFee, AssetAmount, BitcoinAmount;
  }

  /** What a notification and a record have to agree on. */
  ghost predicate Agrees(rec: Record, d: Details) {
    && d.side == rec.side && d.asset == rec.asset && d.orderType == rec.orderType && d.sendBitcoins == rec.sellBitcoin
    && (rec.orderType.Bitcoin? ==> d.bitcoinAmount == rec.bitcoinAmount && d.serverFee == rec.serverFee)
    && (rec.orderType.Asset? ==> d.assetAmount == rec.assetAmount)
    && (rec.side.Taker? ==> d.price == rec.price)
  }

  /** The first notification of an order is accepted exactly if its amounts verify and it agrees with the
      record; otherwise, and for every later one, nothing happens but that it counts as processed. */
  lemma AcceptsExactly(s: State, msg: SignMsg, outcome: SignOutcome)
    ensures var t := TryProcessSign(s, msg, outcome);
            var first := msg.orderId !in s.processedSigns;
            var ok := && first && AmountsVerified(s, msg.details) && msg.orderId in s.submitData
                      && Agrees(s.submitData[msg.orderId], msg.details);
            && (!ok ==> t == s.(processedSigns := s.processedSigns + {msg.orderId}))
            && (ok ==> t == Settle(s.(processedSigns := s.processedSigns + {msg.orderId}), msg, outcome))
  {
    var p := s.(processedSigns := s.processedSigns + {msg.orderId});
    if AmountsVerified(s, msg.details) {
      SameVerdict(s, p, msg.details);
    }
    if AmountsVerified(p, msg.details) {
      SameVerdict(p, s, msg.details);
    }
    hide AmountsVerified, Settle;
    if msg.orderId in s.processedSigns {
      assert s.processedSigns + {msg.orderId} == s.processedSigns;
    }
  }

  /** An accepted notification puts its amounts into the record. It is then signed, when the rule of
      automatic signing allows it, and nothing is shown; otherwise it goes to the end of the prompts. */
  lemma SettlesExactly(s: State, msg: SignMsg, outcome: SignOutcome)
    requires msg.orderId in s.submitData && s.submitData[msg.orderId].price > 0.0
    ensures var rec, d := s.submitData[msg.orderId], msg.details;
            var t := Settle(s, msg, outcome);
            var auto := rec.side.Taker? || s.forceAutoSign
                        || (rec.autoSign && CloseTo(rec.indexPrice, rec.price, d.price));
            var now := rec.(price := d.price, assetAmount := d.assetAmount, bitcoinAmount := d.bitcoinAmount,
                            serverFee := d.serverFee, signed := rec.signed || (auto && outcome.ServerAccepts?));
            && t.submitData == s.submitData[msg.orderId := now]
            && |t.log| > |s.log| && t.log[|s.log|] == Notified(msg, TermsOf(now))
            && (auto ==>
                  && t.pendingSignPrompts == s.pendingSignPrompts && t.activeSign == s.activeSign
                  && |t.log| == |s.log| + (if outcome.WalletRefuses? then 1 else 2)
                  && (!outcome.WalletRefuses? ==>
                        t.log[|s.log| + 1].Signed? && t.log[|s.log| + 1].request.terms == TermsOf(now)))
            && (!auto ==>
                  t == ProcessPrompts(s.(submitData := s.submitData[msg.orderId := now],
                                         log := s.log + [Notified(msg, TermsOf(now))],
                                         pendingSignPrompts := s.pendingSignPrompts + [msg])))
  {
    AutoSignExactly(s, s.submitData[msg.orderId], msg.details);
    PromptsOnQueue(s, msg);
    hide ProcessPrompts, AutoSignAllowed, CloseTo;
  }

  lemma PromptsOnQueue(s: State, msg: SignMsg)
    requires msg.orderId in s.submitData
    ensures var now := Updated(s.submitData[msg.orderId], msg.details);
            var u := s.(submitData := s.submitData[msg.orderId := now], log := s.log + [Notified(msg, TermsOf(now))],
                        pendingSignPrompts := s.pendingSignPrompts + [msg]);
            SameRecords(u, ProcessPrompts(u)) && u.log <= ProcessPrompts(u).log
  {
    var now := Updated(s.submitData[msg.orderId], msg.details);
    var u := s.(submitData := s.submitData[msg.orderId := now], log := s.log + [Notified(msg, TermsOf(now))],
                pendingSignPrompts := s.pendingSignPrompts + [msg]);
    PromptsKeepRecords(u);
    PromptsAppend(u);
    hide ProcessPrompts;
  }

  /** Prompts are taken in order: those whose order is gone are dropped, the first other one is shown with
      the terms of its record, and the rest stay. Nothing happens while something is visible. */
  lemma {:induction false} NextPromptExactly(s: State) returns (k: nat)
    ensures s.visibleSubmit.Some? ==> ProcessPrompts(s) == s
    ensures s.visibleSubmit.None? ==>
              && k <= |s.pendingSignPrompts|
              && (forall i :: 0 <= i < k ==> s.pendingSignPrompts[i].orderId !in s.submitData)
              && (k == |s.pendingSignPrompts| ==> ProcessPrompts(s) == s.(pendingSignPrompts := []))
              && (k < |s.pendingSignPrompts| ==>
                    var msg := s.pendingSignPrompts[k];
                    && msg.orderId in s.submitData
                    && ProcessPrompts(s) ==
                       s.(pendingSignPrompts := s.pendingSignPrompts[k + 1..], visibleSubmit := Some(msg.orderId),
                          activeSign := Some(msg),
                          log := s.log + [Shown(msg.orderId, TermsOf(s.submitData[msg.orderId]))]))
    decreases |s.pendingSignPrompts|
  {
    hide TermsOf;
    k := 0;
    if s.visibleSubmit.None? && s.pendingSignPrompts != [] && s.pendingSignPrompts[0].orderId !in s.submitData {
      var t := s.(pendingSignPrompts := s.pendingSignPrompts[1..]);
      var m := NextPromptExactly(t);
      k := m + 1;
      assert forall i :: 0 < i < k ==> s.pendingSignPrompts[i] == t.pendingSignPrompts[i - 1];
      assert m < |t.pendingSignPrompts| ==> t.pendingSignPrompts[m + 1..] == s.pendingSignPrompts[k + 1..];
    }
  }

  /** A completion notes the transaction in the record. Without a transaction the record is dropped, and
      the screen is left if it shows the order, or if it shows nothing and the order is waited for. */
  lemma CompletionExactly(s: State, o: OrderId, txid: Option<Txid>)
    ensures var t := Apply(s, Complete(o, txid));
            && (txid.Some? && o in s.submitData ==>
                  t == s.(submitData := s.submitData[o := s.submitData[o].(txid := txid)]))
            && (txid.Some? && o !in s.submitData ==> t == s)
            && (txid.None? ==>
                  var closes := s.visibleSubmit == Some(o) || (s.visibleSubmit.None? && s.waitingSubmit == Some(o));
                  var gone := s.(submitData := s.submitData - {o});
                  t == if closes then ProcessPrompts(gone.(visibleSubmit := None, log := s.log + [Left])) else gone)
  {
    hide ProcessPrompts;
  }

  /** A decision that is no agreement to a prompt places the order exactly if it accepts, the order is
      under review, its amounts verify, and wallet and server let it through. It makes a record of what
      was reviewed, with automatic signing only for a maker who chose it. The order is then waited for if
      it is a taker's. */
  lemma PlacesExactly(s: State, o: OrderId, accept: bool, autoSign: bool, placed: bool, outcome: SignOutcome)
    requires !(s.activeSign.Some? && s.activeSign.value.orderId == o)
    ensures var t := Apply(s, Decide(o, accept, autoSign, placed, outcome));
            var places := accept && o in s.activeSubmits && placed && AmountsVerified(s, s.activeSubmits[o].details);
            && (!places ==> t.submitData == s.submitData && t.waitingSubmit == s.waitingSubmit)
            && (places ==>
                  && o in t.submitData && t.submitData == s.submitData[o := t.submitData[o]]
                  && t.waitingSubmit == (if s.activeSubmits[o].details.side.Taker? then s.visibleSubmit else s.waitingSubmit)
                  && var d, rec := s.activeSubmits[o].details, t.submitData[o];
                     && Agrees(rec, d) && rec.price == d.price && rec.market == d.market
                     && rec.bitcoinAmount == d.bitcoinAmount && rec.assetAmount == d.assetAmount
                     && rec.serverFee == d.serverFee && rec.indexPrice == s.activeSubmits[o].indexPrice
                     && rec.autoSign == (autoSign && d.side.Maker?) && rec.txid.None? && !rec.signed
                     && d.asset in s.assets && rec.precision == s.assets[d.asset])
            && t.activeSubmits == if accept then s.activeSubmits - {o} else s.activeSubmits
  {
    hide CloseReview, AmountsVerified, NewRecord, TermsOf;
    var t := s.(activeSubmits := s.activeSubmits - {o});
    if !accept || o !in s.activeSubmits {
      CloseKeeps(s, false);
      assert o !in s.activeSubmits ==> s.activeSubmits - {o} == s.activeSubmits;
    } else {
      var link := s.activeSubmits[o];
      if placed && AmountsVerified(s, link.details) {
        KnownAsset(s, link.details);
        RecordOfLink(t, link, autoSign);
        CloseKeeps(WithRecord(t, o, NewRecord(t, link, autoSign), Placed(link, autoSign)), link.details.side.Taker?);
      } else {
        CloseKeeps(t, false);
      }
    }
  }

  lemma CloseKeeps(s: State, waiting: bool)
    ensures var t := CloseReview(s, waiting);
            && t.submitData == s.submitData && t.activeSubmits == s.activeSubmits
            && t.waitingSubmit == if waiting then s.visibleSubmit else s.waitingSubmit
  {
    PromptsKeepRecords(Reviewed(s, waiting));
    PromptsKeepWaiting(Reviewed(s, waiting));
    hide ProcessPrompts;
  }

  lemma RecordOfLink(s: State, link: Link, autoSign: bool)
    requires link.details.asset in s.assets
    ensures var d, rec := link.details, NewRecord(s, link, autoSign);
            && Agrees(rec, d) && rec.price == d.price && rec.market == d.market
            && rec.bitcoinAmount == d.bitcoinAmount && rec.assetAmount == d.assetAmount
            && rec.serverFee == d.serverFee && rec.indexPrice == link.indexPrice
            && rec.autoSign == (autoSign && d.side.Maker?) && rec.txid.None? && !rec.signed
            && rec.precision == s.assets[d.asset]
  {
  }

  lemma {:induction false} PromptsKeepWaiting(s: State)
    ensures ProcessPrompts(s).waitingSubmit == s.waitingSubmit
    decreases |s.pendingSignPrompts|
  {
    if s.visibleSubmit.None? && s.pendingSignPrompts != [] && s.pendingSignPrompts[0].orderId !in s.submitData {
      PromptsKeepWaiting(s.(pendingSignPrompts := s.pendingSignPrompts[1..]));
    }
  }
}
