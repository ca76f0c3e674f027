/** What is on the screen when the user decides: the prompt that an accepted decision signs need not be
    the one that is shown. */
module ClientScreen {
  import opened Sequences
  import opened Money
  import opened ClientSigning
  import opened ClientTerms

  /** Nothing, a sign prompt, or the review of an order to place. */
  datatype Screen = Blank | PromptOf(orderId: OrderId) | ReviewOf(orderId: OrderId)

  /** What the interface was told to show last and has not closed. */
  function ScreenOf(log: seq<Event>): Screen {
    if log == [] then Blank
    else
      match log[|log| - 1]
      case Shown(o, _) => PromptOf(o)
      case Linked(o) => ReviewOf(o)
      case Left => Blank
      case _ => ScreenOf(log[..|log| - 1])
  }

  /** The worker's idea of what is visible agrees with the screen. */
  ghost predicate ScreenInv(s: State) {
    s.visibleSubmit == if ScreenOf(s.log).Blank? then None else Some(ScreenOf(s.log).orderId)
  }

  lemma ScreenMore(log: seq<Event>, e: Event)
    ensures ScreenOf(log + [e]) ==
            if e.Shown? then PromptOf(e.orderId) else if e.Linked? then ReviewOf(e.orderId)
            else if e.Left? then Blank else ScreenOf(log)
  {
    assert (log + [e])[..|log|] == log;
  }

  lemma TrySignScreen(s: State, msg: SignMsg, outcome: SignOutcome)
    requires ScreenInv(s)
    ensures ScreenInv(TrySign(s, msg, outcome))
  {
    hide ScreenOf, TermsOf, AmountsOf;
    if msg.orderId in s.submitData {
      var rec := s.submitData[msg.orderId];
      ScreenMore(s.log, Signed(SignRequest(msg.orderId, AmountsOf(s, rec), TermsOf(rec))));
    }
  }

  lemma {:induction false} PromptsScreen(s: State)
    requires ScreenInv(s)
    ensures ScreenInv(ProcessPrompts(s))
    decreases |s.pendingSignPrompts|
  {
    hide ScreenOf, TermsOf;
    if s.visibleSubmit.None? && s.pendingSignPrompts != [] {
      var o := s.pendingSignPrompts[0].orderId;
      if o !in s.submitData {
        PromptsScreen(s.(pendingSignPrompts := s.pendingSignPrompts[1..]));
      } else {
        ScreenMore(s.log, Shown(o, TermsOf(s.submitData[o])));
      }
    }
  }

  lemma SignScreen(s: State, msg: SignMsg, outcome: SignOutcome)
    requires ScreenInv(s)
    ensures ScreenInv(TryProcessSign(s, msg, outcome))
  {
    hide ScreenOf, TermsOf, Accepted, AutoSignAllowed, TrySign, ProcessPrompts, Updated;
    var p := s.(processedSigns := s.processedSigns + {msg.orderId});
    if msg.orderId !in s.processedSigns && Accepted(p, msg) {
      KnownRecord(p, msg);
      var rec := Updated(p.submitData[msg.orderId], msg.details);
      var t := Logged(p.(submitData := p.submitData[msg.orderId := rec]), Notified(msg, TermsOf(rec)));
      ScreenMore(s.log, Notified(msg, TermsOf(rec)));
      TrySignScreen(t, msg, outcome);
      PromptsScreen(t.(pendingSignPrompts := t.pendingSignPrompts + [msg]));
    }
  }

  lemma KnownRecord(s: State, msg: SignMsg)
    requires Accepted(s, msg)
    ensures msg.orderId in s.submitData
  {
  }

  lemma CloseScreen(s: State, waiting: bool)
    ensures ScreenInv(CloseReview(s, waiting))
  {
    hide ScreenOf, ProcessPrompts;
    ScreenMore(s.log, Left);
    PromptsScreen(Reviewed(s, waiting));
  }

  /** A decision always closes what is on the screen. */
  lemma DecisionScreen(s: State, orderId: OrderId, accept: bool, autoSign: bool, placed: bool, outcome: SignOutcome)
    ensures ScreenInv(ApplyDecision(s, orderId, accept, autoSign, placed, outcome))
  {
    hide ScreenInv, CloseReview, TrySign, AmountsVerified, NewRecord;
    if accept && !(s.activeSign.Some? && s.activeSign.value.orderId == orderId) && orderId in s.activeSubmits
       && AmountsVerified(s, s.activeSubmits[orderId].details) {
      KnownAsset(s, s.activeSubmits[orderId].details);
    }
    forall x: State, waiting ensures ScreenInv(CloseReview(x, waiting)) {
      CloseScreen(x, waiting);
    }
  }

  lemma CompleteScreen(s: State, orderId: OrderId, txid: Option<Txid>)
    requires ScreenInv(s)
    ensures ScreenInv(ApplyComplete(s, orderId, txid))
  {
    hide ScreenOf, ProcessPrompts;
    ScreenMore(s.log, Left);
    PromptsScreen(Closed(s.(submitData := s.submitData - {orderId})));
  }

  lemma ApplyScreen(s: State, op: Op)
    requires ScreenInv(s)
    ensures ScreenInv(Apply(s, op))
  {
    hide ScreenOf, TryProcessSign, ApplyDecision, ApplyComplete, ProcessPrompts, AmountsVerified, Repriced, MissingRecord,
         TermsOf;
    match op
    case NextSign(outcome) =>
      if s.pendingSignRequests != [] {
        SignScreen(s.(pendingSignRequests := s.pendingSignRequests[1..]), s.pendingSignRequests[0], outcome);
      }
    case DirectSign(msg, outcome) => SignScreen(s, msg, outcome);
    case Decide(orderId, accept, autoSign, placed, outcome) =>
      DecisionScreen(s, orderId, accept, autoSign, placed, outcome);
    case ShowPrompts => PromptsScreen(s);
    case SetForceAutoSign(force) => ScreenMore(s.log, Forced(force));
    case EditAutoSign(orderId, autoSign) => ScreenMore(s.log, AutoSet(orderId, autoSign));
    case ShowLink(link) => ScreenMore(s.log, Linked(link.orderId));
    case Complete(orderId, txid) => CompleteScreen(s, orderId, txid);
    case EditPrice(orderId, price) =>
      if orderId in s.submitData {
        ScreenMore(s.log, Edited(orderId, TermsOf(Repriced(s.submitData[orderId], price))));
      }
    case AddMissing(orderId, details, twoStep) =>
      if AmountsVerified(s, details) {
        KnownAsset(s, details);
        ScreenMore(s.log, Recorded(orderId, TermsOf(MissingRecord(s, details, twoStep)), Restored(details, twoStep)));
      }
    case _ =>
  }

  lemma {:induction false} RunsKeepScreen(liquidAsset: AssetId, ops: seq<Op>)
    ensures ScreenInv(Exec(Init(liquidAsset), ops))
    decreases |ops|
  {
    if ops != [] {
      RunsKeepScreen(liquidAsset, ops[..|ops| - 1]);
      hide ScreenInv, Apply;
      ApplyScreen(Exec(Init(liquidAsset), ops[..|ops| - 1]), ops[|ops| - 1]);
    }
  }

  /** A decision sends a Sign request exactly if it accepts the order of the active prompt, the order has
      a record, and the wallet signs; what is on the screen plays no role. */
  lemma DecisionSignsExactly(s: State, orderId: OrderId, accept: bool, autoSign: bool, placed: bool,
                             outcome: SignOutcome, o: OrderId)
    ensures SentFor(ApplyDecision(s, orderId, accept, autoSign, placed, outcome).log, o) ==
            SentFor(s.log, o) +
            (if && o == orderId && accept && s.activeSign.Some? && s.activeSign.value.orderId == orderId
                && orderId in s.submitData && !outcome.WalletRefuses? then 1 else 0)
  {
    hide CloseReview, AmountsVerified, SentFor, NewRecord, TermsOf, TrySign;
    CloseSends(s, false, o);
    if accept {
      if s.activeSign.Some? && s.activeSign.value.orderId == orderId {
        AgreedSends(s, orderId, outcome, o);
        CloseSends(TrySign(Agreeing(s, orderId), s.activeSign.value, outcome),
                   orderId in s.submitData && outcome.ServerAccepts?, o);
      } else if orderId in s.activeSubmits {
        var link := s.activeSubmits[orderId];
        var t := s.(activeSubmits := s.activeSubmits - {orderId});
        CloseSends(t, false, o);
        if AmountsVerified(s, link.details) {
          KnownAsset(s, link.details);
          var rec := NewRecord(t, link, autoSign);
          SentForMore(s.log, Recorded(orderId, TermsOf(rec), Placed(link, autoSign)), o);
          CloseSends(WithRecord(t, orderId, rec, Placed(link, autoSign)), link.details.side.Taker?, o);
        }
      }
    }
  }

  lemma AgreedSends(s: State, orderId: OrderId, outcome: SignOutcome, o: OrderId)
    requires s.activeSign.Some? && s.activeSign.value.orderId == orderId
    ensures SentFor(TrySign(Agreeing(s, orderId), s.activeSign.value, outcome).log, o) ==
            SentFor(s.log, o) + (if o == orderId && orderId in s.submitData && !outcome.WalletRefuses? then 1 else 0)
  {
    hide SentFor, AmountsOf, TermsOf;
    var a := Agreeing(s, orderId);
    SentForMore(s.log, Agreed(orderId), o);
    if orderId in s.submitData {
      var rec := s.submitData[orderId];
      SentForMore(a.log, Signed(SignRequest(orderId, AmountsOf(a, rec), TermsOf(rec))), o);
    }
  }

  lemma {:induction false} PromptsSend(s: State, o: OrderId)
    ensures SentFor(ProcessPrompts(s).log, o) == SentFor(s.log, o)
    decreases |s.pendingSignPrompts|
  {
    hide SentFor, TermsOf;
    if s.visibleSubmit.None? && s.pendingSignPrompts != [] {
      var id := s.pendingSignPrompts[0].orderId;
      if id !in s.submitData {
        PromptsSend(s.(pendingSignPrompts := s.pendingSignPrompts[1..]), o);
      } else {
        SentForMore(s.log, Shown(id, TermsOf(s.submitData[id])), o);
      }
    }
  }

  lemma CloseSends(s: State, waiting: bool, o: OrderId)
    ensures SentFor(CloseReview(s, waiting).log, o) == SentFor(s.log, o)
  {
    hide SentFor, ProcessPrompts;
    SentForMore(s.log, Left, o);
    PromptsSend(Reviewed(s, waiting), o);
  }

  /** Over any run: the prompt of an order is on the screen exactly if the order is the visible one and
      what is visible is not the review of the same order. So a decision that signs (see
      `DecisionSignsExactly`) signs the prompt on the screen under just that condition. */
  lemma PromptOnScreenExactly(liquidAsset: AssetId, ops: seq<Op>, orderId: OrderId)
    ensures var s := Exec(Init(liquidAsset), ops);
            ScreenOf(s.log) == PromptOf(orderId) <==>
            s.visibleSubmit == Some(orderId) && ScreenOf(s.log) != ReviewOf(orderId)
  {
    RunsKeepScreen(liquidAsset, ops);
    hide Exec;
  }

  // ---- decisions on prompts that are not shown ---------------------------------------------------------

  /** A rejected prompt stays active: accepting its order later signs it, with nothing on the screen. */
  lemma RejectedPromptSigned(s: State, orderId: OrderId, outcome: SignOutcome)
    requires s.activeSign.Some? && s.activeSign.value.orderId == orderId && orderId in s.submitData
    requires s.pendingSignPrompts == [] && !outcome.WalletRefuses?
    ensures var r := Apply(s, Decide(orderId, false, false, false, WalletRefuses));
            var t := Apply(r, Decide(orderId, true, false, false, outcome));
            && r.visibleSubmit == None && ScreenOf(r.log) == Blank
            && SentFor(t.log, orderId) == SentFor(s.log, orderId) + 1
  {
    hide Apply, ApplyDecision, SentFor, ScreenOf;
    Rejected(s, orderId);
    var r := Reviewed(s, false);
    ScreenMore(s.log, Left);
    SentForMore(s.log, Left, orderId);
    DecisionSignsExactly(r, orderId, true, false, false, outcome, orderId);
    DecideIs(r, orderId, outcome);
  }

  lemma Rejected(s: State, orderId: OrderId)
    requires s.pendingSignPrompts == []
    ensures Apply(s, Decide(orderId, false, false, false, WalletRefuses)) == Reviewed(s, false)
  {
    hide AmountsVerified;
  }

  /** While the review of the same order is on the screen, accepting it signs the prompt instead of
      placing the order. */
  lemma ReviewedPromptSigned(s: State, link: Link, outcome: SignOutcome)
    requires s.activeSign.Some? && s.activeSign.value.orderId == link.orderId && link.orderId in s.submitData
    requires !outcome.WalletRefuses?
    ensures var r := Apply(s, ShowLink(link));
            var t := Apply(r, Decide(link.orderId, true, false, true, outcome));
            && ScreenOf(r.log) == ReviewOf(link.orderId) && t.activeSubmits == r.activeSubmits
            && SentFor(t.log, link.orderId) == SentFor(s.log, link.orderId) + 1
  {
    hide Apply, ApplyDecision, SentFor, ScreenOf;
    LinkShown(s, link, outcome);
    var r := Apply(s, ShowLink(link));
    ScreenMore(s.log, Linked(link.orderId));
    SentForMore(s.log, Linked(link.orderId), link.orderId);
    DecisionSignsExactly(r, link.orderId, true, false, true, outcome, link.orderId);
    SignedNotPlaced(r, link.orderId, outcome);
  }

  lemma LinkShown(s: State, link: Link, outcome: SignOutcome)
    ensures var r := Apply(s, ShowLink(link));
            && r == Logged(s.(visibleSubmit := Some(link.orderId),
                              activeSubmits := s.activeSubmits[link.orderId := link]), Linked(link.orderId))
            && Apply(r, Decide(link.orderId, true, false, true, outcome)) ==
               ApplyDecision(r, link.orderId, true, false, true, outcome)
  {
    hide ApplyDecision;
  }

  lemma SignedNotPlaced(s: State, orderId: OrderId, outcome: SignOutcome)
    requires s.activeSign.Some? && s.activeSign.value.orderId == orderId
    ensures ApplyDecision(s, orderId, true, false, true, outcome).activeSubmits == s.activeSubmits
  {
    var t := TrySign(Agreeing(s, orderId), s.activeSign.value, outcome);
    PromptsKeepRecords(Reviewed(t, orderId in s.submitData && outcome.ServerAccepts?));
    hide ProcessPrompts;
  }
}
