/** Concrete runs of the signing machine, from the initial state, in which a decision signs something
    else than what the user was shown. */
module ClientStories {
  import opened Sequences
  import opened Money
  import opened ClientSigning
  import opened ClientTerms
  import opened ClientScreen

  const TheOrder: OrderId := 7
  const TheAsset: AssetId := 1

  /** 0.0001 bitcoin for 0.0001 of a stablecoin, at the price of one. */
  const Offered: Details := Details(TheAsset, 10_000, 10_000, 1.0, 500, Maker, true, OrderType.Asset, Stablecoin)

  /** The same bitcoin at the price of two. */
  const Dearer: Details := Details(TheAsset, 10_000, 20_000, 2.0, 500, Maker, true, OrderType.Asset, Stablecoin)

  lemma EightDigits()
    ensures Pow10(8) == 100_000_000
  {
    assert Pow10(2) == 100;
    assert Pow10(4) == 10_000;
    assert Pow10(6) == 1_000_000;
  }

  lemma AmountsFit(s: State)
    requires s.liquidAsset != TheAsset && TheAsset in s.assets && s.assets[TheAsset] == 8
    ensures AmountsVerified(s, Offered) && AmountsVerified(s, Dearer)
  {
    EightDigits();
    ServerFeeInIntegers(10_000);
    assert Times(Over(Over(10_000.0, 100_000_000.0), 1.0), 100_000_000.0) == 10_000.0;
    assert Times(Over(Over(20_000.0, 100_000_000.0), 2.0), 100_000_000.0) == 10_000.0;
    RoundUnique(10_000.0, 10_000);
    hide GetServerFee, Round, Times, Over, Pow10;
  }

  /** The asset is learnt, the order is recorded, and a sign notification for it arrives. */
  const Opening: seq<Op> :=
    [LearnAsset(TheAsset, 8), AddMissing(TheOrder, Offered, false), DirectSign(SignMsg(TheOrder, Offered), WalletRefuses)]

  lemma ExecThree(s: State, a: Op, b: Op, c: Op)
    ensures Exec(s, [a, b, c]) == Apply(Apply(Apply(s, a), b), c)
  {
    hide Apply;
    ExecMore(s, [], a);
    ExecMore(s, [a], b);
    ExecMore(s, [a, b], c);
    assert [] + [a] == [a] && [a] + [b] == [a, b] && [a, b] + [c] == [a, b, c];
  }

  /** The prompt of the order is up. */
  ghost predicate PromptIsUp(s: State) {
    && s.activeSign == Some(SignMsg(TheOrder, Offered)) && s.visibleSubmit == Some(TheOrder)
    && s.pendingSignPrompts == [] && TheOrder in s.submitData && s.submitData[TheOrder].price == 1.0
    && s.log != [] && s.log[|s.log| - 1] == Shown(TheOrder, TermsOf(s.submitData[TheOrder]))
    && s.liquidAsset == 0 && s.assets == map[TheAsset := 8]
  }

  lemma Learnt()
    ensures Apply(Init(0), LearnAsset(TheAsset, 8)) == Init(0).(assets := map[TheAsset := 8])
  {
    assert map[][TheAsset := 8] == map[TheAsset := 8];
  }

  lemma Notified1(s: State, rec: Record)
    requires s.liquidAsset == 0 && s.assets == map[TheAsset := 8] && !s.forceAutoSign && s.processedSigns == {}
    requires s.submitData == map[TheOrder := rec] && rec == MissingRecord(s, Offered, false)
    requires s.visibleSubmit.None? && s.pendingSignPrompts == []
    ensures PromptIsUp(Apply(s, DirectSign(SignMsg(TheOrder, Offered), WalletRefuses)))
  {
    var msg := SignMsg(TheOrder, Offered);
    var p := s.(processedSigns := s.processedSigns + {TheOrder});
    AmountsFit(p);
    assert Accepted(p, msg) by { hide AmountsVerified; }
    assert !AutoSignAllowed(p, rec, Offered);
    assert Updated(rec, Offered) == rec;
    var t := Logged(p.(submitData := p.submitData[TheOrder := rec]), Notified(msg, TermsOf(rec)));
    var u := t.(pendingSignPrompts := t.pendingSignPrompts + [msg]);
    assert Settle(p, msg, WalletRefuses) == ProcessPrompts(u) by { hide ProcessPrompts, AutoSignAllowed, Updated; }
    assert u.pendingSignPrompts == [msg] && u.pendingSignPrompts[1..] == [];
    hide AmountsVerified, AutoSignAllowed, Settle, Accepted;
    assert TryProcessSign(s, msg, WalletRefuses) == ProcessPrompts(u);
  }

  lemma OpeningShowsPrompt()
    ensures PromptIsUp(Exec(Init(0), Opening))
  {
    hide Exec, PromptIsUp;
    var a := Apply(Init(0), LearnAsset(TheAsset, 8));
    Learnt();
    AmountsFit(a);
    hide Apply;
    var b := Apply(a, AddMissing(TheOrder, Offered, false));
    Missing(a, TheOrder, Offered);
    ExecThree(Init(0), LearnAsset(TheAsset, 8), AddMissing(TheOrder, Offered, false),
              DirectSign(SignMsg(TheOrder, Offered), WalletRefuses));
    var rec := MissingRecord(a, Offered, false);
    assert map[][TheOrder := rec] == map[TheOrder := rec];
    Notified1(b, rec);
  }

  lemma ExecOnTop(ops: seq<Op>, a: Op, b: Op)
    ensures Exec(Init(0), ops + [a, b]) == Apply(Apply(Exec(Init(0), ops), a), b)
  {
    hide Apply;
    ExecMore(Init(0), ops, a);
    ExecMore(Init(0), ops + [a], b);
    assert ops + [a] + [b] == ops + [a, b];
  }

  /** The last Sign request of a log. */
  ghost predicate SignsAt(t: State, n: nat, price: real) {
    n < |t.log| && t.log[n].Signed? && t.log[n].request.orderId == TheOrder && t.log[n].request.terms.price == price
  }

  /** The prompt shows the price of one, the price is edited to two, and the decision signs two. */
  lemma EditedStory() returns (n: nat)
    ensures SignsAt(Exec(Init(0), Opening + [EditPrice(TheOrder, 2.0),
                                             Decide(TheOrder, true, false, false, ServerAccepts)]), n, 2.0)
    ensures PromptIsUp(Exec(Init(0), Opening))
  {
    OpeningShowsPrompt();
    var s := Exec(Init(0), Opening);
    var e := Apply(s, EditPrice(TheOrder, 2.0));
    ExecOnTop(Opening, EditPrice(TheOrder, 2.0), Decide(TheOrder, true, false, false, ServerAccepts));
    EditedSigns(s, 2.0);
    n := |e.log| + 1;
    hide Exec, Apply;
  }

  lemma EditedSigns(s: State, price: real)
    requires PromptIsUp(s)
    ensures var e := Apply(s, EditPrice(TheOrder, price));
            SignsAt(Apply(e, Decide(TheOrder, true, false, false, ServerAccepts)), |e.log| + 1, price)
  {
    var e := Apply(s, EditPrice(TheOrder, price));
    assert e.activeSign == s.activeSign && TheOrder in e.submitData by { hide Repriced; }
    EditedPromptSigned(s, TheOrder, price, ServerAccepts);
    DecisionSigns(e, TheOrder, false, false, ServerAccepts);
    DecideIs(e, TheOrder, ServerAccepts);
    hide Apply, ApplyDecision;
  }

  /** The prompt is rejected, and accepting the order later signs it with nothing on the screen. */
  lemma RejectedStory()
    ensures var s := Exec(Init(0), Opening + [Decide(TheOrder, false, false, false, WalletRefuses),
                                              Decide(TheOrder, true, false, false, ServerAccepts)]);
            SentFor(s.log, TheOrder) >= 1
    ensures ScreenOf(Apply(Exec(Init(0), Opening), Decide(TheOrder, false, false, false, WalletRefuses)).log) == Blank
  {
    OpeningShowsPrompt();
    ExecOnTop(Opening, Decide(TheOrder, false, false, false, WalletRefuses),
              Decide(TheOrder, true, false, false, ServerAccepts));
    RejectedPromptSigned(Exec(Init(0), Opening), TheOrder, ServerAccepts);
    hide Exec, Apply, SentFor, ScreenOf;
  }

  /** The order is cancelled under its prompt and recorded anew at twice the price, which is signed. */
  lemma RerecordedStory()
    ensures var e := Apply(Apply(Exec(Init(0), Opening), Complete(TheOrder, None)), AddMissing(TheOrder, Dearer, false));
            var t := Apply(e, Decide(TheOrder, true, false, false, ServerAccepts));
            |t.log| > |e.log| + 1 && t.log[|e.log| + 1].Signed? && t.log[|e.log| + 1].request.terms.price == 2.0
  {
    OpeningShowsPrompt();
    var s := Exec(Init(0), Opening);
    AmountsFit(s);
    RerecordedPromptSigned(s, TheOrder, Dearer, ServerAccepts);
    hide Exec, Apply, AmountsVerified;
  }
}
