/** Construction of a payjoin: the client pays in an asset and the server adds bitcoin inputs for
    the network fee. Addresses, blinding and signatures proper are not modelled; errors are `None`. */
module Payjoin {
  import opened Sequences
  import opened Money

  type AssetId = int

  // ---- fees ----------------------------------------------------------------------------------------

  const FEE_RATE: real := 0.1
  const WEIGHT_FIXED: nat := 44
  const WEIGHT_VIN_SINGLE_SIG: nat := 367
  const WEIGHT_VIN_MULTI_SIG: nat := 526
  const WEIGHT_VOUT: nat := 4810
  const WEIGHT_FEE: nat := 178

  function Ceil(x: real): int {
    -((-x).Floor)
  }

  function ExpectedNetworkFee(singleSig: nat, multiSig: nat, blindedOutputs: nat): (fee: int)
    ensures fee > 0
  {
    var weight := WEIGHT_FIXED + WEIGHT_VIN_SINGLE_SIG * singleSig + WEIGHT_VIN_MULTI_SIG * multiSig
                  + WEIGHT_VOUT * blindedOutputs + WEIGHT_FEE;
    var vsize := (weight + 3) / 4;
    Ceil(vsize as real * FEE_RATE)
  }

  /** `as u64` of a rounded product: negative values saturate to zero. */
  function ToUnsigned(n: int): nat {
    if n < 0 then 0 else n
  }

  function AssetFee(fixedFee: nat, price: real, networkFee: int): nat {
    fixedFee + ToUnsigned(Round(Times(price, networkFee as real)))
  }

  lemma NetworkFeeMonotone(few: nat, many: nat)
    requires few <= many
    ensures ExpectedNetworkFee(few, 0, 4) <= ExpectedNetworkFee(many, 0, 4)
  {
  }

  /** Through both roundings: fewer inputs never cost more, whatever the sign of the price. */
  lemma AssetFeeMonotone(fixedFee: nat, price: real, few: int, many: int)
    requires 0 < few <= many
    ensures AssetFee(fixedFee, price, few) <= AssetFee(fixedFee, price, many)
  {
    var x, y := Times(price, few as real), Times(price, many as real);
    if price >= 0.0 {
      assert x <= y;
      RoundMonotone(x, y);
    } else {
      assert x <= 0.0;
      RoundMonotone(x, 0.0);
    }
  }

  // ---- inputs and outputs ----------------------------------------------------------------------------

  datatype Utxo = Utxo(id: int, asset: AssetId, value: nat)

  datatype Role = Recipient | ServerFee | ClientChange | ServerChange | NetworkFee

  datatype Output = Output(role: Role, asset: AssetId, amount: nat)
  {
    predicate Blinded() { !role.NetworkFee? }
  }

  datatype Request = Request(asset: AssetId, amount: nat, subtractFee: bool, utxos: seq<Utxo>)
  datatype Offer = Offer(utxos: seq<Utxo>, price: real, fixedFee: nat)

  datatype Payjoin = Payjoin(
    client: seq<Utxo>, server: seq<Utxo>, outputs: seq<Output>, sendAmount: nat, assetFee: nat, reportedFee: nat)

  function Total(utxos: seq<Utxo>): nat {
    if utxos == [] then 0 else utxos[0].value + Total(utxos[1..])
  }

  /** The shortest non-empty prefix that reaches the target, or everything. */
  function Prefix(utxos: seq<Utxo>, target: int): (r: seq<Utxo>)
    ensures r <= utxos
  {
    if utxos == [] then []
    else [utxos[0]] + if utxos[0].value >= target then [] else Prefix(utxos[1..], target - utxos[0].value)
  }

  /** The selection reaches the target exactly when all coins do, and not without its last coin. */
  lemma {:induction false} PrefixReaches(utxos: seq<Utxo>, target: int)
    ensures var r := Prefix(utxos, target);
            && (Total(r) >= target <==> Total(utxos) >= target)
            && (|r| > 1 ==> Total(r[..|r| - 1]) < target)
  {
    if utxos != [] && utxos[0].value < target {
      PrefixReaches(utxos[1..], target - utxos[0].value);
      var r, tail := Prefix(utxos, target), Prefix(utxos[1..], target - utxos[0].value);
      assert r[1..] == tail;
      if |r| > 1 {
        assert r[..|r| - 1][1..] == tail[..|tail| - 1];
      }
    } else if utxos != [] {
      assert Prefix(utxos, target) == [utxos[0]];
    }
  }

  /** The selection loop: add coins until the target is reached. */
  method SelectPrefix(utxos: seq<Utxo>, target: int) returns (selected: seq<Utxo>, amount: nat)
    ensures selected == Prefix(utxos, target) && amount == Total(selected)
  {
    hide Prefix, Total;
    selected, amount := [], 0;
    var k := 0;
    NothingSelected(utxos, target);
    assert utxos[0..] == utxos;
    while k < |utxos|
      invariant 0 <= k <= |utxos|
      invariant amount == Total(selected)
      invariant selected + Prefix(utxos[k..], target - amount) == Prefix(utxos, target)
    {
      var u := utxos[k];
      PrefixStep(selected, utxos[k..], target - amount);
      assert utxos[k..][1..] == utxos[k + 1..];
      TotalMore(selected, u);
      amount := amount + u.value;
      selected := selected + [u];
      k := k + 1;
      if amount >= target {
        return;
      }
    }
    NothingLeft(selected, target - amount);
  }

  lemma NothingSelected(utxos: seq<Utxo>, target: int)
    ensures [] + Prefix(utxos, target) == Prefix(utxos, target) && Total([]) == 0
  {
  }

  lemma NothingLeft(selected: seq<Utxo>, target: int)
    ensures selected + Prefix([], target) == selected
  {
    assert selected + [] == selected;
  }

  lemma PrefixStep(done: seq<Utxo>, rest: seq<Utxo>, want: int)
    requires rest != []
    ensures rest[0].value >= want ==> done + Prefix(rest, want) == done + [rest[0]]
    ensures rest[0].value < want ==>
              done + Prefix(rest, want) == done + [rest[0]] + Prefix(rest[1..], want - rest[0].value)
  {
    var tail := Prefix(rest[1..], want - rest[0].value);
    if rest[0].value >= want {
      assert Prefix(rest, want) == [rest[0]] + [];
    } else {
      assert Prefix(rest, want) == [rest[0]] + tail;
      hide Prefix;
      assert done + ([rest[0]] + tail) == done + [rest[0]] + tail;
    }
  }

  lemma {:induction false} TotalMore(utxos: seq<Utxo>, u: Utxo)
    ensures Total(utxos + [u]) == Total(utxos) + u.value
  {
    if utxos == [] {
      assert utxos + [u] == [u];
    } else {
      TotalMore(utxos[1..], u);
      assert (utxos + [u])[1..] == utxos[1..] + [u];
    }
  }

  // ---- construction ----------------------------------------------------------------------------------

  function IfPositive(role: Role, asset: AssetId, amount: int): seq<Output> {
    if amount > 0 then [Output(role, asset, amount)] else []
  }

  /** `construct_pset`: the fee is computed again for the inputs actually used. `None` for an output
      without an amount, and for a subtraction below zero. */
  function ConstructPset(client: seq<Utxo>, server: seq<Utxo>, asset: AssetId, bitcoin: AssetId, sendAmount: nat,
                         fixedFee: nat, price: real, reportedFee: nat): Option<Payjoin>
  {
    var networkFee := ExpectedNetworkFee(|client| + |server|, 0, 4);
    var assetFee := AssetFee(fixedFee, price, networkFee);
    var assetChange := Total(client) - sendAmount - assetFee;
    var bitcoinChange := Total(server) - networkFee;
    if sendAmount == 0 || assetFee == 0 || assetChange < 0 || bitcoinChange < 0 then None
    else
      Some(Payjoin(client, server,
                   [Output(Recipient, asset, sendAmount), Output(ServerFee, asset, assetFee)]
                   + IfPositive(ClientChange, asset, assetChange)
                   + IfPositive(ServerChange, bitcoin, bitcoinChange)
                   + [Output(NetworkFee, bitcoin, networkFee)],
                   sendAmount, assetFee, reportedFee))
  }

  /** The fee quoted up front, for every coin of both sides. */
  function MaxNetworkFee(req: Request, offer: Offer): int {
    ExpectedNetworkFee(|req.utxos| + |offer.utxos|, 0, 4)
  }

  function MaxAssetFee(req: Request, offer: Offer): nat {
    AssetFee(offer.fixedFee, offer.price, MaxNetworkFee(req, offer))
  }

  function SendAmount(req: Request, offer: Offer): int {
    if req.subtractFee then req.amount - MaxAssetFee(req, offer) else req.amount
  }

  function ClientCoins(req: Request, offer: Offer): seq<Utxo> {
    Prefix(req.utxos, SendAmount(req, offer) + MaxAssetFee(req, offer))
  }

  function ServerCoins(req: Request, offer: Offer): seq<Utxo> {
    Prefix(offer.utxos, MaxNetworkFee(req, offer))
  }

  predicate Checked(req: Request, offer: Offer) {
    && req.utxos != [] && (forall i :: 0 <= i < |req.utxos| ==> req.utxos[i].asset == req.asset)
    && req.amount > 0 && offer.utxos != []
    && SendAmount(req, offer) > 0
    && Total(ClientCoins(req, offer)) >= SendAmount(req, offer) + MaxAssetFee(req, offer)
    && Total(ServerCoins(req, offer)) >= MaxNetworkFee(req, offer)
  }

  /** `create_payjoin` up to the exchange of signatures. */
  function CreatePayjoin(req: Request, offer: Offer): Option<Payjoin> {
    if !Checked(req, offer) then None
    else
      ConstructPset(ClientCoins(req, offer), ServerCoins(req, offer), req.asset, offer.utxos[0].asset,
                    SendAmount(req, offer), offer.fixedFee, offer.price, MaxAssetFee(req, offer))
  }

  method Create(req: Request, offer: Offer) returns (r: Option<Payjoin>)
    ensures r == CreatePayjoin(req, offer)
  {
    hide Prefix, Total, ConstructPset, AssetFee, ExpectedNetworkFee;
    if req.utxos == [] || !(forall i :: 0 <= i < |req.utxos| ==> req.utxos[i].asset == req.asset)
       || req.amount == 0 || offer.utxos == [] {
      return None;
    }
    var maxNetworkFee := ExpectedNetworkFee(|req.utxos| + |offer.utxos|, 0, 4);
    var maxAssetFee := AssetFee(offer.fixedFee, offer.price, maxNetworkFee);
    var sendAmount := req.amount;
    if req.subtractFee {
      if req.amount <= maxAssetFee {
        return None;
      }
      sendAmount := req.amount - maxAssetFee;
    }
    var client, clientAmount := SelectPrefix(req.utxos, sendAmount + maxAssetFee);
    var server, serverAmount := SelectPrefix(offer.utxos, maxNetworkFee);
    if clientAmount < sendAmount + maxAssetFee || serverAmount < maxNetworkFee {
      return None;
    }
    r := ConstructPset(client, server, req.asset, offer.utxos[0].asset, sendAmount, offer.fixedFee,
                       offer.price, maxAssetFee);
  }

  // ---- what a payjoin guarantees ---------------------------------------------------------------------

  /** The recomputed fees stay within the quoted ones, so that no subtraction goes below zero. */
  lemma FeesWithinQuote(req: Request, offer: Offer)
    ensures var n := ExpectedNetworkFee(|ClientCoins(req, offer)| + |ServerCoins(req, offer)|, 0, 4);
            n <= MaxNetworkFee(req, offer) &&
            AssetFee(offer.fixedFee, offer.price, n) <= MaxAssetFee(req, offer)
  {
    var few := |ClientCoins(req, offer)| + |ServerCoins(req, offer)|;
    NetworkFeeMonotone(few, |req.utxos| + |offer.utxos|);
    AssetFeeMonotone(offer.fixedFee, offer.price, ExpectedNetworkFee(few, 0, 4), MaxNetworkFee(req, offer));
  }

  /** Once the checks have passed, construction fails only for an asset fee of zero. */
  lemma ChecksSuffice(req: Request, offer: Offer)
    requires Checked(req, offer)
    ensures var n := ExpectedNetworkFee(|ClientCoins(req, offer)| + |ServerCoins(req, offer)|, 0, 4);
            CreatePayjoin(req, offer).None? <==> AssetFee(offer.fixedFee, offer.price, n) == 0
  {
    FeesWithinQuote(req, offer);
    hide Prefix, Total, AssetFee, ExpectedNetworkFee;
  }

  function InputSum(utxos: seq<Utxo>, asset: AssetId): nat {
    if utxos == [] then 0
    else (if utxos[0].asset == asset then utxos[0].value else 0) + InputSum(utxos[1..], asset)
  }

  function OutputSum(outputs: seq<Output>, asset: AssetId): nat {
    if outputs == [] then 0
    else (if outputs[0].asset == asset then outputs[0].amount else 0) + OutputSum(outputs[1..], asset)
  }

  lemma {:induction false} InputSumOwn(utxos: seq<Utxo>, own: AssetId, asset: AssetId)
    requires forall i :: 0 <= i < |utxos| ==> utxos[i].asset == own || utxos[i].value == 0
    ensures InputSum(utxos, asset) == if asset == own then Total(utxos) else 0
  {
    if utxos != [] {
      InputSumOwn(utxos[1..], own, asset);
    }
  }

  lemma {:induction false} OutputSumAppend(a: seq<Output>, b: seq<Output>, asset: AssetId)
    ensures OutputSum(a + b, asset) == OutputSum(a, asset) + OutputSum(b, asset)
  {
    if a == [] {
      assert a + b == b;
    } else {
      OutputSumAppend(a[1..], b, asset);
      assert (a + b)[1..] == a[1..] + b;
    }
  }

  lemma OutputSumOne(o: Output, asset: AssetId)
    ensures OutputSum([o], asset) == if o.asset == asset then o.amount else 0
  {
    assert [o][1..] == [];
  }

  /** All outputs together: the client's coins in the asset, the server's coins in bitcoin. */
  lemma {:induction false} OutputTotals(client: seq<Utxo>, server: seq<Utxo>, asset: AssetId, bitcoin: AssetId, sendAmount: nat,
                     fixedFee: nat, price: real, reportedFee: nat, a: AssetId)
    requires ConstructPset(client, server, asset, bitcoin, sendAmount, fixedFee, price, reportedFee).Some?
    ensures var p := ConstructPset(client, server, asset, bitcoin, sendAmount, fixedFee, price, reportedFee).value;
            OutputSum(p.outputs, a) ==
              (if a == asset then Total(client) else 0) + (if a == bitcoin then Total(server) else 0)
  {
    var n := ExpectedNetworkFee(|client| + |server|, 0, 4);
    var fee := AssetFee(fixedFee, price, n);
    hide ExpectedNetworkFee, AssetFee, Total;
    var o1, o2 := [Output(Recipient, asset, sendAmount)], [Output(ServerFee, asset, fee)];
    var o3 := IfPositive(ClientChange, asset, Total(client) - sendAmount - fee);
    var o4 := IfPositive(ServerChange, bitcoin, Total(server) - n);
    var o5 := [Output(NetworkFee, bitcoin, n)];
    var p := ConstructPset(client, server, asset, bitcoin, sendAmount, fixedFee, price, reportedFee).value;
    assert p.outputs == o1 + o2 + o3 + o4 + o5;
    OutputSumAppend(o1 + o2 + o3 + o4, o5, a);
    OutputSumAppend(o1 + o2 + o3, o4, a);
    OutputSumAppend(o1 + o2, o3, a);
    OutputSumAppend(o1, o2, a);
    OutputSumOne(o1[0], a);
    OutputSumOne(o2[0], a);
    OutputSumOne(o5[0], a);
    if o3 != [] {
      OutputSumOne(o3[0], a);
    }
    if o4 != [] {
      OutputSumOne(o4[0], a);
    }
  }

  ghost predicate Balanced(p: Payjoin) {
    forall a :: InputSum(p.client, a) + InputSum(p.server, a) == OutputSum(p.outputs, a)
  }

  /** Every coin is of the asset the fee is paid in, or worthless. */
  ghost predicate OneAsset(coins: seq<Utxo>, bitcoin: AssetId) {
    forall i :: 0 <= i < |coins| ==> coins[i].asset == bitcoin || coins[i].value == 0
  }

  lemma {:induction false} InputSumOther(utxos: seq<Utxo>, own: AssetId)
    requires forall a :: InputSum(utxos, a) == if a == own then Total(utxos) else 0
    ensures forall i :: 0 <= i < |utxos| ==> utxos[i].asset == own || utxos[i].value == 0
  {
    forall i | 0 <= i < |utxos| ensures utxos[i].asset == own || utxos[i].value == 0 {
      InputSumAtLeast(utxos, i);
      assert InputSum(utxos, utxos[i].asset) == if utxos[i].asset == own then Total(utxos) else 0;
    }
  }

  lemma {:induction false} InputSumAtLeast(utxos: seq<Utxo>, i: nat)
    requires i < |utxos|
    ensures InputSum(utxos, utxos[i].asset) >= utxos[i].value
  {
    if i > 0 {
      InputSumAtLeast(utxos[1..], i - 1);
    }
  }

  /** A payjoin balances inputs and outputs of every asset exactly when the coins selected from the
      server's offer are of one asset. */
  lemma PayjoinBalances(req: Request, offer: Offer)
    requires CreatePayjoin(req, offer).Some?
    ensures var p := CreatePayjoin(req, offer).value;
            Balanced(p) <==> OneAsset(ServerCoins(req, offer), offer.utxos[0].asset)
  {
    var p := CreatePayjoin(req, offer).value;
    var bitcoin := offer.utxos[0].asset;
    assert forall i :: 0 <= i < |p.client| ==> p.client[i].asset == req.asset;
    forall a
      ensures InputSum(p.client, a) == (if a == req.asset then Total(p.client) else 0)
      ensures OutputSum(p.outputs, a) == (if a == req.asset then Total(p.client) else 0) +
                                         (if a == bitcoin then Total(p.server) else 0)
    {
      InputSumOwn(p.client, req.asset, a);
      OutputTotals(p.client, p.server, req.asset, bitcoin, p.sendAmount, offer.fixedFee, offer.price,
                   p.reportedFee, a);
    }
    hide Prefix, ConstructPset, InputSum, OutputSum, Total;
    if OneAsset(p.server, bitcoin) {
      forall a ensures InputSum(p.server, a) == if a == bitcoin then Total(p.server) else 0 {
        InputSumOwn(p.server, bitcoin, a);
      }
    }
    if Balanced(p) {
      forall a ensures InputSum(p.server, a) == if a == bitcoin then Total(p.server) else 0 {
        assert InputSum(p.client, a) + InputSum(p.server, a) == OutputSum(p.outputs, a);
      }
      InputSumOther(p.server, bitcoin);
    }
  }

  const MixedRequest: Request := Request(1, 1000, false, [Utxo(1, 1, 10_000_000)])
  const MixedOffer: Offer := Offer([Utxo(2, 2, 1), Utxo(3, 3, 1_000_000)], 1.0, 1)

  lemma MixedCoins()
    ensures MaxNetworkFee(MixedRequest, MixedOffer) == 515 && MaxAssetFee(MixedRequest, MixedOffer) == 516
    ensures ClientCoins(MixedRequest, MixedOffer) == MixedRequest.utxos
    ensures ServerCoins(MixedRequest, MixedOffer) == MixedOffer.utxos
  {
    var coins := MixedOffer.utxos;
    assert coins[1..] == [coins[1]];
    assert Prefix([coins[1]], 514) == [coins[1]];
    assert Prefix(coins, 515) == [coins[0]] + [coins[1]];
  }

  /** An offer with coins of two assets passes all checks and gives a payjoin that does not balance. */
  lemma UnbalancedPayjoin()
    ensures var r := CreatePayjoin(MixedRequest, MixedOffer);
            r.Some? && !Balanced(r.value)
  {
    MixedCoins();
    var coins := MixedOffer.utxos;
    assert coins[1..] == [coins[1]] && Total([coins[1]]) == coins[1].value by { assert [coins[1]][1..] == []; }
    assert MixedRequest.utxos[1..] == [];
    ChecksSuffice(MixedRequest, MixedOffer);
    PayjoinBalances(MixedRequest, MixedOffer);
    assert coins[1].asset != coins[0].asset;
    hide CreatePayjoin, Balanced, Prefix;
  }

  /** The amount of an output by its role. */
  function AmountOf(outputs: seq<Output>, role: Role): nat {
    if outputs == [] then 0
    else (if outputs[0].role == role then outputs[0].amount else 0) + AmountOf(outputs[1..], role)
  }

  lemma {:induction false} ConstructedAmounts(client: seq<Utxo>, server: seq<Utxo>, asset: AssetId, bitcoin: AssetId,
                           sendAmount: nat, fixedFee: nat, price: real, reportedFee: nat)
    requires ConstructPset(client, server, asset, bitcoin, sendAmount, fixedFee, price, reportedFee).Some?
    ensures var p := ConstructPset(client, server, asset, bitcoin, sendAmount, fixedFee, price, reportedFee).value;
            && AmountOf(p.outputs, Recipient) == sendAmount
            && AmountOf(p.outputs, ServerFee) == p.assetFee
            && AmountOf(p.outputs, NetworkFee) == ExpectedNetworkFee(|client| + |server|, 0, 4)
            && Total(client) - AmountOf(p.outputs, ClientChange) == sendAmount + p.assetFee
  {
    var n := ExpectedNetworkFee(|client| + |server|, 0, 4);
    var fee := AssetFee(fixedFee, price, n);
    hide ExpectedNetworkFee, AssetFee, Total;
    var o12 := [Output(Recipient, asset, sendAmount), Output(ServerFee, asset, fee)];
    var o3 := IfPositive(ClientChange, asset, Total(client) - sendAmount - fee);
    var o4 := IfPositive(ServerChange, bitcoin, Total(server) - n);
    var o5 := [Output(NetworkFee, bitcoin, n)];
    var p := ConstructPset(client, server, asset, bitcoin, sendAmount, fixedFee, price, reportedFee).value;
    assert p.outputs == o12 + o3 + o4 + o5;
    AmountOfOne(o12[0]);
    AmountOfOne(o12[1]);
    AmountOfOne(o5[0]);
    forall role ensures AmountOf(o12, role) == AmountOf([o12[0]], role) + AmountOf([o12[1]], role) {
      AmountOfAppend([o12[0]], [o12[1]], role);
      assert o12 == [o12[0]] + [o12[1]];
    }
    if o3 != [] {
      AmountOfOne(o3[0]);
    }
    if o4 != [] {
      AmountOfOne(o4[0]);
    }
    hide AmountOf;
    SumOfRoles(p.outputs, o12, o3, o4, o5, Recipient);
    SumOfRoles(p.outputs, o12, o3, o4, o5, ServerFee);
    SumOfRoles(p.outputs, o12, o3, o4, o5, ClientChange);
    SumOfRoles(p.outputs, o12, o3, o4, o5, NetworkFee);
  }

  lemma {:induction false} SumOfRoles(outputs: seq<Output>, a: seq<Output>, b: seq<Output>, c: seq<Output>, d: seq<Output>, role: Role)
    requires outputs == a + b + c + d
    ensures AmountOf(outputs, role) == AmountOf(a, role) + AmountOf(b, role) + AmountOf(c, role) + AmountOf(d, role)
  {
    hide AmountOf;
    AmountOfAppend(a + b + c, d, role);
    AmountOfAppend(a + b, c, role);
    AmountOfAppend(a, b, role);
  }

  lemma AmountOfOne(o: Output)
    ensures forall role :: AmountOf([o], role) == if o.role == role then o.amount else 0
    ensures forall role :: AmountOf([], role) == 0
  {
    assert [o][1..] == [];
  }

  lemma {:induction false} AmountOfAppend(a: seq<Output>, b: seq<Output>, role: Role)
    ensures AmountOf(a + b, role) == AmountOf(a, role) + AmountOf(b, role)
  {
    if a == [] {
      assert a + b == b;
    } else {
      AmountOfAppend(a[1..], b, role);
      assert (a + b)[1..] == a[1..] + b;
    }
  }

  /** The client's outlay, coins in minus change out, is what was asked for: at most the amount when
      the fee is taken from it, at most the amount and the quoted fee otherwise. */
  lemma OutlayIsBounded(req: Request, offer: Offer)
    requires CreatePayjoin(req, offer).Some?
    ensures var p := CreatePayjoin(req, offer).value;
            var outlay := Total(p.client) - AmountOf(p.outputs, ClientChange);
            && AmountOf(p.outputs, Recipient) == SendAmount(req, offer)
            && outlay == SendAmount(req, offer) + p.assetFee
            && p.assetFee <= p.reportedFee == MaxAssetFee(req, offer)
            && outlay <= if req.subtractFee then req.amount else req.amount + MaxAssetFee(req, offer)
  {
    FeesWithinQuote(req, offer);
    ConstructedAmounts(ClientCoins(req, offer), ServerCoins(req, offer), req.asset, offer.utxos[0].asset,
                       SendAmount(req, offer), offer.fixedFee, offer.price, MaxAssetFee(req, offer));
    hide Prefix, Total, AssetFee, ExpectedNetworkFee, AmountOf;
  }

  // ---- the fees in numbers -----------------------------------------------------------------------------

  /** The network fee pays a tenth of a satoshi for each virtual byte, four weight units, of a transaction
      with that many inputs of 367 units, four outputs of 4810, and 222 units besides: it is the least
      amount that does. */
  lemma NetworkFeeIsLeast(inputs: nat)
    ensures var n, weight := ExpectedNetworkFee(inputs, 0, 4), 19_462 + 367 * inputs;
            40 * n >= weight && 40 * (n - 1) < weight
  {
    var weight := 19_462 + 367 * inputs;
    var vsize := (weight + 3) / 4;
    var x := vsize as real * FEE_RATE;
    assert 4 * vsize >= weight > 4 * (vsize - 1);
    CeilBounds(x);
    assert 10 * Ceil(x) >= vsize > 10 * (Ceil(x) - 1);
  }

  lemma CeilBounds(x: real)
    ensures x <= Ceil(x) as real < x + 1.0
  {
  }

  /** The fee in the asset is the fixed fee and the worth of the network fee at the price, rounded; a
      negative price adds nothing. */
  lemma AssetFeeIsNear(fixedFee: nat, price: real, networkFee: int)
    requires networkFee > 0
    ensures price >= 0.0 ==> Near(fixedFee as real + price * networkFee as real, AssetFee(fixedFee, price, networkFee))
    ensures price < 0.0 ==> AssetFee(fixedFee, price, networkFee) == fixedFee
  {
    var x := Times(price, networkFee as real);
    RoundNear(x);
    if price >= 0.0 {
      assert x >= 0.0;
      RoundMonotone(0.0, x);
    } else {
      assert x <= 0.0;
      RoundMonotone(x, 0.0);
    }
  }

  lemma CreatedAmounts(req: Request, offer: Offer, p: Payjoin)
    requires CreatePayjoin(req, offer) == Some(p)
    ensures var n := ExpectedNetworkFee(|p.client| + |p.server|, 0, 4);
            && AmountOf(p.outputs, NetworkFee) == n
            && AmountOf(p.outputs, ServerFee) == AssetFee(offer.fixedFee, offer.price, n)
            && AmountOf(p.outputs, Recipient) == SendAmount(req, offer)
            && p.reportedFee == MaxAssetFee(req, offer)
  {
    hide Prefix, Total, AssetFee, ExpectedNetworkFee, AmountOf, ConstructPset;
    ConstructedAmounts(ClientCoins(req, offer), ServerCoins(req, offer), req.asset, offer.utxos[0].asset,
                       SendAmount(req, offer), offer.fixedFee, offer.price, MaxAssetFee(req, offer));
    ConstructedFee(ClientCoins(req, offer), ServerCoins(req, offer), req.asset, offer.utxos[0].asset,
                   SendAmount(req, offer), offer.fixedFee, offer.price, MaxAssetFee(req, offer));
  }

  lemma {:induction false} ConstructedFee(client: seq<Utxo>, server: seq<Utxo>, asset: AssetId, bitcoin: AssetId,
                                          sendAmount: nat, fixedFee: nat, price: real, reportedFee: nat)
    requires ConstructPset(client, server, asset, bitcoin, sendAmount, fixedFee, price, reportedFee).Some?
    ensures var p := ConstructPset(client, server, asset, bitcoin, sendAmount, fixedFee, price, reportedFee).value;
            && p.assetFee == AssetFee(fixedFee, price, ExpectedNetworkFee(|client| + |server|, 0, 4))
            && p.reportedFee == reportedFee && p.client == client && p.server == server
  {
    hide AssetFee, ExpectedNetworkFee, Total;
  }

  /** The least fee for a weight, and the fee in the asset that belongs to it. */
  ghost predicate FeesAre(offer: Offer, weight: int, networkFee: int, fee: int) {
    && 40 * networkFee >= weight && 40 * (networkFee - 1) < weight
    && (offer.price >= 0.0 ==> Near(offer.fixedFee as real + offer.price * networkFee as real, fee))
    && (offer.price < 0.0 ==> fee == offer.fixedFee)
  }

  lemma FeesExactly(offer: Offer, inputs: nat)
    ensures var n := ExpectedNetworkFee(inputs, 0, 4);
            FeesAre(offer, 19_462 + 367 * inputs, n, AssetFee(offer.fixedFee, offer.price, n))
  {
    NetworkFeeIsLeast(inputs);
    AssetFeeIsNear(offer.fixedFee, offer.price, ExpectedNetworkFee(inputs, 0, 4));
    hide AssetFee, ExpectedNetworkFee, Near;
  }

  /** The outputs of every payjoin: the network fee is the least for its inputs, the server's fee is the
      fixed fee and the worth of the network fee, and the recipient gets the amount, less the reported fee
      if that is to be subtracted. The reported fee is the one for all coins offered, with the network fee
      `quoted`. */
  lemma OutputsExactly(req: Request, offer: Offer, p: Payjoin) returns (quoted: int)
    requires CreatePayjoin(req, offer) == Some(p)
    ensures FeesAre(offer, 19_462 + 367 * (|p.client| + |p.server|), AmountOf(p.outputs, NetworkFee),
                    AmountOf(p.outputs, ServerFee))
    ensures FeesAre(offer, 19_462 + 367 * (|req.utxos| + |offer.utxos|), quoted, p.reportedFee)
    ensures AmountOf(p.outputs, Recipient) == if req.subtractFee then req.amount - p.reportedFee else req.amount
  {
    hide AssetFee, ExpectedNetworkFee, AmountOf, CreatePayjoin, FeesAre;
    CreatedAmounts(req, offer, p);
    FeesExactly(offer, |p.client| + |p.server|);
    FeesExactly(offer, |req.utxos| + |offer.utxos|);
    quoted := MaxNetworkFee(req, offer);
  }

  /** A payjoin is made exactly if the client's coins are of the asset and there are some on both sides,
      the amount is positive and more than a subtracted fee, all coins of the client reach the amount to
      send with the quoted fee, all coins of the server reach the quoted network fee, and the fee for the
      coins used is not zero. */
  lemma CreatesExactly(req: Request, offer: Offer)
    ensures var send := if req.subtractFee then req.amount - MaxAssetFee(req, offer) else req.amount;
            var used := ExpectedNetworkFee(|ClientCoins(req, offer)| + |ServerCoins(req, offer)|, 0, 4);
            CreatePayjoin(req, offer).Some? <==>
              && req.utxos != [] && (forall i :: 0 <= i < |req.utxos| ==> req.utxos[i].asset == req.asset)
              && offer.utxos != [] && req.amount > 0 && send > 0
              && Total(req.utxos) >= send + MaxAssetFee(req, offer)
              && Total(offer.utxos) >= MaxNetworkFee(req, offer)
              && AssetFee(offer.fixedFee, offer.price, used) > 0
  {
    PrefixReaches(req.utxos, SendAmount(req, offer) + MaxAssetFee(req, offer));
    PrefixReaches(offer.utxos, MaxNetworkFee(req, offer));
    if Checked(req, offer) {
      ChecksSuffice(req, offer);
    }
    hide Prefix, Total, AssetFee, ExpectedNetworkFee, ConstructPset;
  }
}
