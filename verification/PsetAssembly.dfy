/** Assembling the payjoin transaction: shuffle inputs (with their secrets) and outputs, put the
    network fee last, and merge the signatures of both sides. */
module PsetAssembly {
  import opened Sequences
  import opened Shuffle
  import opened Payjoin

  datatype Input = Input(prevout: int, finalScriptSig: Option<int>, finalWitness: Option<int>)
  datatype Secret = Secret(asset: AssetId, value: nat)

  // ---- the order of inputs and outputs -----------------------------------------------------------------

  function Zip(inputs: seq<Input>, secrets: seq<Secret>): (r: seq<(Input, Secret)>)
    requires |inputs| == |secrets|
    ensures |r| == |inputs| && forall i :: 0 <= i < |r| ==> r[i] == (inputs[i], secrets[i])
  {
    seq(|inputs|, i requires 0 <= i < |inputs| => (inputs[i], secrets[i]))
  }

  /** The first output without a blinding key, `|outputs|` if there is none. */
  function FeePosition(outputs: seq<Output>): (i: nat)
    ensures i <= |outputs|
    ensures i < |outputs| ==> !outputs[i].Blinded()
    ensures forall j :: 0 <= j < i ==> outputs[j].Blinded()
  {
    if outputs == [] || !outputs[0].Blinded() then 0 else 1 + FeePosition(outputs[1..])
  }

  function FeeLast(outputs: seq<Output>): Option<seq<Output>> {
    var i := FeePosition(outputs);
    if i == |outputs| then None else Some(Swap(outputs, i, |outputs| - 1))
  }

  datatype Arranged = Arranged(inputs: seq<(Input, Secret)>, outputs: seq<Output>)

  /** The arrangement part of `randomize_and_blind_pset`. */
  function Arrange(inputs: seq<Input>, secrets: seq<Secret>, outputs: seq<Output>,
                   inputRandom: seq<nat>, outputRandom: seq<nat>): Option<Arranged>
  {
    if |inputs| != |secrets| then None
    else
      var arranged := FeeLast(Shuffled(outputs, outputRandom));
      if arranged.None? then None
      else Some(Arranged(Shuffled(Zip(inputs, secrets), inputRandom), arranged.value))
  }

  method RandomizePset(inputs: seq<Input>, secrets: seq<Secret>, outputs: seq<Output>,
                       inputRandom: seq<nat>, outputRandom: seq<nat>) returns (r: Option<Arranged>)
    ensures r == Arrange(inputs, secrets, outputs, inputRandom, outputRandom)
  {
    if |inputs| != |secrets| {
      return None;
    }
    hide Zip, Shuffled, FeeLast;
    var pairs := Zip(inputs, secrets);
    var ins := new (Input, Secret)[|pairs|](i requires 0 <= i < |pairs| => pairs[i]);
    assert ins[..] == pairs;
    ShuffleInPlace(ins, inputRandom);
    var outs := RandomizeOutputs(outputs, outputRandom);
    if outs.None? {
      return None;
    }
    r := Some(Arranged(ins[..], outs.value));
  }

  method RandomizeOutputs(outputs: seq<Output>, random: seq<nat>) returns (r: Option<seq<Output>>)
    ensures r == FeeLast(Shuffled(outputs, random))
  {
    hide Shuffled;
    var outs := new Output[|outputs|](i requires 0 <= i < |outputs| => outputs[i]);
    assert outs[..] == outputs;
    ShuffleInPlace(outs, random);
    ghost var shuffled := outs[..];
    var fee := FeePosition(outs[..]);
    if fee == outs.Length {
      return None;
    }
    var last := outs.Length - 1;
    outs[fee], outs[last] := outs[last], outs[fee];
    assert outs[..] == Swap(shuffled, fee, last);
    r := Some(outs[..]);
  }

  /** The outputs as `construct_pset` lists them: blinded ones, then the network fee. */
  ghost predicate FeeAtEnd(front: seq<Output>, fee: Output) {
    !fee.Blinded() && forall i :: 0 <= i < |front| ==> front[i].Blinded()
  }

  /** Whatever the random numbers: every input still comes with its own secret, the outputs are the
      same, the network fee is the last of them and the only one that is not blinded. */
  lemma ArrangedKeepsEverything(inputs: seq<Input>, secrets: seq<Secret>, front: seq<Output>, fee: Output,
                                inputRandom: seq<nat>, outputRandom: seq<nat>)
    requires |inputs| == |secrets| && FeeAtEnd(front, fee)
    ensures var r := Arrange(inputs, secrets, front + [fee], inputRandom, outputRandom);
            && r.Some?
            && multiset(r.value.inputs) == multiset(Zip(inputs, secrets))
            && |r.value.outputs| == |front| + 1
            && r.value.outputs[|front|] == fee
            && multiset(r.value.outputs[..|front|]) == multiset(front)
  {
    ShuffledPermutes(Zip(inputs, secrets), inputRandom);
    ShuffledPermutes(front + [fee], outputRandom);
    var shuffled := Shuffled(front + [fee], outputRandom);
    hide Shuffled;
    FeeMoves(shuffled, front, fee);
  }

  lemma FeeMoves(shuffled: seq<Output>, front: seq<Output>, fee: Output)
    requires multiset(shuffled) == multiset(front + [fee]) && FeeAtEnd(front, fee)
    ensures |shuffled| == |front| + 1 && FeeLast(shuffled).Some?
    ensures var r := FeeLast(shuffled).value;
            |r| == |front| + 1 && r[|front|] == fee && multiset(r[..|front|]) == multiset(front)
  {
    assert |multiset(shuffled)| == |shuffled| && |multiset(front + [fee])| == |front| + 1;
    assert fee in multiset(shuffled);
    var k := IndexOf(shuffled, fee);
    var i := FeePosition(shuffled);
    assert i <= k;
    OnlyFee(shuffled, front, fee, i);
    var r := FeeLast(shuffled).value;
    assert r[|front|] == fee;
    LastSplit(r);
    SwapPermutes(shuffled, i, |front|);
    assert multiset(front + [fee]) == multiset(front) + multiset{fee};
    CancelOne(multiset(r[..|front|]), multiset(front), fee);
    CancelOne(multiset(front), multiset(r[..|front|]), fee);
  }

  lemma OnlyFee(shuffled: seq<Output>, front: seq<Output>, fee: Output, i: nat)
    requires multiset(shuffled) == multiset(front + [fee]) && FeeAtEnd(front, fee)
    requires i < |shuffled| && !shuffled[i].Blinded()
    ensures shuffled[i] == fee
  {
    assert shuffled[i] in multiset(shuffled);
    var j := IndexOf(front + [fee], shuffled[i]);
  }

  lemma SwapPermutes(s: seq<Output>, i: nat, j: nat)
    requires i < |s| && j < |s|
    ensures multiset(Swap(s, i, j)) == multiset(s)
  {
  }

  lemma {:induction false} OutputSumPermutation(a: seq<Output>, b: seq<Output>, asset: AssetId)
    requires multiset(a) == multiset(b)
    ensures OutputSum(a, asset) == OutputSum(b, asset)
    decreases |a|
  {
    assert |multiset(a)| == |a| && |multiset(b)| == |b|;
    if a != [] {
      assert a[0] in multiset(a);
      var j := IndexOf(b, a[0]);
      SplitAt(b, j);
      HeadSplit(a);
      CancelOne(multiset(a[1..]), multiset(RemoveAt(b, j)), a[0]);
      CancelOne(multiset(RemoveAt(b, j)), multiset(a[1..]), a[0]);
      OutputSumPermutation(a[1..], RemoveAt(b, j), asset);
      OutputSumAppend(b[..j], b[j + 1..], asset);
      OutputSumAppend(b[..j], [b[j]] + b[j + 1..], asset);
      assert ([b[j]] + b[j + 1..])[1..] == b[j + 1..];
      assert b == b[..j] + ([b[j]] + b[j + 1..]);
    }
  }

  lemma FeeEndsOutputs(client: seq<Utxo>, server: seq<Utxo>, asset: AssetId, bitcoin: AssetId, sendAmount: nat,
                       fixedFee: nat, price: real, reportedFee: nat)
    requires ConstructPset(client, server, asset, bitcoin, sendAmount, fixedFee, price, reportedFee).Some?
    ensures var outputs := ConstructPset(client, server, asset, bitcoin, sendAmount, fixedFee, price,
                                         reportedFee).value.outputs;
            && outputs != [] && FeeAtEnd(outputs[..|outputs| - 1], outputs[|outputs| - 1])
            && outputs[|outputs| - 1] ==
               Output(NetworkFee, bitcoin, ExpectedNetworkFee(|client| + |server|, 0, 4))
  {
    hide ExpectedNetworkFee, AssetFee, Total;
  }

  lemma CreatedFeeLast(req: Request, offer: Offer)
    requires CreatePayjoin(req, offer).Some?
    ensures var p := CreatePayjoin(req, offer).value;
            && p.outputs != [] && FeeAtEnd(p.outputs[..|p.outputs| - 1], p.outputs[|p.outputs| - 1])
            && p.outputs[|p.outputs| - 1] ==
               Output(NetworkFee, offer.utxos[0].asset, ExpectedNetworkFee(|p.client| + |p.server|, 0, 4))
  {
    var p := CreatePayjoin(req, offer).value;
    FeeEndsOutputs(p.client, p.server, req.asset, offer.utxos[0].asset, p.sendAmount, offer.fixedFee, offer.price,
                   p.reportedFee);
    hide ExpectedNetworkFee, AssetFee, Total, Prefix;
  }

  // ---- the transaction of a payjoin ----------------------------------------------------------------------

  function InputOf(u: Utxo): Input {
    Input(u.id, None, None)
  }

  function SecretOf(u: Utxo): Secret {
    Secret(u.asset, u.value)
  }

  function InputsOf(coins: seq<Utxo>): (r: seq<Input>)
    ensures |r| == |coins| && forall i :: 0 <= i < |r| ==> r[i] == InputOf(coins[i])
  {
    seq(|coins|, i requires 0 <= i < |coins| => InputOf(coins[i]))
  }

  function SecretsOf(coins: seq<Utxo>): (r: seq<Secret>)
    ensures |r| == |coins| && forall i :: 0 <= i < |r| ==> r[i] == SecretOf(coins[i])
  {
    seq(|coins|, i requires 0 <= i < |coins| => SecretOf(coins[i]))
  }

  /** The input loop of `construct_pset`. */
  method AddInputs(coins: seq<Utxo>) returns (inputs: seq<Input>, secrets: seq<Secret>)
    ensures inputs == InputsOf(coins) && secrets == SecretsOf(coins)
  {
    inputs, secrets := [], [];
    for k := 0 to |coins|
      invariant |inputs| == |secrets| == k
      invariant forall i :: 0 <= i < k ==> inputs[i] == InputOf(coins[i]) && secrets[i] == SecretOf(coins[i])
    {
      inputs := inputs + [Input(coins[k].id, None, None)];
      secrets := secrets + [Secret(coins[k].asset, coins[k].value)];
    }
  }

  /** What the arranged inputs are worth in an asset. */
  function SecretSum(inputs: seq<(Input, Secret)>, asset: AssetId): nat {
    if inputs == [] then 0
    else (if inputs[0].1.asset == asset then inputs[0].1.value else 0) + SecretSum(inputs[1..], asset)
  }

  lemma {:induction false} SecretSumAppend(a: seq<(Input, Secret)>, b: seq<(Input, Secret)>, asset: AssetId)
    ensures SecretSum(a + b, asset) == SecretSum(a, asset) + SecretSum(b, asset)
  {
    if a == [] {
      assert a + b == b;
    } else {
      SecretSumAppend(a[1..], b, asset);
      assert (a + b)[1..] == a[1..] + b;
    }
  }

  lemma {:induction false} SecretSumPermutation(a: seq<(Input, Secret)>, b: seq<(Input, Secret)>, asset: AssetId)
    requires multiset(a) == multiset(b)
    ensures SecretSum(a, asset) == SecretSum(b, asset)
    decreases |a|
  {
    assert |multiset(a)| == |a| && |multiset(b)| == |b|;
    if a != [] {
      assert a[0] in multiset(a);
      var j := IndexOf(b, a[0]);
      SplitAt(b, j);
      HeadSplit(a);
      CancelOne(multiset(a[1..]), multiset(RemoveAt(b, j)), a[0]);
      CancelOne(multiset(RemoveAt(b, j)), multiset(a[1..]), a[0]);
      SecretSumPermutation(a[1..], RemoveAt(b, j), asset);
      SecretSumAppend(b[..j], b[j + 1..], asset);
      SecretSumAppend(b[..j], [b[j]] + b[j + 1..], asset);
      assert ([b[j]] + b[j + 1..])[1..] == b[j + 1..];
      assert b == b[..j] + ([b[j]] + b[j + 1..]);
    }
  }

  function Pairs(coins: seq<Utxo>): seq<(Input, Secret)> {
    Zip(InputsOf(coins), SecretsOf(coins))
  }

  lemma {:induction false} SecretSumOf(coins: seq<Utxo>, asset: AssetId)
    ensures SecretSum(Pairs(coins), asset) == InputSum(coins, asset)
  {
    if coins != [] {
      SecretSumOf(coins[1..], asset);
      assert Pairs(coins)[1..] == Pairs(coins[1..]);
    }
  }

  lemma {:induction false} InputSumAppend(a: seq<Utxo>, b: seq<Utxo>, asset: AssetId)
    ensures InputSum(a + b, asset) == InputSum(a, asset) + InputSum(b, asset)
  {
    if a == [] {
      assert a + b == b;
    } else {
      InputSumAppend(a[1..], b, asset);
      assert (a + b)[1..] == a[1..] + b;
    }
  }

  /** Inputs and outputs of a transaction are worth the same in every asset. */
  ghost predicate Closes(tx: Arranged) {
    forall a :: SecretSum(tx.inputs, a) == OutputSum(tx.outputs, a)
  }

  lemma ArrangedBalance(p: Payjoin, tx: Arranged)
    requires multiset(tx.outputs) == multiset(p.outputs)
    requires multiset(tx.inputs) == multiset(Pairs(p.client + p.server))
    ensures Closes(tx) <==> Balanced(p)
  {
    forall a
      ensures OutputSum(tx.outputs, a) == OutputSum(p.outputs, a)
      ensures SecretSum(tx.inputs, a) == InputSum(p.client, a) + InputSum(p.server, a)
    {
      OutputSumPermutation(tx.outputs, p.outputs, a);
      SecretSumPermutation(tx.inputs, Pairs(p.client + p.server), a);
      SecretSumOf(p.client + p.server, a);
      InputSumAppend(p.client, p.server, a);
    }
    hide OutputSum, InputSum, SecretSum;
  }

  /** The arrangement of a payjoin whose outputs end with the network fee. */
  lemma ArrangedTx(p: Payjoin, fee: Output, inputRandom: seq<nat>, outputRandom: seq<nat>) returns (tx: Arranged)
    requires p.outputs != [] && fee == p.outputs[|p.outputs| - 1] && FeeAtEnd(p.outputs[..|p.outputs| - 1], fee)
    ensures var coins := p.client + p.server;
            Arrange(InputsOf(coins), SecretsOf(coins), p.outputs, inputRandom, outputRandom) == Some(tx) &&
            multiset(tx.inputs) == multiset(Pairs(coins)) && |tx.inputs| == |coins|
    ensures multiset(tx.outputs) == multiset(p.outputs)
    ensures tx.outputs != [] && tx.outputs[|tx.outputs| - 1] == fee
  {
    hide *;
    var coins, front := p.client + p.server, p.outputs[..|p.outputs| - 1];
    assert p.outputs == front + [fee];
    ArrangedKeepsEverything(InputsOf(coins), SecretsOf(coins), front, fee, inputRandom, outputRandom);
    tx := Arrange(InputsOf(coins), SecretsOf(coins), p.outputs, inputRandom, outputRandom).value;
    LastSplit(tx.outputs);
    LastSplit(p.outputs);
    PairsAre(coins);
    SameSize(tx.inputs, Pairs(coins));
  }

  lemma PairsAre(coins: seq<Utxo>)
    ensures Pairs(coins) == Zip(InputsOf(coins), SecretsOf(coins)) && |Pairs(coins)| == |coins|
  {
  }

  /** The transaction of a payjoin as it is sent: its inputs are the selected coins, each with its own
      secret; its last output is the network fee for just that many inputs; and inputs and outputs are
      worth the same in every asset exactly when the server's selected coins are of one asset. */
  lemma ArrangedPayjoin(req: Request, offer: Offer, p: Payjoin, inputRandom: seq<nat>, outputRandom: seq<nat>)
    returns (tx: Arranged)
    requires CreatePayjoin(req, offer) == Some(p)
    ensures var coins := ClientCoins(req, offer) + ServerCoins(req, offer);
            Arrange(InputsOf(coins), SecretsOf(coins), p.outputs, inputRandom, outputRandom) == Some(tx) &&
            multiset(tx.inputs) == multiset(Pairs(coins))
    ensures multiset(tx.outputs) == multiset(p.outputs)
    ensures tx.outputs != [] && offer.utxos != [] &&
            tx.outputs[|tx.outputs| - 1] ==
            Output(NetworkFee, offer.utxos[0].asset, ExpectedNetworkFee(|tx.inputs|, 0, 4))
    ensures Closes(tx) <==> OneAsset(ServerCoins(req, offer), offer.utxos[0].asset)
  {
    hide *;
    CreatedFeeLast(req, offer);
    CreatedCoins(req, offer);
    PayjoinBalances(req, offer);
    tx := ArrangedTx(p, p.outputs[|p.outputs| - 1], inputRandom, outputRandom);
    ArrangedBalance(p, tx);
  }

  lemma SameSize<T>(a: seq<T>, b: seq<T>)
    requires multiset(a) == multiset(b)
    ensures |a| == |b|
  {
    assert |multiset(a)| == |a| && |multiset(b)| == |b|;
  }

  lemma CreatedCoins(req: Request, offer: Offer)
    requires CreatePayjoin(req, offer).Some?
    ensures var p := CreatePayjoin(req, offer).value;
            p.client == ClientCoins(req, offer) && p.server == ServerCoins(req, offer) && offer.utxos != []
  {
  }

  // ---- signatures --------------------------------------------------------------------------------------

  function Signed(dst: Input, src: Input): Input {
    if src.finalWitness.Some? then dst.(finalScriptSig := src.finalScriptSig, finalWitness := src.finalWitness)
    else dst
  }

  /** `None` for transactions of different shape. */
  method CopySignatures(dst: seq<Input>, dstOutputs: nat, src: seq<Input>, srcOutputs: nat)
      returns (r: Option<seq<Input>>)
    ensures r.Some? <==> |dst| == |src| && dstOutputs == srcOutputs
    ensures r.Some? ==> r.value == Merged(dst, src)
  {
    if |dst| != |src| || dstOutputs != srcOutputs {
      return None;
    }
    var inputs := new Input[|dst|](i requires 0 <= i < |dst| => dst[i]);
    for k := 0 to |dst|
      invariant forall i :: 0 <= i < k ==> inputs[i] == Signed(dst[i], src[i])
      invariant forall i :: k <= i < |dst| ==> inputs[i] == dst[i]
    {
      if src[k].finalWitness.Some? {
        inputs[k] := inputs[k].(finalScriptSig := src[k].finalScriptSig, finalWitness := src[k].finalWitness);
      }
    }
    assert inputs[..] == Merged(dst, src);
    r := Some(inputs[..]);
  }

  function Merged(dst: seq<Input>, src: seq<Input>): (r: seq<Input>)
    requires |dst| == |src|
    ensures |r| == |dst| && forall i :: 0 <= i < |r| ==> r[i] == Signed(dst[i], src[i])
  {
    seq(|dst|, i requires 0 <= i < |dst| => Signed(dst[i], src[i]))
  }

  /** The inputs stay what they are; an input is signed in the end exactly when one side signed it,
      and the server's signature is the one that counts. */
  lemma MergedSignatures(client: seq<Input>, server: seq<Input>, i: nat)
    requires |client| == |server| && i < |client|
    ensures var r := Merged(client, server)[i];
            && r.prevout == client[i].prevout
            && (r.finalWitness.Some? <==> client[i].finalWitness.Some? || server[i].finalWitness.Some?)
            && (server[i].finalWitness.Some? ==> r.finalWitness == server[i].finalWitness)
            && (server[i].finalWitness.None? ==> r == client[i])
  {
  }

  /** When no input is signed by both, it does not matter who merges into whom. */
  lemma MergeCommutes(a: seq<Input>, b: seq<Input>)
    requires |a| == |b|
    requires forall i :: 0 <= i < |a| ==>
      && a[i].prevout == b[i].prevout
      && (a[i].finalWitness.None? || b[i].finalWitness.None?)
      && (a[i].finalWitness.None? ==> a[i].finalScriptSig.None?)
      && (b[i].finalWitness.None? ==> b[i].finalScriptSig.None?)
    ensures Merged(a, b) == Merged(b, a)
    ensures Merged(Merged(a, b), b) == Merged(a, b)
  {
    assert forall i :: 0 <= i < |a| ==> Signed(a[i], b[i]) == Signed(b[i], a[i]);
    assert forall i :: 0 <= i < |a| ==> Signed(Signed(a[i], b[i]), b[i]) == Signed(a[i], b[i]);
  }
}
