/** The dealer's own orders: the price and size it submits, and the check it makes again when asked
    to sign. Prices are exact; asset amounts are not rounded to their precision. */
module DealerQuote {
  import opened Sequences
  import opened Money

  const EXTRA_ASSET_UTXO: real := 0.03

  datatype PricePair = PricePair(bid: real, ask: real)

  datatype Params = Params(
    interestSubmit: real, interestSign: real,
    bitcoinAmountSubmit: int, bitcoinAmountMin: int, bitcoinAmountMax: int)

  /** Balances and limits in whole coins; an absent limit does not bind. */
  datatype AllBalances = AllBalances(
    walletAsset: real, walletBitcoin: real,
    bitcoinMaxSend: Option<real>, bitcoinMaxRecv: Option<real>,
    assetMaxSend: Option<real>, assetMaxRecv: Option<real>)

  datatype Details = Details(sendBitcoins: bool, bitcoinAmount: int, serverFee: int, assetAmount: real)

  function Limited(x: real, limit: Option<real>): real {
    if limit.Some? && limit.value < x then limit.value else x
  }

  function Scaled(limit: Option<real>, downscale: real, price: real): Option<real>
    requires price > 0.0
  {
    if limit.None? then None else Some(Over(Times(limit.value, downscale), price))
  }

  function GetBitcoinAmount(all: AllBalances, price: real, sendBitcoins: bool, maxAmount: bool): int
    requires price > 0.0
  {
    var downscale := if maxAmount then 1.0 else 1.0 / (1.0 + EXTRA_ASSET_UTXO);
    FromBitcoin(
      if sendBitcoins then
        Limited(Limited(all.walletBitcoin / (1.0 + SERVER_FEE_RATE), Scaled(all.assetMaxRecv, downscale, price)),
                all.bitcoinMaxSend)
      else
        Limited(Limited(Over(Times(all.walletAsset, downscale), price), all.bitcoinMaxRecv),
                Scaled(all.assetMaxSend, downscale, price)))
  }

  /** `apply_interest` of one side of the book. */
  function GetPrice(pair: PricePair, sendBitcoins: bool, interest: real): real
    requires interest > 0.0
  {
    if sendBitcoins then Times(pair.ask, interest) else Over(pair.bid, interest)
  }

  function ExpectedServerFee(submit: int): int {
    var share, least := Times(SERVER_FEE_RATE, ToBitcoin(submit)), ToBitcoin(MIN_SERVER_FEE);
    FromBitcoin(if share >= least then share else least)
  }

  /** The fee as a share of the submitted amount. */
  function FeeRatio(submit: int): real
    requires submit > 0
  {
    Over(ToBitcoin(ExpectedServerFee(submit)), ToBitcoin(submit))
  }

  function InterestTaken(params: Params): real
    requires params.bitcoinAmountSubmit > 0
  {
    Times(params.interestSubmit, 1.0 + FeeRatio(params.bitcoinAmountSubmit))
  }

  datatype Own = Own(bitcoinAmount: int, price: real)

  datatype Reaction = DoNothing | SubmitOrder(bitcoinAmount: int, price: real) | CancelOwn | EditOwn(price: real)

  function Min(a: int, b: int): int {
    if a <= b then a else b
  }

  const RECREATE_FRACTION: real := 0.05

  ghost predicate ValidParams(params: Params) {
    && 10_000 <= params.bitcoinAmountMin <= params.bitcoinAmountSubmit <= params.bitcoinAmountMax
    && 1.0 < params.interestSign < params.interestSubmit < 1.1
  }

  /** The submitted price on one side of the book. */
  function SubmitPrice(params: Params, pair: PricePair, sendBitcoins: bool): real
    requires params.bitcoinAmountSubmit > 0 && InterestTaken(params) > 0.0
  {
    GetPrice(pair, sendBitcoins, InterestTaken(params))
  }

  /** The decision of `update_price`; without an index price the price is `None`. */
  function UpdatePrice(params: Params, own: Option<Own>, price: Option<real>, all: AllBalances,
                       sendBitcoins: bool): Reaction
    requires price.Some? ==> price.value > 0.0
  {
    if price.None? then (if own.Some? then CancelOwn else DoNothing)
    else
      var normal := Min(GetBitcoinAmount(all, price.value, sendBitcoins, false), params.bitcoinAmountSubmit);
      var most := GetBitcoinAmount(all, price.value, sendBitcoins, true);
      if own.None? then
        if normal >= params.bitcoinAmountMin then SubmitOrder(normal, price.value) else DoNothing
      else if most == 0 || own.value.bitcoinAmount > most
              || (normal - own.value.bitcoinAmount) as real >= RECREATE_FRACTION * own.value.bitcoinAmount as real then
        CancelOwn
      else if own.value.price != price.value then EditOwn(price.value)
      else DoNothing
  }

  /** The price a trade really has, fee included. */
  function ActualPrice(d: Details): real
    requires ToBitcoin(if d.sendBitcoins then d.bitcoinAmount + d.serverFee else d.bitcoinAmount - d.serverFee) != 0.0
  {
    Over(d.assetAmount,
         ToBitcoin(if d.sendBitcoins then d.bitcoinAmount + d.serverFee else d.bitcoinAmount - d.serverFee))
  }

  /** The order the server makes of a submission. */
  function OwnDetails(amount: int, price: real, sendBitcoins: bool): Details {
    Details(sendBitcoins, amount, GetServerFee(amount), Times(price, ToBitcoin(amount)))
  }

  predicate Tradable(d: Details) {
    0 < d.serverFee < d.bitcoinAmount && d.assetAmount > 0.0
  }

  predicate PriceAcceptable(d: Details, pair: PricePair, interest: real)
    requires Tradable(d) && interest > 0.0
  {
    if d.sendBitcoins then ActualPrice(d) >= GetPrice(pair, true, interest)
    else ActualPrice(d) <= GetPrice(pair, false, interest)
  }

  lemma ActualPricePositive(d: Details)
    requires Tradable(d)
    ensures ActualPrice(d) > 0.0
  {
    var b := ToBitcoin(if d.sendBitcoins then d.bitcoinAmount + d.serverFee else d.bitcoinAmount - d.serverFee);
    Quotient(d.assetAmount, b);
    PositiveFactor(ActualPrice(d), b);
  }

  lemma PositiveFactor(x: real, b: real)
    requires b > 0.0 && Times(x, b) > 0.0
    ensures x > 0.0
  {
  }

  /** `take_order` */
  predicate TakeOrder(params: Params, d: Details, all: AllBalances, pair: PricePair, interest: real)
    requires Tradable(d) && interest > 0.0
  {
    ActualPricePositive(d);
    && params.bitcoinAmountMin <= d.bitcoinAmount <= params.bitcoinAmountMax
    && PriceAcceptable(d, pair, interest)
    && d.bitcoinAmount <= GetBitcoinAmount(all, ActualPrice(d), d.sendBitcoins, true)
  }

  // ---- the fee share ------------------------------------------------------------------------------------

  lemma ExpectedFeeIsServerFee(submit: int)
    requires submit >= 0
    ensures ExpectedServerFee(submit) == GetServerFee(submit)
  {
    BitcoinRoundTrip(MIN_SERVER_FEE);
    var share, least := Times(SERVER_FEE_RATE, ToBitcoin(submit)), ToBitcoin(MIN_SERVER_FEE);
    assert share * COIN as real == ToBitcoin(submit) * SERVER_FEE_RATE * COIN as real;
    if share >= least {
      RoundMonotone(least * COIN as real, share * COIN as real);
    } else {
      RoundMonotone(share * COIN as real, least * COIN as real);
    }
  }

  /** For every size the dealer may submit the fee is less than the amount: at most a twentieth. */
  lemma FeeIsSmall(submit: int)
    requires submit >= 10_000
    ensures 0 < GetServerFee(submit) <= submit / 20 < submit
  {
    ServerFeeInIntegers(submit);
  }

  // ---- actual prices of own orders ------------------------------------------------------------------------

  lemma SendSideArithmetic(ask: real, interest: real, b: real, f: real, r: real, P: real)
    requires b > 0.0 && f > 0.0 && Times(r, b) == f && P == Times(ask, Times(interest, 1.0 + r))
    ensures Times(P, b) == Times(Times(ask, interest), b + f)
  {
    assert (1.0 + r) * b == b + f;
    assert P * b == ask * interest * ((1.0 + r) * b);
  }

  lemma SameQuotient(m: real, x: real, d: real)
    requires d > 0.0 && Times(x, d) == m
    ensures Over(m, d) == x
  {
    Quotient(m, d);
    SameFactor(Over(m, d), x, d);
  }

  lemma SameFactor(x: real, y: real, d: real)
    requires d > 0.0 && Times(x, d) == Times(y, d)
    ensures x == y
  {
    DivideOut(x, y, 0.0, d);
    DivideOut(y, x, 0.0, d);
  }

  /** Selling bitcoin, the fee cancels out: the actual price is the index price with interest. */
  lemma SendSidePrice(params: Params, pair: PricePair)
    requires ValidParams(params) && pair.ask > 0.0
    ensures var B := params.bitcoinAmountSubmit;
            InterestTaken(params) > 0.0 && GetServerFee(B) > 0 &&
            ActualPrice(OwnDetails(B, SubmitPrice(params, pair, true), true)) ==
              Times(pair.ask, params.interestSubmit)
  {
    var B := params.bitcoinAmountSubmit;
    FeeIsSmall(B);
    ExpectedFeeIsServerFee(B);
    var b, f, r := ToBitcoin(B), ToBitcoin(GetServerFee(B)), FeeRatio(B);
    Quotient(f, b);
    RatioBounds(r, b, f);
    TakenPositive(params.interestSubmit, r);
    var P := SubmitPrice(params, pair, true);
    SendSideArithmetic(pair.ask, params.interestSubmit, b, f, r, P);
    SameQuotient(Times(P, b), Times(pair.ask, params.interestSubmit), b + f);
    assert ToBitcoin(B + GetServerFee(B)) == b + f;
  }

  lemma RatioBounds(r: real, b: real, f: real)
    requires b > 0.0 && Times(r, b) == f && 0.0 < f < b
    ensures 0.0 < r < 1.0
  {
    if r <= 0.0 {
      MulAtMost(r, 0.0, b);
      assert false;
    }
    if r >= 1.0 {
      MulAtMost(1.0, r, b);
      assert false;
    }
  }

  lemma TakenPositive(interest: real, r: real)
    requires interest > 0.0 && r > 0.0
    ensures Times(interest, 1.0 + r) > 0.0
  {
  }

  /** The interest that is left after the fee was paid on both sides. */
  function NetInterest(params: Params): real
    requires params.bitcoinAmountSubmit > 0
  {
    var x := FeeRatio(params.bitcoinAmountSubmit);
    Times(params.interestSubmit, 1.0 - Times(x, x))
  }

  lemma RecvSideArithmetic(bid: real, interest: real, b: real, f: real, r: real, P: real, A: real)
    requires b > 0.0 && Times(r, b) == f
    requires Times(P, Times(interest, 1.0 + r)) == bid
    requires Times(A, b - f) == Times(P, b)
    ensures Times(A, Times(interest, 1.0 - Times(r, r))) == bid
    ensures Times(A, 1.0 - r) == P
  {
    assert b - f == (1.0 - r) * b;
    assert Times(Times(A, 1.0 - r), b) == Times(P, b) by {
      assert A * ((1.0 - r) * b) == A * (1.0 - r) * b;
    }
    SameFactor(Times(A, 1.0 - r), P, b);
    assert (1.0 - r) * (1.0 + r) == 1.0 - r * r;
    assert A * (interest * ((1.0 - r) * (1.0 + r))) == A * (1.0 - r) * (interest * (1.0 + r));
  }

  /** Buying bitcoin, the fee is paid twice: once in the price and once in the amount received. */
  lemma RecvSidePrice(params: Params, pair: PricePair)
    requires ValidParams(params) && pair.bid > 0.0
    ensures var B := params.bitcoinAmountSubmit;
            && InterestTaken(params) > 0.0 && 0 < GetServerFee(B) < B && NetInterest(params) > 0.0
            && SubmitPrice(params, pair, false) > 0.0
            && var d := OwnDetails(B, SubmitPrice(params, pair, false), false);
               && ActualPrice(d) == Over(pair.bid, NetInterest(params))
               && Times(ActualPrice(d), 1.0 - FeeRatio(B)) == SubmitPrice(params, pair, false)
  {
    var B := params.bitcoinAmountSubmit;
    FeeIsSmall(B);
    ExpectedFeeIsServerFee(B);
    var b, f, r := ToBitcoin(B), ToBitcoin(GetServerFee(B)), FeeRatio(B);
    Quotient(f, b);
    RatioBounds(r, b, f);
    TakenPositive(params.interestSubmit, r);
    NetPositive(params.interestSubmit, r);
    var P := SubmitPrice(params, pair, false);
    Quotient(pair.bid, InterestTaken(params));
    PositiveFactor(P, InterestTaken(params));
    var A := Over(Times(P, b), b - f);
    Quotient(Times(P, b), b - f);
    RecvSideArithmetic(pair.bid, params.interestSubmit, b, f, r, P, A);
    SameQuotient(pair.bid, A, NetInterest(params));
    assert ToBitcoin(B - GetServerFee(B)) == b - f;
  }

  lemma NetPositive(interest: real, r: real)
    requires interest > 0.0 && 0.0 < r < 1.0
    ensures Times(interest, 1.0 - Times(r, r)) > 0.0
  {
    assert r * r < 1.0;
  }

  lemma SmallerDivisor(m: real, u: real, v: real)
    requires m > 0.0 && u > 0.0 && v > 0.0
    ensures Over(m, u) <= Over(m, v) <==> v <= u
  {
    var x, y := Over(m, u), Over(m, v);
    Quotient(m, u);
    Quotient(m, v);
    PositiveFactor(x, u);
    PositiveFactor(y, v);
    if v <= u {
      SwapFactors(x, u);
      SwapFactors(x, v);
      MulAtMost(v, u, x);
      DivideOut(x, y, 0.0, v);
    } else {
      SwapFactors(y, u);
      SwapFactors(y, v);
      MulBelow(u, v, y);
      assert Times(y, u) < m;
      StrictDivide(y, x, u);
    }
  }

  lemma SwapFactors(x: real, y: real)
    ensures Times(x, y) == Times(y, x)
  {
  }

  lemma StrictDivide(x: real, y: real, u: real)
    requires u > 0.0 && Times(x, u) < Times(y, u)
    ensures x < y
  {
  }

  // ---- signing what was submitted -------------------------------------------------------------------------

  /** An own order passes the price check when it is sold; when it is bought, exactly if the interest
      net of two fees still covers the interest asked for at signing. */
  lemma OwnPriceAcceptable(params: Params, pair: PricePair, sendBitcoins: bool)
    requires ValidParams(params) && pair.ask > 0.0 && pair.bid > 0.0
    ensures var B := params.bitcoinAmountSubmit;
            && InterestTaken(params) > 0.0 && 0 < GetServerFee(B) < B
            && SubmitPrice(params, pair, sendBitcoins) > 0.0
            && Tradable(OwnDetails(B, SubmitPrice(params, pair, sendBitcoins), sendBitcoins))
            && (PriceAcceptable(OwnDetails(B, SubmitPrice(params, pair, sendBitcoins), sendBitcoins), pair,
                                params.interestSign)
                <==> sendBitcoins || NetInterest(params) >= params.interestSign)
  {
    var B := params.bitcoinAmountSubmit;
    SendSidePrice(params, pair);
    RecvSidePrice(params, pair);
    TakenPositive2(pair.ask, InterestTaken(params));
    var P := SubmitPrice(params, pair, sendBitcoins);
    MulBelow(0.0, P, ToBitcoin(B));
    if sendBitcoins {
      SwapFactors(pair.ask, params.interestSubmit);
      SwapFactors(pair.ask, params.interestSign);
      MulAtMost(params.interestSign, params.interestSubmit, pair.ask);
    } else {
      SmallerDivisor(pair.bid, NetInterest(params), params.interestSign);
    }
    hide GetServerFee, Times, Over, FeeRatio, ToBitcoin;
  }

  lemma TakenPositive2(x: real, y: real)
    requires x > 0.0 && y > 0.0
    ensures Times(x, y) > 0.0
  {
  }

  ghost predicate NonNegativeLimits(all: AllBalances) {
    && all.walletAsset >= 0.0
    && (all.assetMaxSend.Some? ==> all.assetMaxSend.value >= 0.0)
    && (all.assetMaxRecv.Some? ==> all.assetMaxRecv.value >= 0.0)
  }

  /** The reserve kept for price edits makes up for the fee. */
  ghost predicate ReserveCoversFee(params: Params)
    requires params.bitcoinAmountSubmit > 0
  {
    Times(1.0 + EXTRA_ASSET_UTXO, 1.0 - FeeRatio(params.bitcoinAmountSubmit)) >= 1.0
  }

  /** Holding `w` of the asset buys at least as much bitcoin at the price `A` without the reserve as
      at the price `P` with it. */
  lemma ReserveSuffices(w: real, P: real, A: real, factor: real)
    requires w >= 0.0 && P > 0.0 && A > 0.0 && Times(A, factor) == P
    requires Times(1.0 + EXTRA_ASSET_UTXO, factor) >= 1.0
    ensures Over(Times(w, 1.0 / (1.0 + EXTRA_ASSET_UTXO)), P) <= Over(Times(w, 1.0), A)
  {
    var down := 1.0 / (1.0 + EXTRA_ASSET_UTXO);
    var lhs, rhs := Over(Times(w, down), P), Over(Times(w, 1.0), A);
    Quotient(Times(w, down), P);
    Quotient(Times(w, 1.0), A);
    assert Times(rhs, A) == w;
    NonNegativeFactor(rhs, A);
    assert factor >= down;
    assert Times(rhs, P) == Times(w, factor) by {
      assert rhs * (A * factor) == rhs * A * factor;
    }
    NonNegativeScale(w, down, factor);
    DivideOut(lhs, rhs, 0.0, P);
  }

  lemma NonNegativeFactor(x: real, a: real)
    requires a > 0.0 && Times(x, a) >= 0.0
    ensures x >= 0.0
  {
  }

  lemma NonNegativeScale(w: real, a: real, b: real)
    requires w >= 0.0 && a <= b
    ensures Times(w, a) <= Times(w, b)
  {
  }

  lemma FromBitcoinMonotone(x: real, y: real)
    requires x <= y
    ensures FromBitcoin(x) <= FromBitcoin(y)
  {
    RoundMonotone(x * COIN as real, y * COIN as real);
  }

  /** At the actual price the size check allows at least as much as at submission. */
  lemma SizeStillFits(all: AllBalances, P: real, A: real, factor: real, sendBitcoins: bool)
    requires NonNegativeLimits(all) && P > 0.0 && A > 0.0 && Times(A, factor) == P
    requires Times(1.0 + EXTRA_ASSET_UTXO, factor) >= 1.0
    ensures GetBitcoinAmount(all, P, sendBitcoins, false) <= GetBitcoinAmount(all, A, sendBitcoins, true)
  {
    ReserveSuffices(all.walletAsset, P, A, factor);
    if all.assetMaxSend.Some? {
      ReserveSuffices(all.assetMaxSend.value, P, A, factor);
    }
    if all.assetMaxRecv.Some? {
      ReserveSuffices(all.assetMaxRecv.value, P, A, factor);
    }
    var down := 1.0 / (1.0 + EXTRA_ASSET_UTXO);
    hide Times, Over, FromBitcoin;
    if sendBitcoins {
      FromBitcoinMonotone(
        Limited(Limited(all.walletBitcoin / (1.0 + SERVER_FEE_RATE), Scaled(all.assetMaxRecv, down, P)), all.bitcoinMaxSend),
        Limited(Limited(all.walletBitcoin / (1.0 + SERVER_FEE_RATE), Scaled(all.assetMaxRecv, 1.0, A)), all.bitcoinMaxSend));
    } else {
      FromBitcoinMonotone(
        Limited(Limited(Over(Times(all.walletAsset, down), P), all.bitcoinMaxRecv), Scaled(all.assetMaxSend, down, P)),
        Limited(Limited(Over(Times(all.walletAsset, 1.0), A), all.bitcoinMaxRecv), Scaled(all.assetMaxSend, 1.0, A)));
    }
  }

  /** Quotable sides of the book: the submitted price exists and gives a tradable order. */
  ghost predicate Quotable(params: Params, pair: PricePair, sendBitcoins: bool) {
    && params.bitcoinAmountSubmit > 0 && InterestTaken(params) > 0.0
    && SubmitPrice(params, pair, sendBitcoins) > 0.0
    && Tradable(OwnDetails(params.bitcoinAmountSubmit, SubmitPrice(params, pair, sendBitcoins), sendBitcoins))
  }

  /** With these balances a new order of the full size is submitted. */
  ghost predicate SubmitsInFull(params: Params, pair: PricePair, all: AllBalances, sendBitcoins: bool)
    requires Quotable(params, pair, sendBitcoins)
  {
    UpdatePrice(params, None, Some(SubmitPrice(params, pair, sendBitcoins)), all, sendBitcoins) ==
    SubmitOrder(params.bitcoinAmountSubmit, SubmitPrice(params, pair, sendBitcoins))
  }

  /** With these balances the order of the full size passes the check at signing. */
  ghost predicate SignsInFull(params: Params, pair: PricePair, all: AllBalances, sendBitcoins: bool)
    requires Quotable(params, pair, sendBitcoins) && params.interestSign > 0.0
  {
    TakeOrder(params, OwnDetails(params.bitcoinAmountSubmit, SubmitPrice(params, pair, sendBitcoins), sendBitcoins),
              all, pair, params.interestSign)
  }

  /** An own order submitted at the full size is accepted at signing, under the same index prices and
      balances: always when bitcoin is sold, and when bitcoin is bought if the net interest and the
      reserve both suffice. */
  lemma OwnOrderIsAccepted(params: Params, pair: PricePair, all: AllBalances, sendBitcoins: bool)
    requires ValidParams(params) && pair.ask > 0.0 && pair.bid > 0.0 && NonNegativeLimits(all)
    requires sendBitcoins || (NetInterest(params) >= params.interestSign && ReserveCoversFee(params))
    requires Quotable(params, pair, sendBitcoins) && SubmitsInFull(params, pair, all, sendBitcoins)
    ensures SignsInFull(params, pair, all, sendBitcoins)
  {
    var B, P := params.bitcoinAmountSubmit, SubmitPrice(params, pair, sendBitcoins);
    OwnPriceAcceptable(params, pair, sendBitcoins);
    var d := OwnDetails(B, P, sendBitcoins);
    ActualPricePositive(d);
    var A := ActualPrice(d);
    var r := FeeRatio(B);
    if sendBitcoins {
      SendSidePrice(params, pair);
      SendFactor(params, pair, A, P);
      SizeStillFits(all, P, A, 1.0 + r, true);
    } else {
      RecvSidePrice(params, pair);
      SizeStillFits(all, P, A, 1.0 - r, false);
    }
    hide GetBitcoinAmount, GetServerFee, Times, Over, FeeRatio, ActualPrice;
  }

  lemma SendFactor(params: Params, pair: PricePair, A: real, P: real)
    requires ValidParams(params) && InterestTaken(params) > 0.0
    requires A == Times(pair.ask, params.interestSubmit) && P == SubmitPrice(params, pair, true)
    ensures var r := FeeRatio(params.bitcoinAmountSubmit);
            Times(A, 1.0 + r) == P && Times(1.0 + EXTRA_ASSET_UTXO, 1.0 + r) >= 1.0
  {
    var B := params.bitcoinAmountSubmit;
    var r := FeeRatio(B);
    FeeIsSmall(B);
    ExpectedFeeIsServerFee(B);
    Quotient(ToBitcoin(GetServerFee(B)), ToBitcoin(B));
    RatioBounds(r, ToBitcoin(B), ToBitcoin(GetServerFee(B)));
    assert pair.ask * params.interestSubmit * (1.0 + r) == pair.ask * (params.interestSubmit * (1.0 + r));
    NonNegativeScale(1.0 + EXTRA_ASSET_UTXO, 1.0, 1.0 + r);
  }

  /** The reserve covers the fee exactly from 17167 satoshi on; smaller orders may be refused. */
  lemma ReserveThreshold(params: Params)
    requires params.bitcoinAmountSubmit >= 10_000
    ensures ReserveCoversFee(params) <==> params.bitcoinAmountSubmit >= 17_167
  {
    var B := params.bitcoinAmountSubmit;
    var r := FeeRatio(B);
    var b, f := ToBitcoin(B), ToBitcoin(GetServerFee(B));
    ExpectedFeeIsServerFee(B);
    ServerFeeInIntegers(B);
    Quotient(f, b);
    assert Times(r, B as real) == GetServerFee(B) as real by {
      assert r * b * COIN as real == f * COIN as real;
      assert b * COIN as real == B as real;
      assert r * (b * COIN as real) == r * b * COIN as real;
    }
    assert ReserveCoversFee(params) <==> r <= 0.03 / 1.03;
    RatioVersus(r, 0.03 / 1.03, B as real);
    ThresholdInIntegers(B, GetServerFee(B));
  }

  lemma RatioVersus(r: real, bound: real, b: real)
    requires b > 0.0
    ensures r <= bound <==> Times(r, b) <= Times(bound, b)
  {
    if r <= bound {
      MulAtMost(r, bound, b);
    } else {
      MulBelow(bound, r, b);
    }
  }

  lemma ThresholdInIntegers(B: int, fee: int)
    requires B >= 10_000 && fee == Max((B + 500) / 1000, MIN_SERVER_FEE)
    ensures fee as real <= Times(0.03 / 1.03, B as real) <==> B >= 17_167
  {
    assert fee as real <= Times(0.03 / 1.03, B as real) <==> 103 * fee <= 3 * B;
  }

  // ---- exactly when own orders are always accepted --------------------------------------------------------

  /** Half a satoshi below an amount, which still rounds up to it. */
  function JustEnough(sat: int): real {
    ToBitcoin(sat) - 0.5 / COIN as real
  }

  /** The smallest holding of the asset with which the full size is still submitted. */
  function TightBalances(submit: int, P: real): AllBalances {
    AllBalances(Times(Times(JustEnough(submit), P), 1.0 + EXTRA_ASSET_UTXO), 0.0, None, None, None, None)
  }

  lemma JustEnoughRounds(sat: int, x: real)
    requires sat > 0
    ensures FromBitcoin(JustEnough(sat)) == sat
    ensures 0.0 <= x < JustEnough(sat) ==> FromBitcoin(x) < sat
  {
    assert JustEnough(sat) * COIN as real == sat as real - 0.5;
  }

  lemma TightSubmits(params: Params, pair: PricePair)
    requires ValidParams(params) && Quotable(params, pair, false)
    ensures var tight := TightBalances(params.bitcoinAmountSubmit, SubmitPrice(params, pair, false));
            NonNegativeLimits(tight) && SubmitsInFull(params, pair, tight, false)
  {
    var B, P := params.bitcoinAmountSubmit, SubmitPrice(params, pair, false);
    var h, w := JustEnough(B), TightBalances(B, P).walletAsset;
    TakenPositive2(h, P);
    TakenPositive2(Times(h, P), 1.0 + EXTRA_ASSET_UTXO);
    assert Times(w, 1.0 / (1.0 + EXTRA_ASSET_UTXO)) == Times(h, P);
    SameQuotient(Times(h, P), h, P);
    JustEnoughRounds(B, 0.0);
    hide Times, Over, FromBitcoin, JustEnough, GetServerFee, FeeRatio;
  }

  /** If the reserve does not make up for the fee, the smallest holding no longer fits at signing. */
  lemma TightRefused(params: Params, pair: PricePair)
    requires ValidParams(params) && pair.bid > 0.0 && Quotable(params, pair, false)
    requires !ReserveCoversFee(params)
    ensures !SignsInFull(params, pair, TightBalances(params.bitcoinAmountSubmit, SubmitPrice(params, pair, false)), false)
  {
    var B, P := params.bitcoinAmountSubmit, SubmitPrice(params, pair, false);
    var h, w := JustEnough(B), TightBalances(B, P).walletAsset;
    RecvSidePrice(params, pair);
    var d := OwnDetails(B, P, false);
    ActualPricePositive(d);
    var A, r := ActualPrice(d), FeeRatio(B);
    var k := Times(1.0 + EXTRA_ASSET_UTXO, 1.0 - r);
    TightQuotient(h, P, A, 1.0 - r);
    PositiveFactorLeft(A, 1.0 - r);
    TakenPositive2(1.0 + EXTRA_ASSET_UTXO, 1.0 - r);
    TakenPositive2(k, h);
    MulBelow(k, 1.0, h);
    JustEnoughRounds(B, Times(k, h));
    assert GetBitcoinAmount(TightBalances(B, P), A, false, true) == FromBitcoin(Times(k, h));
    hide Times, Over, FromBitcoin, JustEnough, GetServerFee, FeeRatio, ActualPrice;
  }

  lemma PositiveFactorLeft(a: real, x: real)
    requires a > 0.0 && Times(a, x) > 0.0
    ensures x > 0.0
  {
  }

  lemma TightQuotient(h: real, P: real, A: real, factor: real)
    requires A > 0.0 && Times(A, factor) == P
    ensures var w := Times(Times(h, P), 1.0 + EXTRA_ASSET_UTXO);
            Over(Times(w, 1.0), A) == Times(Times(1.0 + EXTRA_ASSET_UTXO, factor), h)
  {
    var w := Times(Times(h, P), 1.0 + EXTRA_ASSET_UTXO);
    var x := Times(Times(1.0 + EXTRA_ASSET_UTXO, factor), h);
    assert (1.0 + EXTRA_ASSET_UTXO) * factor * h * A == h * (A * factor) * (1.0 + EXTRA_ASSET_UTXO);
    SameQuotient(Times(w, 1.0), x, A);
  }

  /** On unchanged prices and balances, every own order of the full size is accepted at signing,
      whatever the balances are, if and only if it sells bitcoin, or its net interest covers the
      interest asked for at signing and the submitted size is at least 17167 satoshi. */
  lemma AlwaysAcceptedExactlyWhen(params: Params, pair: PricePair, sendBitcoins: bool)
    requires ValidParams(params) && pair.ask > 0.0 && pair.bid > 0.0
    ensures Quotable(params, pair, sendBitcoins)
    ensures (forall all :: NonNegativeLimits(all) && SubmitsInFull(params, pair, all, sendBitcoins) ==>
               SignsInFull(params, pair, all, sendBitcoins))
            <==> sendBitcoins || (NetInterest(params) >= params.interestSign && params.bitcoinAmountSubmit >= 17_167)
  {
    OwnPriceAcceptable(params, pair, sendBitcoins);
    ReserveThreshold(params);
    if sendBitcoins || (NetInterest(params) >= params.interestSign && ReserveCoversFee(params)) {
      forall all | NonNegativeLimits(all) && SubmitsInFull(params, pair, all, sendBitcoins)
        ensures SignsInFull(params, pair, all, sendBitcoins)
      {
        OwnOrderIsAccepted(params, pair, all, sendBitcoins);
      }
    } else {
      TightSubmits(params, pair);
      if !ReserveCoversFee(params) {
        TightRefused(params, pair);
      }
    }
    hide GetBitcoinAmount, GetServerFee, Times, Over, FeeRatio, ActualPrice, TightBalances, SubmitsInFull,
         NonNegativeLimits, ReserveCoversFee;
  }

  // ---- sizes and prices in numbers --------------------------------------------------------------------------

  lemma RoundAtLeast(x: real, a: int)
    requires a >= 1
    ensures Round(x) >= a <==> x >= a as real - 0.5
  {
  }

  lemma OverAtLeast(m: real, p: real, y: real)
    requires p > 0.0
    ensures Over(m, p) >= y <==> m >= Times(y, p)
  {
    Quotient(m, p);
    if Over(m, p) >= y {
      MulAtMost(y, Over(m, p), p);
    } else {
      MulBelow(Over(m, p), y, p);
    }
  }

  /** A limit allows the quantity, or there is no limit. */
  ghost predicate Allows(limit: Option<real>, y: real) {
    limit.Some? ==> limit.value >= y
  }

  /** The same for a limit in the asset, of which a reserve is kept, at a price. */
  ghost predicate AllowsAt(limit: Option<real>, downscale: real, price: real, y: real) {
    limit.Some? ==> Times(limit.value, downscale) >= Times(y, price)
  }

  /** A size is allowed exactly if, to half a satoshi, the wallet covers it and every limit does: when
      bitcoin is sold, the wallet's bitcoin covers it with a fee of a thousandth; when bitcoin is bought,
      the wallet's asset is worth it at the price. Unless the largest size is asked for, a part of each
      asset is kept back. */
  lemma SizeExactly(all: AllBalances, price: real, sendBitcoins: bool, maxAmount: bool, a: int)
    requires price > 0.0 && a >= 1
    ensures var y := (a as real - 0.5) / 100_000_000.0;
            var down := if maxAmount then 1.0 else 1.0 / 1.03;
            a <= GetBitcoinAmount(all, price, sendBitcoins, maxAmount) <==>
              if sendBitcoins then
                && all.walletBitcoin >= 1.001 * y
                && Allows(all.bitcoinMaxSend, y) && AllowsAt(all.assetMaxRecv, down, price, y)
              else
                && Times(all.walletAsset, down) >= Times(y, price)
                && Allows(all.bitcoinMaxRecv, y) && AllowsAt(all.assetMaxSend, down, price, y)
  {
    var y := (a as real - 0.5) / 100_000_000.0;
    var down := if maxAmount then 1.0 else 1.0 / 1.03;
    OverAtLeast(Times(all.walletAsset, down), price, y);
    if all.assetMaxRecv.Some? {
      OverAtLeast(Times(all.assetMaxRecv.value, down), price, y);
    }
    if all.assetMaxSend.Some? {
      OverAtLeast(Times(all.assetMaxSend.value, down), price, y);
    }
    hide Times, Over, Round;
    forall x: real ensures FromBitcoin(x) >= a <==> x >= y {
      RoundAtLeast(x * COIN as real, a);
    }
    hide FromBitcoin;
  }

  /** The price check in numbers: selling, the asset is worth at least the ask with interest for all the
      bitcoin paid, fee included; buying, at most the bid less interest for the bitcoin that is left. */
  lemma PriceExactly(d: Details, pair: PricePair, interest: real)
    requires Tradable(d) && interest > 0.0
    ensures PriceAcceptable(d, pair, interest) <==>
            if d.sendBitcoins then
              d.assetAmount >= Times(Times(pair.ask, interest), ToBitcoin(d.bitcoinAmount + d.serverFee))
            else
              Times(d.assetAmount, interest) <= Times(pair.bid, ToBitcoin(d.bitcoinAmount - d.serverFee))
  {
    if d.sendBitcoins {
      OverAtLeast(d.assetAmount, ToBitcoin(d.bitcoinAmount + d.serverFee), Times(pair.ask, interest));
    } else {
      OverCompared(d.assetAmount, ToBitcoin(d.bitcoinAmount - d.serverFee), pair.bid, interest);
    }
    hide Times, Over;
  }

  lemma OverCompared(m: real, u: real, n: real, v: real)
    requires u > 0.0 && v > 0.0
    ensures Over(m, u) <= Over(n, v) <==> Times(m, v) <= Times(n, u)
  {
    var x, y := Over(m, u), Over(n, v);
    Quotient(m, u);
    Quotient(n, v);
    var uv := Times(u, v);
    TakenPositive2(u, v);
    assert Times(x, uv) == Times(m, v) by { assert x * (u * v) == x * u * v; }
    assert Times(y, uv) == Times(n, u) by { assert y * (u * v) == y * v * u; }
    RatioVersus(x, y, uv);
  }

  /** A trade is taken exactly if its size is in the range and allowed at its actual price, and its price
      is acceptable. */
  lemma TakesExactly(params: Params, d: Details, all: AllBalances, pair: PricePair, interest: real)
    requires Tradable(d) && interest > 0.0
    ensures ActualPrice(d) > 0.0
    ensures TakeOrder(params, d, all, pair, interest) <==>
            && params.bitcoinAmountMin <= d.bitcoinAmount <= params.bitcoinAmountMax
            && PriceAcceptable(d, pair, interest)
            && var y := (d.bitcoinAmount as real - 0.5) / 100_000_000.0;
               if d.sendBitcoins then
                 && all.walletBitcoin >= 1.001 * y
                 && Allows(all.bitcoinMaxSend, y) && AllowsAt(all.assetMaxRecv, 1.0, ActualPrice(d), y)
               else
                 && Times(all.walletAsset, 1.0) >= Times(y, ActualPrice(d))
                 && Allows(all.bitcoinMaxRecv, y) && AllowsAt(all.assetMaxSend, 1.0, ActualPrice(d), y)
  {
    ActualPricePositive(d);
    SizeExactly(all, ActualPrice(d), d.sendBitcoins, true, d.bitcoinAmount);
    hide GetBitcoinAmount, PriceAcceptable, ActualPrice, Times, Over, Allows, AllowsAt;
  }

  /** The update in numbers: an order is submitted at the size that is allowed with the reserve, at most
      the configured one, if that reaches the minimum; an own order is cancelled without a price, when
      nothing is allowed, when it is too large, or when it could be a twentieth larger; otherwise it is
      edited when the price has changed. */
  lemma ReactsExactly(params: Params, own: Option<Own>, price: Option<real>, all: AllBalances, sendBitcoins: bool)
    requires price.Some? ==> price.value > 0.0
    ensures var r := UpdatePrice(params, own, price, all, sendBitcoins);
            var allowed := if price.Some? then GetBitcoinAmount(all, price.value, sendBitcoins, false) else 0;
            var most := if price.Some? then GetBitcoinAmount(all, price.value, sendBitcoins, true) else 0;
            var size := if allowed <= params.bitcoinAmountSubmit then allowed else params.bitcoinAmountSubmit;
            && (r.SubmitOrder? <==> own.None? && price.Some? && size >= params.bitcoinAmountMin)
            && (r.SubmitOrder? ==> r.bitcoinAmount == size && Some(r.price) == price)
            && (r.CancelOwn? <==> own.Some? && (price.None? || most == 0 || own.value.bitcoinAmount > most
                                                || 20 * (size - own.value.bitcoinAmount) >= own.value.bitcoinAmount))
            && (r.EditOwn? <==> own.Some? && price.Some? && own.value.price != price.value && !r.CancelOwn?)
            && (r.EditOwn? ==> Some(r.price) == price)
  {
    hide GetBitcoinAmount;
  }

  /** The largest size the wallet's bitcoin allows, in integers. */
  lemma LargestSale(w: nat)
    ensures FromBitcoin(ToBitcoin(w) / (1.0 + SERVER_FEE_RATE)) == (2000 * w + 1001) / 2002
  {
    assert ToBitcoin(w) / (1.0 + SERVER_FEE_RATE) * COIN as real == (1000 * w) as real / 1001.0;
    RoundFraction(1000 * w, 1001);
  }

  lemma LargestSaleArithmetic(w: nat)
    requires w >= 1
    ensures var a := (2000 * w + 1001) / 2002;
            a >= 1 && (a + Max((a + 500) / 1000, 500) <= w <==> w >= 500_000 && w % 1001 != 500)
  {
    var k, r := w / 1001, w % 1001;
    assert w == 1001 * k + r;
    var a := (2000 * w + 1001) / 2002;
    assert a == if r <= 500 then 1000 * k + r else 1000 * k + r - 1;
    assert (a + 500) / 1000 == if r < 500 then k else k + 1;
  }

  /** Selling from a wallet with `w` satoshi and no other limit: all sizes that are allowed are covered by
      the wallet, fee included, if and only if the wallet holds at least half a million satoshi and their
      number is not 500 modulo 1001. Below that the minimum fee is more than the thousandth that the size
      leaves for it. */
  lemma SalesAreCoveredExactly(w: nat, price: real)
    requires w >= 1 && price > 0.0
    ensures var all := AllBalances(0.0, ToBitcoin(w), None, None, None, None);
            (forall a :: 1 <= a <= GetBitcoinAmount(all, price, true, true) ==> a + GetServerFee(a) <= w) <==>
            w >= 500_000 && w % 1001 != 500
  {
    var all := AllBalances(0.0, ToBitcoin(w), None, None, None, None);
    var most := GetBitcoinAmount(all, price, true, true);
    LargestSale(w);
    LargestSaleArithmetic(w);
    ServerFeeInIntegers(most);
    hide GetServerFee, GetBitcoinAmount;
    if most + GetServerFee(most) <= w {
      forall a | 1 <= a <= most ensures a + GetServerFee(a) <= w {
        FeeMonotone(a, most);
      }
    }
  }

  /** With any limits: from such a wallet every trade that is taken is covered. */
  lemma TakenSaleIsCovered(params: Params, d: Details, all: AllBalances, pair: PricePair, interest: real, w: nat)
    requires Tradable(d) && d.sendBitcoins && interest > 0.0 && d.serverFee == GetServerFee(d.bitcoinAmount)
    requires all.walletBitcoin == ToBitcoin(w) && w >= 500_000 && w % 1001 != 500
    requires TakeOrder(params, d, all, pair, interest)
    ensures d.bitcoinAmount + d.serverFee <= w
  {
    TakesExactly(params, d, all, pair, interest);
    var plain := AllBalances(0.0, ToBitcoin(w), None, None, None, None);
    SizeExactly(plain, 1.0, true, true, d.bitcoinAmount);
    SalesAreCoveredExactly(w, 1.0);
    hide GetBitcoinAmount, GetServerFee, TakeOrder, PriceAcceptable, ActualPrice, Times, Over;
  }

  // ---- the own-order slot -----------------------------------------------------------------------------------

  datatype Request = Submit(bitcoinAmount: int, price: real) | Cancel | Edit(price: real)

  /** The slot after a reaction; `placed` and `edited` are what the server said. A cancelled order
      stays until the server reports it gone, except after a failed edit. */
  function SlotAfter(own: Option<Own>, r: Reaction, placed: bool, edited: bool): Option<Own> {
    match r
    case SubmitOrder(amount, price) => if placed then Some(Own(amount, price)) else own
    case EditOwn(price) => if own.None? || !edited then None else Some(own.value.(price := price))
    case CancelOwn => own
    case DoNothing => own
  }

  /** An order that is left in the book after an update quotes the current price and is no larger
      than what the balances allow at that price. */
  lemma KeptOrderIsCurrent(params: Params, own: Option<Own>, price: Option<real>, all: AllBalances,
                           sendBitcoins: bool, placed: bool, edited: bool)
    requires (price.Some? ==> price.value > 0.0) && NonNegativeLimits(all)
    ensures var r := UpdatePrice(params, own, price, all, sendBitcoins);
            var now := SlotAfter(own, r, placed, edited);
            now.Some? && !r.CancelOwn? ==>
              && price == Some(now.value.price)
              && now.value.bitcoinAmount <= GetBitcoinAmount(all, price.value, sendBitcoins, true)
  {
    if price.Some? && own.None? {
      NonNegativeScale(price.value, 1.0, 1.0);
      SizeStillFits(all, price.value, price.value, 1.0, sendBitcoins);
    }
  }

  class OwnSlot {
    var own: Option<Own>
    var requests: seq<Request>

    constructor ()
      ensures own == None && requests == []
    {
      own, requests := None, [];
    }

    /** `update_price`, with the server's answers as parameters. */
    method Update(params: Params, price: Option<real>, all: AllBalances, sendBitcoins: bool,
                  placed: bool, edited: bool)
      requires (price.Some? ==> price.value > 0.0) && NonNegativeLimits(all)
      modifies this
      ensures own == SlotAfter(old(own), UpdatePrice(params, old(own), price, all, sendBitcoins), placed, edited)
      ensures old(requests) <= requests
      ensures var sent := requests[|old(requests)|..];
              && (old(own).None? ==> Cancel !in sent)
              && (own.Some? && price.Some? && Cancel !in sent ==>
                    && own.value.price == price.value
                    && own.value.bitcoinAmount <= GetBitcoinAmount(all, price.value, sendBitcoins, true))
              && (old(own).Some? && price.None? ==> sent == [Cancel])
              && (old(own).Some? && own.None? ==> sent == [Edit(price.value), Cancel])
    {
      hide GetBitcoinAmount;
      KeptOrderIsCurrent(params, own, price, all, sendBitcoins, placed, edited);
      var normal, most := 0, 0;
      if price.Some? {
        normal := Min(GetBitcoinAmount(all, price.value, sendBitcoins, false), params.bitcoinAmountSubmit);
        most := GetBitcoinAmount(all, price.value, sendBitcoins, true);
      }
      if own.None? {
        if price.Some? && normal >= params.bitcoinAmountMin {
          requests := requests + [Submit(normal, price.value)];
          if placed {
            own := Some(Own(normal, price.value));
          }
        }
      } else if price.None? || most == 0 || own.value.bitcoinAmount > most
                || (normal - own.value.bitcoinAmount) as real >= RECREATE_FRACTION * own.value.bitcoinAmount as real {
        requests := requests + [Cancel];
      } else if own.value.price != price.value {
        requests := requests + [Edit(price.value)];
        if edited {
          own := Some(own.value.(price := price.value));
        } else {
          requests := requests + [Cancel];
          own := None;
        }
      }
    }
  }
}
