/** Money arithmetic: satoshi amounts are integers, and every `f64` of the program is an exact
    real number rounded half away from zero, as `f64::round` does. */
module Money {
  import opened Sequences

  // ---- rounding ----------------------------------------------------------------------------

  function Round(x: real): int {
    if x >= 0.0 then (x + 0.5).Floor else -((0.5 - x).Floor)
  }

  ghost predicate Near(x: real, n: int) {
    -0.5 <= x - n as real <= 0.5
  }

  lemma RoundNear(x: real)
    ensures Near(x, Round(x))
  {
  }

  /** A number strictly within one half of an integer rounds to it. */
  lemma RoundUnique(x: real, n: int)
    requires -0.5 < x - n as real < 0.5
    ensures Round(x) == n
  {
    RoundNear(x);
    assert -1.0 < (Round(x) - n) as real < 1.0;
  }

  lemma RoundMonotone(x: real, y: real)
    requires x <= y
    ensures Round(x) <= Round(y)
  {
  }

  // ---- products and quotients of reals, named so that facts about them can be combined ------

  function Times(a: real, b: real): real {
    a * b
  }

  function Over(a: real, b: real): real
    requires b != 0.0
  {
    a / b
  }

  lemma Quotient(m: real, r: real)
    requires r != 0.0
    ensures Times(Over(m, r), r) == m
  {
  }

  lemma MulAtMost(a: real, b: real, r: real)
    requires r > 0.0 && a <= b
    ensures Times(a, r) <= Times(b, r)
  {
  }

  lemma MulBelow(a: real, b: real, r: real)
    requires r > 0.0 && a < b
    ensures Times(a, r) < Times(b, r)
  {
  }

  /** If the products of two numbers with a factor above one differ by at most one half,
      the numbers differ by less. */
  lemma HalfAbove(a: real, b: real, p: real)
    requires p > 1.0 && Times(a, p) - Times(b, p) <= 0.5
    ensures a - b < 0.5
  {
  }

  /** If two numbers differ by at most one half, their products differ by at most half the factor. */
  lemma HalfTimes(a: real, b: real, p: real)
    requires p > 0.0 && a - b <= 0.5
    ensures Times(a, p) - Times(b, p) <= 0.5 * p
  {
  }

  /** If the products differ by at most `h * p`, the numbers differ by at most `h`. */
  lemma DivideOut(a: real, b: real, h: real, p: real)
    requires p > 0.0 && Times(a, p) - Times(b, p) <= Times(h, p)
    ensures a - b <= h
  {
  }

  // ---- amounts -----------------------------------------------------------------------------

  const COIN: int := 100_000_000
  const MIN_BITCOIN_AMOUNT: int := 2000
  const MIN_SERVER_FEE: int := 500
  const SERVER_FEE_RATE: real := 0.001

  function ToBitcoin(sat: int): real {
    sat as real / COIN as real
  }

  function FromBitcoin(value: real): int {
    Round(value * COIN as real)
  }

  function Max(a: int, b: int): int {
    if a >= b then a else b
  }

  lemma BitcoinRoundTrip(sat: int)
    ensures FromBitcoin(ToBitcoin(sat)) == sat
  {
    RoundUnique(sat as real, sat);
  }

  // ---- server fee and its inversion --------------------------------------------------------

  function GetServerFee(bitcoinAmount: int): (fee: int)
    ensures fee >= MIN_SERVER_FEE
  {
    Max(FromBitcoin(ToBitcoin(bitcoinAmount) * SERVER_FEE_RATE), MIN_SERVER_FEE)
  }

  /** `None` is the "balance is too low" error. */
  function GetMaxBitcoinAmount(balance: int): Option<int>
    requires balance >= 0
  {
    if balance < MIN_BITCOIN_AMOUNT + MIN_SERVER_FEE then None
    else
      var networkFeeScaled := FromBitcoin(ToBitcoin(balance) * (1.0 - 1.0 / (1.0 + SERVER_FEE_RATE)));
      var bitcoinAmount := balance - Max(networkFeeScaled, MIN_SERVER_FEE);
      if balance < bitcoinAmount + GetServerFee(bitcoinAmount) then Some(bitcoinAmount - 1)
      else Some(bitcoinAmount)
  }

  /** Rounding a fraction of an integer, in integers. */
  lemma RoundFraction(n: int, d: int)
    requires n >= 0 && d > 0
    ensures Round(n as real / d as real) == (2 * n + d) / (2 * d)
  {
    var q := (2 * n + d) / (2 * d);
    var x := n as real / d as real;
    assert x >= 0.0;
    assert 2 * d * q <= 2 * n + d < 2 * d * q + 2 * d;
    assert x * d as real == n as real;
    assert (x + 0.5) * d as real == x * d as real + 0.5 * d as real;
    assert (d as real) * q as real == (d * q) as real;
    assert (d as real) * (q + 1) as real == (d * q + d) as real;
    FloorOf(x + 0.5, q, d);
  }

  lemma FloorOf(y: real, q: int, d: int)
    requires d > 0
    requires (d as real) * q as real <= y * d as real < (d as real) * (q + 1) as real
    ensures y.Floor == q
  {
    DivideOut(q as real, y, 0.0, d as real);
    StrictlyBelow(y, (q + 1) as real, d as real);
  }

  lemma StrictlyBelow(a: real, b: real, r: real)
    requires r > 0.0 && a * r < b * r
    ensures a < b
  {
  }

  lemma ServerFeeInIntegers(a: int)
    requires a >= 0
    ensures GetServerFee(a) == Max((a + 500) / 1000, MIN_SERVER_FEE)
  {
    assert ToBitcoin(a) * SERVER_FEE_RATE * COIN as real == a as real / 1000.0;
    RoundFraction(a, 1000);
  }

  lemma MaxAmountInIntegers(balance: int)
    requires balance >= 2500
    ensures var a := balance - Max((2 * balance + 1001) / 2002, 500);
            a >= 2000 &&
            GetMaxBitcoinAmount(balance) ==
              Some(if balance < a + Max((a + 500) / 1000, 500) then a - 1 else a)
  {
    hide GetServerFee, FromBitcoin, ToBitcoin;
    ScaledFeeInIntegers(balance);
    ServerFeeInIntegers(balance - Max((2 * balance + 1001) / 2002, 500));
  }

  lemma ScaledFeeInIntegers(balance: int)
    requires balance >= 0
    ensures FromBitcoin(ToBitcoin(balance) * (1.0 - 1.0 / (1.0 + SERVER_FEE_RATE))) == (2 * balance + 1001) / 2002
  {
    assert ToBitcoin(balance) * (1.0 - 1.0 / (1.0 + SERVER_FEE_RATE)) * COIN as real
        == balance as real / 1001.0;
    RoundFraction(balance, 1001);
    hide Round;
  }

  lemma FeeMonotone(a: int, b: int)
    requires 0 <= a <= b
    ensures GetServerFee(a) <= GetServerFee(b)
  {
    ServerFeeInIntegers(a);
    ServerFeeInIntegers(b);
  }

  /** The maximal amount is the largest one whose fee still fits into the balance. At most one
      satoshi stays unspent, and that happens exactly for the balances no amount can exhaust. */
  lemma MaxAmountIsLargest(balance: int)
    requires balance >= 0
    ensures GetMaxBitcoinAmount(balance).Some? <==> balance >= 2500
    ensures balance >= 2500 ==>
              var a := GetMaxBitcoinAmount(balance).value;
              && a >= MIN_BITCOIN_AMOUNT && a + GetServerFee(a) <= balance
              && (forall b :: b > a ==> b + GetServerFee(b) > balance)
              && balance - a - GetServerFee(a) ==
                 (if balance >= 500_500 && balance % 1001 == 500 then 1 else 0)
  {
    if balance >= 2500 {
      hide GetServerFee, FromBitcoin, ToBitcoin;
      MaxAmountInIntegers(balance);
      var a := GetMaxBitcoinAmount(balance).value;
      ServerFeeInIntegers(a);
      ServerFeeInIntegers(a + 1);
      MaxAmountArithmetic(balance);
      forall b | b > a ensures b + GetServerFee(b) > balance {
        FeeMonotone(a + 1, b);
      }
    }
  }

  lemma MaxAmountArithmetic(balance: int)
    requires balance >= 2500
    ensures var e := balance - Max((2 * balance + 1001) / 2002, 500);
            var a := if balance < e + Max((e + 500) / 1000, 500) then e - 1 else e;
            && a + Max((a + 500) / 1000, 500) <= balance
            && a + 1 + Max((a + 1 + 500) / 1000, 500) > balance
            && balance - a - Max((a + 500) / 1000, 500) ==
               (if balance >= 500_500 && balance % 1001 == 500 then 1 else 0)
  {
    var k, r := balance / 1001, balance % 1001;
    assert balance == 1001 * k + r;
    var f := (2 * balance + 1001) / 2002;
    assert f == if r <= 500 then k else k + 1;
  }

  // ---- quotes of an instant swap -----------------------------------------------------------

  /** The rounded product and the rounded quotient of an amount and a price. */
  function Scale(n: int, p: real): int {
    Round(Times(n as real, p))
  }

  function Unscale(m: int, p: real): int
    requires p > 0.0
  {
    Round(Over(m as real, p))
  }

  function GetRecvAmount(clientSendBitcoins: bool, sendAmount: int, rawPrice: real, fixedFee: int): int
    requires rawPrice > 0.0
  {
    if clientSendBitcoins then Scale(sendAmount - fixedFee, rawPrice)
    else Unscale(sendAmount, rawPrice) - fixedFee
  }

  function GetSendAmount(clientSendBitcoins: bool, recvAmount: int, rawPrice: real, fixedFee: int): int
    requires rawPrice > 0.0
  {
    if clientSendBitcoins then Unscale(recvAmount, rawPrice) + fixedFee
    else Scale(recvAmount + fixedFee, rawPrice)
  }

  /** Multiply, round, divide, round. */
  function ThereAndBack(n: int, p: real): int
    requires p > 0.0
  {
    Unscale(Scale(n, p), p)
  }

  lemma ExactThereAndBack(n: int, p: real)
    requires p >= 1.0
    ensures ThereAndBack(n, p) == n
  {
    var m := Scale(n, p);
    var q := Over(m as real, p);
    if p == 1.0 {
      RoundUnique(n as real, n);
    } else {
      RoundNear(Times(n as real, p));
      Quotient(m as real, p);
      HalfAbove(q, n as real, p);
      HalfAbove(n as real, q, p);
      RoundUnique(q, n);
    }
  }

  /** For a price below one some two neighbours are sent to the same amount. */
  lemma Collision(p: real) returns (n: nat)
    requires 0.0 < p < 1.0
    ensures Scale(n, p) == n == Scale(n + 1, p)
  {
    var g := 1.0 - p;
    n := FloorMultiple(g);
    var e := Times(n as real, g);
    assert Times(n as real, p) == n as real - e;
    assert Times((n + 1) as real, p) == n as real + 1.0 - (e + g);
    NeighboursMeet(n, e, g);
  }

  /** The last multiple of `g` that is at most one half. */
  lemma FloorMultiple(g: real) returns (n: nat)
    requires g > 0.0
    ensures 0.0 <= Times(n as real, g) <= 0.5 < Times(n as real, g) + g
  {
    var half := Over(0.5, g);
    Quotient(0.5, g);
    DivideOut(0.0, half, 0.0, g);
    n := half.Floor;
    var here, next := n as real, n as real + 1.0;
    MulAtMost(0.0, here, g);
    MulAtMost(here, half, g);
    MulBelow(half, next, g);
    assert Times(next, g) == Times(here, g) + g;
  }

  lemma NeighboursMeet(n: nat, e: real, g: real)
    requires 0.0 <= e <= 0.5 < e + g && 0.0 < g < 1.0 && (n == 0 ==> e == 0.0)
    ensures Round(n as real - e) == n == Round(n as real + 1.0 - (e + g))
  {
    if e < 0.5 {
      RoundUnique(n as real - e, n);
    }
    RoundUnique(n as real + 1.0 - (e + g), n);
  }

  lemma ExactOnlyFromOne(p: real) returns (n: nat)
    requires 0.0 < p < 1.0
    ensures ThereAndBack(n, p) != n
  {
    var k := Collision(p);
    assert ThereAndBack(k, p) == ThereAndBack(k + 1, p);
    n := if ThereAndBack(k, p) != k then k else k + 1;
  }

  lemma SendQuoteIsThereAndBack(s: int, p: real, fee: int)
    requires p > 0.0
    ensures GetSendAmount(true, GetRecvAmount(true, s, p, fee), p, fee) == ThereAndBack(s - fee, p) + fee
  {
  }

  lemma RecvQuoteIsThereAndBack(r: int, p: real, fee: int)
    requires p > 0.0
    ensures GetRecvAmount(false, GetSendAmount(false, r, p, fee), p, fee) == ThereAndBack(r + fee, p) - fee
  {
  }

  /** Paying with bitcoin, the send amount survives send -> recv -> send for every amount exactly
      when the price is at least one. */
  lemma SendQuoteExact(p: real, fee: int)
    requires p > 0.0
    ensures (forall s :: GetSendAmount(true, GetRecvAmount(true, s, p, fee), p, fee) == s) <==> p >= 1.0
  {
    if p >= 1.0 {
      forall s ensures GetSendAmount(true, GetRecvAmount(true, s, p, fee), p, fee) == s {
        SendQuoteIsThereAndBack(s, p, fee);
        ExactThereAndBack(s - fee, p);
      }
    } else {
      var n := ExactOnlyFromOne(p);
      SendQuoteIsThereAndBack(n + fee, p, fee);
    }
  }

  /** Receiving bitcoin, the receive amount survives recv -> send -> recv under the same condition. */
  lemma RecvQuoteExact(p: real, fee: int)
    requires p > 0.0
    ensures (forall r :: GetRecvAmount(false, GetSendAmount(false, r, p, fee), p, fee) == r) <==> p >= 1.0
  {
    if p >= 1.0 {
      forall r ensures GetRecvAmount(false, GetSendAmount(false, r, p, fee), p, fee) == r {
        RecvQuoteIsThereAndBack(r, p, fee);
        ExactThereAndBack(r + fee, p);
      }
    } else {
      var n := ExactOnlyFromOne(p);
      RecvQuoteIsThereAndBack(n - fee, p, fee);
    }
  }

  /** Divide, round, multiply, round. */
  function BackAndThere(m: int, p: real): int
    requires p > 0.0
  {
    Scale(Unscale(m, p), p)
  }

  ghost predicate Within(a: int, b: int, bound: real) {
    -bound <= (a - b) as real <= bound
  }

  lemma BackAndThereNear(m: int, p: real)
    requires p > 0.0
    ensures Within(BackAndThere(m, p), m, (p + 1.0) / 2.0)
  {
    var x, n := Over(m as real, p), Unscale(m, p);
    Quotient(m as real, p);
    RoundNear(x);
    RoundNear(Times(n as real, p));
    HalfTimes(n as real, x, p);
    HalfTimes(x, n as real, p);
  }

  lemma RecvAfterSend(amount: int, p: real, fee: int)
    requires p > 0.0
    ensures GetRecvAmount(true, GetSendAmount(true, amount, p, fee), p, fee) == BackAndThere(amount, p)
  {
    var s := GetSendAmount(true, amount, p, fee);
    assert s - fee == Unscale(amount, p);
    assert GetRecvAmount(true, s, p, fee) == Scale(s - fee, p);
  }

  lemma SendAfterRecv(amount: int, p: real, fee: int)
    requires p > 0.0
    ensures GetSendAmount(false, GetRecvAmount(false, amount, p, fee), p, fee) == BackAndThere(amount, p)
  {
    var r := GetRecvAmount(false, amount, p, fee);
    assert r + fee == Unscale(amount, p);
    assert GetSendAmount(false, r, p, fee) == Scale(r + fee, p);
  }

  /** The opposite directions of the two quotes are off by at most (price + 1) / 2. */
  lemma OppositeQuotes(amount: int, p: real, fee: int)
    requires p > 0.0
    ensures Within(GetRecvAmount(true, GetSendAmount(true, amount, p, fee), p, fee), amount, (p + 1.0) / 2.0)
    ensures Within(GetSendAmount(false, GetRecvAmount(false, amount, p, fee), p, fee), amount, (p + 1.0) / 2.0)
  {
    RecvAfterSend(amount, p, fee);
    SendAfterRecv(amount, p, fee);
    BackAndThereNear(amount, p);
  }

  // ---- peg-out -----------------------------------------------------------------------------

  datatype PegOutRequest = PegOutRequest(
    amount: int, isSendEntered: bool, feeRate: real, minPegOutAmount: int,
    serverFeePercent: real, txVsize: int)
  {
    function Rate(): real { 1.0 - serverFeePercent / 100.0 }
    function FixedFee(): int { Scale(txVsize, feeRate) }
  }

  datatype PegOutQuote = PegOutQuote(sendAmount: int, recvAmount: int)

  function QuoteAt(amount: int, isSendEntered: bool, rate: real, fixedFee: int): PegOutQuote
    requires rate > 0.0
  {
    if isSendEntered then PegOutQuote(amount, Scale(amount, rate) - fixedFee)
    else PegOutQuote(Unscale(amount + fixedFee, rate), amount)
  }

  /** `None` stands for any of the three rejections. */
  function PegOutAmount(req: PegOutRequest): Option<PegOutQuote>
    requires req.Rate() > 0.0
  {
    if req.amount <= 0 then None
    else
      var quote := QuoteAt(req.amount, req.isSendEntered, req.Rate(), req.FixedFee());
      if quote.sendAmount < req.minPegOutAmount || quote.recvAmount <= 0 then None else Some(quote)
  }

  /** Dividing an integer by a rate and multiplying back loses nothing when the rate is at most one. */
  lemma RateThereAndBack(total: int, rate: real)
    requires 0.0 < rate <= 1.0
    ensures Scale(Unscale(total, rate), rate) == total
  {
    var x, n := Over(total as real, rate), Unscale(total, rate);
    if rate == 1.0 {
      RoundUnique(total as real, total);
    } else {
      Quotient(total as real, rate);
      RoundNear(x);
      HalfTimes(n as real, x, rate);
      HalfTimes(x, n as real, rate);
      RoundUnique(Times(n as real, rate), total);
    }
  }

  lemma RateKeepsPositive(total: int, rate: real)
    requires 0.0 < rate <= 1.0 && total >= 1
    ensures Unscale(total, rate) >= 1
  {
    var x := Over(total as real, rate);
    Quotient(total as real, rate);
    assert Times(1.0, rate) <= 1.0;
    DivideOut(1.0, x, 0.0, rate);
    RoundMonotone(1.0, x);
  }

  lemma QuoteRequote(amount: int, rate: real, fixedFee: int)
    requires 0.0 < rate <= 1.0
    ensures var quote := QuoteAt(amount, false, rate, fixedFee);
            && QuoteAt(quote.sendAmount, true, rate, fixedFee) == quote
            && (amount + fixedFee >= 1 ==> quote.sendAmount >= 1)
  {
    RateThereAndBack(amount + fixedFee, rate);
    if amount + fixedFee >= 1 {
      RateKeepsPositive(amount + fixedFee, rate);
    }
  }

  /** A quote entered by its receive amount can be entered again by the send amount it shows and
      gives the same quote, unless that send amount is not positive. */
  lemma PegOutRequote(req: PegOutRequest)
    requires 0.0 < req.Rate() <= 1.0 && !req.isSendEntered && PegOutAmount(req).Some?
    ensures var quote := PegOutAmount(req).value;
            var again := PegOutAmount(req.(amount := quote.sendAmount, isSendEntered := true));
            && (again == Some(quote) <==> quote.sendAmount > 0)
            && (req.FixedFee() >= 0 ==> again == Some(quote))
  {
    QuoteRequote(req.amount, req.Rate(), req.FixedFee());
    var again := req.(amount := PegOutAmount(req).value.sendAmount, isSendEntered := true);
    assert again.Rate() == req.Rate() && again.FixedFee() == req.FixedFee();
  }

  lemma QuoteOpposite(amount: int, rate: real, fixedFee: int)
    requires 0.0 < rate
    ensures var quote := QuoteAt(amount, true, rate, fixedFee);
            Within(QuoteAt(quote.recvAmount, false, rate, fixedFee).sendAmount, amount, Over(0.5, rate) + 0.5)
  {
    var n := Scale(amount, rate);
    var y, h := Over(n as real, rate), Over(0.5, rate);
    RoundNear(Times(amount as real, rate));
    Quotient(n as real, rate);
    Quotient(0.5, rate);
    DivideOut(y, amount as real, h, rate);
    DivideOut(amount as real, y, h, rate);
    RoundNear(y);
  }

  /** In the other direction the send amount moves by at most 1/(2 rate) + 1/2 satoshi; the second
      quote fails exactly if that takes it below the minimum. */
  lemma PegOutOpposite(req: PegOutRequest)
    requires 0.0 < req.Rate() && req.isSendEntered && PegOutAmount(req).Some?
    ensures var quote := PegOutAmount(req).value;
            var again := PegOutAmount(req.(amount := quote.recvAmount, isSendEntered := false));
            var send := QuoteAt(quote.recvAmount, false, req.Rate(), req.FixedFee()).sendAmount;
            && Within(send, req.amount, Over(0.5, req.Rate()) + 0.5)
            && again == (if send >= req.minPegOutAmount then Some(PegOutQuote(send, quote.recvAmount)) else None)
  {
    QuoteOpposite(req.amount, req.Rate(), req.FixedFee());
    var again := req.(amount := PegOutAmount(req).value.recvAmount, isSendEntered := false);
    assert again.Rate() == req.Rate() && again.FixedFee() == req.FixedFee();
  }

  /** The quotes in numbers: what goes on in bitcoin is the amount less the fee, the other side is that
      times the price, each time to the nearest unit. */
  lemma QuotesAreNear(amount: int, p: real, fee: int)
    requires p > 0.0
    ensures Near(Times((amount - fee) as real, p), GetRecvAmount(true, amount, p, fee))
    ensures Near(Over(amount as real, p), GetRecvAmount(false, amount, p, fee) + fee)
    ensures Near(Over(amount as real, p), GetSendAmount(true, amount, p, fee) - fee)
    ensures Near(Times((amount + fee) as real, p), GetSendAmount(false, amount, p, fee))
  {
    RoundNear(Times((amount - fee) as real, p));
    RoundNear(Over(amount as real, p));
    RoundNear(Times((amount + fee) as real, p));
    hide Round, Times, Over;
  }

  /** A peg-out in numbers: the fee is the size times the fee rate; what is received is what is sent less
      the percentage and the fee; all to the nearest satoshi. There is a quote exactly if the amount
      asked for is positive, the send amount reaches the minimum and something is received. */
  lemma PegOutExactly(req: PegOutRequest) returns (fee: int, other: int)
    requires 1.0 - req.serverFeePercent / 100.0 > 0.0
    ensures Near(Times(req.txVsize as real, req.feeRate), fee)
    ensures req.isSendEntered ==>
              && Near(Times(req.amount as real, 1.0 - req.serverFeePercent / 100.0), other + fee)
              && PegOutAmount(req) == (if req.amount > 0 && req.amount >= req.minPegOutAmount && other > 0
                                       then Some(PegOutQuote(req.amount, other)) else None)
    ensures !req.isSendEntered ==>
              && Near(Over((req.amount + fee) as real, 1.0 - req.serverFeePercent / 100.0), other)
              && PegOutAmount(req) == (if req.amount > 0 && other >= req.minPegOutAmount
                                       then Some(PegOutQuote(other, req.amount)) else None)
  {
    var rate := req.Rate();
    fee := req.FixedFee();
    RoundNear(Times(req.txVsize as real, req.feeRate));
    RoundNear(Times(req.amount as real, rate));
    RoundNear(Over((req.amount + fee) as real, rate));
    hide Round, Times, Over;
    other := if req.isSendEntered then Scale(req.amount, rate) - fee else Unscale(req.amount + fee, rate);
  }

  // ---- asset amounts at a price ------------------------------------------------------------

  datatype MarketType = Stablecoin | Amp | Token
  {
    predicate PricedInBitcoins() { this != Stablecoin }
  }

  function Pow10(n: nat): (r: int)
    ensures r > 0
  {
    if n == 0 then 1 else 10 * Pow10(n - 1)
  }

  function AssetAmount(bitcoinAmount: int, price: real, precision: nat, market: MarketType): int
    requires price != 0.0
  {
    var bitcoin := Over(bitcoinAmount as real, COIN as real);
    var asset := if market.PricedInBitcoins() then Over(bitcoin, price) else Times(bitcoin, price);
    Round(Times(asset, Pow10(precision) as real))
  }

  function BitcoinAmount(assetAmount: int, price: real, precision: nat, market: MarketType): int
    requires price != 0.0
  {
    var asset := Over(assetAmount as real, Pow10(precision) as real);
    Round(Times(if market.PricedInBitcoins() then Times(asset, price) else Over(asset, price), COIN as real))
  }

  /** Smallest units of the asset per satoshi at a price. */
  function UnitsPerSatoshi(price: real, precision: nat, market: MarketType): real
    requires price > 0.0
  {
    var scale := Over(Pow10(precision) as real, COIN as real);
    if market.PricedInBitcoins() then Over(scale, price) else Times(scale, price)
  }

  lemma UnitsPositive(price: real, precision: nat, market: MarketType)
    requires price > 0.0
    ensures UnitsPerSatoshi(price, precision, market) > 0.0
  {
    var scale := Over(Pow10(precision) as real, COIN as real);
    assert scale > 0.0;
    if market.PricedInBitcoins() {
      Quotient(scale, price);
      if Over(scale, price) <= 0.0 {
        MulAtMost(Over(scale, price), 0.0, price);
        assert false;
      }
    } else {
      MulBelow(0.0, scale, price);
    }
  }

  lemma Regroup(u: real, x: real, v: real, c: real)
    ensures Times(Times(u, x), Times(v, c)) == Times(Times(u, c), Times(v, x))
    ensures Times(u, Times(v, x)) == Times(Times(u, x), v)
  {
  }

  lemma IsQuotient(z: real, w: real, a: real)
    requires w > 0.0 && Times(z, w) == a
    ensures z == Over(a, w)
  {
  }

  lemma StableScale(b: real, c: real, k: real, price: real)
    requires c > 0.0
    ensures Times(Times(Over(b, c), price), k) == Times(b, Times(Over(k, c), price))
  {
    Quotient(b, c);
    Quotient(k, c);
    hide Times, Over;
    Regroup(Over(b, c), price, Over(k, c), c);
  }

  lemma PricedScale(b: real, c: real, k: real, price: real)
    requires c > 0.0 && price > 0.0
    ensures Times(Over(Over(b, c), price), k) == Times(b, Over(Over(k, c), price))
  {
    var u, v := Over(b, c), Over(k, c);
    var y, w := Over(u, price), Over(v, price);
    Quotient(b, c);
    Quotient(k, c);
    Quotient(u, price);
    Quotient(v, price);
    hide Times, Over;
    PullOut(y, w, price, c);
  }

  lemma PullOut(y: real, w: real, price: real, c: real)
    ensures Times(y, Times(Times(w, price), c)) == Times(Times(Times(y, price), c), w)
  {
  }

  lemma AssetAmountScales(n: int, price: real, precision: nat, market: MarketType)
    requires price > 0.0
    ensures AssetAmount(n, price, precision, market) == Scale(n, UnitsPerSatoshi(price, precision, market))
  {
    var b, k, c := n as real, Pow10(precision) as real, COIN as real;
    StableScale(b, c, k, price);
    PricedScale(b, c, k, price);
    hide Times, Over, Round, Pow10;
  }

  lemma StableUnscale(a: real, c: real, k: real, price: real)
    requires c > 0.0 && k > 0.0 && price > 0.0 && Times(Over(k, c), price) > 0.0
    ensures Times(Over(Over(a, k), price), c) == Over(a, Times(Over(k, c), price))
  {
    var x, v := Over(a, k), Over(k, c);
    var y, q := Over(x, price), Times(v, price);
    Quotient(a, k);
    Quotient(k, c);
    Quotient(x, price);
    Regroup(y, c, v, price);
    IsQuotient(Times(y, c), q, a);
    hide Times, Over;
  }

  lemma PricedUnscale(a: real, c: real, k: real, price: real)
    requires c > 0.0 && k > 0.0 && price > 0.0 && Over(Over(k, c), price) > 0.0
    ensures Times(Times(Over(a, k), price), c) == Over(a, Over(Over(k, c), price))
  {
    var x, v := Over(a, k), Over(k, c);
    var q := Over(v, price);
    Quotient(a, k);
    Quotient(k, c);
    Quotient(v, price);
    hide Times, Over;
    PullOut(x, q, price, c);
    IsQuotient(Times(Times(x, price), c), q, a);
  }

  lemma BitcoinAmountUnscales(m: int, price: real, precision: nat, market: MarketType)
    requires price > 0.0
    ensures var q := UnitsPerSatoshi(price, precision, market);
            q > 0.0 && BitcoinAmount(m, price, precision, market) == Unscale(m, q)
  {
    UnitsPositive(price, precision, market);
    var a, k, c := m as real, Pow10(precision) as real, COIN as real;
    if market.PricedInBitcoins() {
      PricedUnscale(a, c, k, price);
    } else {
      StableUnscale(a, c, k, price);
    }
    hide Times, Over, Round, Pow10;
  }

  lemma Reciprocal(x: real, p: real)
    requires p > 0.0
    ensures Over(1.0, p) > 0.0
    ensures Times(x, Over(1.0, p)) == Over(x, p) && Over(x, Over(1.0, p)) == Times(x, p)
  {
    var r := Over(1.0, p);
    Quotient(1.0, p);
    assert Times(Times(x, r), p) == Times(x, Times(r, p));
    IsQuotient(Times(x, r), p, x);
    assert Times(Times(x, p), r) == Times(x, Times(r, p));
    IsQuotient(Times(x, p), r, x);
  }

  /** Dividing and multiplying back is multiplying by the reciprocal and dividing back. */
  lemma BackIsThereReversed(m: int, p: real)
    requires p > 0.0
    ensures Over(1.0, p) > 0.0 && BackAndThere(m, p) == ThereAndBack(m, Over(1.0, p))
  {
    Reciprocal(m as real, p);
    Reciprocal(Unscale(m, p) as real, p);
    hide Times, Over, Round;
  }

  lemma ReciprocalAboveOne(p: real)
    requires p > 0.0
    ensures Over(1.0, p) >= 1.0 <==> p <= 1.0
  {
  }

  /** The two amounts of an order determine each other on one side only: bitcoin survives the way
      through the asset exactly when a satoshi is worth at least one unit of the asset, and the
      asset amount survives the way through bitcoin exactly when it is worth at most one unit. */
  lemma AmountsDetermineEachOther(price: real, precision: nat, market: MarketType)
    requires price > 0.0
    ensures (forall n :: BitcoinAmount(AssetAmount(n, price, precision, market), price, precision, market) == n)
            <==> UnitsPerSatoshi(price, precision, market) >= 1.0
    ensures (forall m :: AssetAmount(BitcoinAmount(m, price, precision, market), price, precision, market) == m)
            <==> UnitsPerSatoshi(price, precision, market) <= 1.0
  {
    var q := UnitsPerSatoshi(price, precision, market);
    UnitsPositive(price, precision, market);
    forall n: int
      ensures BitcoinAmount(AssetAmount(n, price, precision, market), price, precision, market) == ThereAndBack(n, q)
      ensures AssetAmount(BitcoinAmount(n, price, precision, market), price, precision, market) == BackAndThere(n, q)
    {
      AssetAmountScales(n, price, precision, market);
      BitcoinAmountUnscales(AssetAmount(n, price, precision, market), price, precision, market);
      BitcoinAmountUnscales(n, price, precision, market);
      AssetAmountScales(BitcoinAmount(n, price, precision, market), price, precision, market);
    }
    hide AssetAmount, BitcoinAmount, UnitsPerSatoshi, ThereAndBack, BackAndThere;
    ExactIff(q);
    ExactBackIff(q);
  }

  lemma ExactIff(p: real)
    requires p > 0.0
    ensures (forall n :: ThereAndBack(n, p) == n) <==> p >= 1.0
  {
    if p >= 1.0 {
      forall n ensures ThereAndBack(n, p) == n {
        ExactThereAndBack(n, p);
      }
    } else {
      var n := ExactOnlyFromOne(p);
    }
  }

  lemma ExactBackIff(p: real)
    requires p > 0.0
    ensures (forall m :: BackAndThere(m, p) == m) <==> p <= 1.0
  {
    forall m: int
      ensures Over(1.0, p) > 0.0 && BackAndThere(m, p) == ThereAndBack(m, Over(1.0, p))
    {
      BackIsThereReversed(m, p);
    }
    BackIsThereReversed(0, p);
    ReciprocalAboveOne(p);
    ExactIff(Over(1.0, p));
    hide ThereAndBack, BackAndThere, Over;
  }

  /** Asset and bitcoin amounts in numbers: a price is in the asset per bitcoin on the stablecoin market
      and in bitcoin per unit of the asset on the others; amounts are to the nearest unit. */
  lemma AmountsAreNear(n: int, price: real, precision: nat, market: MarketType)
    requires price > 0.0
    ensures var bitcoin, unit := Over(n as real, 100_000_000.0), Pow10(precision) as real;
            Near(Times(if market.Stablecoin? then Times(bitcoin, price) else Over(bitcoin, price), unit),
                 AssetAmount(n, price, precision, market))
    ensures var asset := Over(n as real, Pow10(precision) as real);
            Near(Times(if market.Stablecoin? then Over(asset, price) else Times(asset, price), 100_000_000.0),
                 BitcoinAmount(n, price, precision, market))
  {
    var bitcoin, unit := Over(n as real, COIN as real), Pow10(precision) as real;
    RoundNear(Times(if market.Stablecoin? then Times(bitcoin, price) else Over(bitcoin, price), unit));
    var asset := Over(n as real, unit);
    RoundNear(Times(if market.Stablecoin? then Over(asset, price) else Times(asset, price), COIN as real));
    hide Round, Times, Over, Near;
  }
}
