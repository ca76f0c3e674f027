/** The dealer's rebalancing advice between its wallet and the exchange. Balances are satoshi
    amounts (both currencies have eight decimals), the price is USDT per bitcoin. */
module Rebalance {
  import opened Money

  datatype Balances = Balances(walletBtc: nat, exchangeBtc: nat, walletUsdt: nat, exchangeUsdt: nat)

  datatype Balancing = Keep | Recv(amount: real) | Send(amount: real)

  datatype AssetBalancing = NoTransfer | RecvBtc(amount: real) | SendBtc(amount: real)
                          | RecvUsdt(amount: real) | SendUsdt(amount: real)

  const RATIO_MIN: real := 0.25
  const RATIO_NORM: real := 0.5
  const RATIO_MAX: real := 0.75

  /** The price, in USDT per bitcoin, at which half a satoshi is worth 1000 USDT. */
  const DEAR: real := 200_000_000_000.0

  /** 1000 USDT */
  const MIN_BALANCING_AMOUNT: real := 100_000_000_000.0

  function Abs(x: real): real {
    if x >= 0.0 then x else -x
  }

  function GetBalancingSmaller(wallet: nat, exchange: nat): Balancing {
    if wallet == 0 || exchange == 0 then Keep
    else
      var total := (wallet + exchange) as real;
      var ratio := Over(wallet as real, total);
      var diff := Round(Abs(Times(RATIO_NORM - ratio, total))) as real;
      if ratio < RATIO_MIN then Recv(diff) else if ratio > RATIO_MAX then Send(diff) else Keep
  }

  function GetBalancingBigger(wallet: nat, exchange: nat, otherWallet: nat, otherExchange: nat,
                              scale: real): Balancing {
    var recvAmount := Times(otherExchange as real, scale) - wallet as real;
    var sendAmount := Times(otherWallet as real, scale) - exchange as real;
    if recvAmount > 0.0 then Recv(recvAmount) else if sendAmount > 0.0 then Send(sendAmount) else Keep
  }

  function Label(bitcoin: bool, m: Balancing): AssetBalancing {
    match m
    case Keep => NoTransfer
    case Recv(amount) => if bitcoin then RecvBtc(amount) else RecvUsdt(amount)
    case Send(amount) => if bitcoin then SendBtc(amount) else SendUsdt(amount)
  }

  function ValueInUsdt(a: AssetBalancing, price: real): real {
    match a
    case NoTransfer => 0.0
    case RecvBtc(amount) => Times(amount, price)
    case SendBtc(amount) => Times(amount, price)
    case RecvUsdt(amount) => amount
    case SendUsdt(amount) => amount
  }

  predicate BitcoinSmaller(b: Balances, price: real) {
    Times((b.walletBtc + b.exchangeBtc) as real, price) < (b.walletUsdt + b.exchangeUsdt) as real
  }

  predicate SomeEmpty(b: Balances) {
    b.walletBtc == 0 || b.exchangeBtc == 0 || b.walletUsdt == 0 || b.exchangeUsdt == 0
  }

  /** The smaller asset first; the bigger one only when the smaller is in order. */
  function Proposal(b: Balances, price: real): AssetBalancing
    requires price != 0.0
  {
    if BitcoinSmaller(b, price) then
      var m := GetBalancingSmaller(b.walletBtc, b.exchangeBtc);
      if !m.Keep? then Label(true, m)
      else Label(false, GetBalancingBigger(b.walletUsdt, b.exchangeUsdt, b.walletBtc, b.exchangeBtc, price))
    else
      var m := GetBalancingSmaller(b.walletUsdt, b.exchangeUsdt);
      if !m.Keep? then Label(false, m)
      else Label(true, GetBalancingBigger(b.walletBtc, b.exchangeBtc, b.walletUsdt, b.exchangeUsdt,
                                          Over(1.0, price)))
  }

  function GetBalancing(b: Balances, price: real): AssetBalancing {
    if price == 0.0 || SomeEmpty(b) then NoTransfer
    else if ValueInUsdt(Proposal(b, price), price) < MIN_BALANCING_AMOUNT then NoTransfer
    else Proposal(b, price)
  }

  /** The amount of an episode: the advice rounded to satoshi. */
  function EpisodeAmount(a: AssetBalancing): int {
    if a.NoTransfer? then 0 else Round(a.amount)
  }

  /** What an advice draws on. */
  function Source(b: Balances, a: AssetBalancing): int {
    match a
    case NoTransfer => 0
    case RecvBtc(_) => b.exchangeBtc
    case SendBtc(_) => b.walletBtc
    case RecvUsdt(_) => b.exchangeUsdt
    case SendUsdt(_) => b.walletUsdt
  }

  /** A transfer carried out in full. */
  function Transferred(b: Balances, a: AssetBalancing): Balances
    requires 0 <= EpisodeAmount(a) <= Source(b, a)
  {
    var n := EpisodeAmount(a);
    match a
    case NoTransfer => b
    case RecvBtc(_) => b.(walletBtc := b.walletBtc + n, exchangeBtc := b.exchangeBtc - n)
    case SendBtc(_) => b.(walletBtc := b.walletBtc - n, exchangeBtc := b.exchangeBtc + n)
    case RecvUsdt(_) => b.(walletUsdt := b.walletUsdt + n, exchangeUsdt := b.exchangeUsdt - n)
    case SendUsdt(_) => b.(walletUsdt := b.walletUsdt - n, exchangeUsdt := b.exchangeUsdt + n)
  }

  // ---- one asset at a time -------------------------------------------------------------------------

  ghost predicate InRange(wallet: nat, total: nat) {
    total <= 4 * wallet <= 3 * total
  }

  /** The smaller asset moves exactly when less than a quarter or more than three quarters of it are
      in the wallet, and then by the satoshi amount that halves it. */
  lemma SmallerInIntegers(w: nat, e: nat)
    requires w > 0 && e > 0
    ensures GetBalancingSmaller(w, e) ==
            if 4 * w < w + e then Recv(((e - w + 1) / 2) as real)
            else if 4 * w > 3 * (w + e) then Send(((w - e + 1) / 2) as real)
            else Keep
  {
    var total := (w + e) as real;
    var ratio := Over(w as real, total);
    Quotient(w as real, total);
    assert Times(RATIO_NORM - ratio, total) == Times(RATIO_NORM, total) - Times(ratio, total);
    RatioAgainst(ratio, RATIO_MIN, total);
    RatioAgainst(ratio, RATIO_MAX, total);
    if 4 * w < w + e {
      HalfUp(e - w);
      assert Abs(Times(RATIO_NORM - ratio, total)) == (e - w) as real / 2.0;
    } else if 4 * w > 3 * (w + e) {
      HalfUp(w - e);
      assert Abs(Times(RATIO_NORM - ratio, total)) == (w - e) as real / 2.0;
    }
  }

  lemma RatioAgainst(ratio: real, bound: real, total: real)
    requires total > 0.0
    ensures ratio < bound <==> Times(ratio, total) < Times(bound, total)
  {
    if ratio < bound {
      MulBelow(ratio, bound, total);
    } else {
      MulAtMost(bound, ratio, total);
    }
  }

  lemma HalfUp(d: int)
    requires d >= 0
    ensures Round(d as real / 2.0) == (d + 1) / 2
  {
    RoundFraction(d, 2);
  }

  /** Moving the smaller asset leaves it in order, and never asks for more than there is. */
  lemma SmallerMoves(w: nat, e: nat)
    requires w > 0 && e > 0
    ensures var m := GetBalancingSmaller(w, e);
            && (!m.Keep? ==> 0.0 < m.amount <= (if m.Recv? then e else w) as real)
            && (m.Recv? ==> var n := Round(m.amount);
                            0 < n < e && InRange(w + n, w + e) && GetBalancingSmaller(w + n, e - n).Keep?)
            && (m.Send? ==> var n := Round(m.amount);
                            0 < n < w && InRange(w - n, w + e) && GetBalancingSmaller(w - n, e + n).Keep?)
            && (m.Keep? <==> InRange(w, w + e))
  {
    SmallerInIntegers(w, e);
    var m := GetBalancingSmaller(w, e);
    if m.Recv? {
      var n := (e - w + 1) / 2;
      RoundUnique(n as real, n);
      SmallerInIntegers(w + n, e - n);
    } else if m.Send? {
      var n := (w - e + 1) / 2;
      RoundUnique(n as real, n);
      SmallerInIntegers(w - n, e + n);
    }
  }

  /** The bigger asset is worth at least as much as the other one. */
  ghost predicate Outweighs(w: nat, e: nat, ow: nat, oe: nat, scale: real) {
    Times(ow as real, scale) + Times(oe as real, scale) <= (w + e) as real
  }

  /** A remaining imbalance is at most half a satoshi. */
  ghost predicate Residual(m: Balancing) {
    !m.Keep? ==> 0.0 < m.amount <= 0.5
  }

  /** Moving the bigger asset never asks for more than there is, and leaves at most the rounding. */
  lemma BiggerMoves(w: nat, e: nat, ow: nat, oe: nat, scale: real)
    requires scale > 0.0 && Outweighs(w, e, ow, oe, scale)
    ensures var m := GetBalancingBigger(w, e, ow, oe, scale);
            && (!m.Keep? ==> 0.0 < m.amount <= (if m.Recv? then e else w) as real)
            && (m.Recv? ==> var n := Round(m.amount);
                            0 <= n <= e && Residual(GetBalancingBigger(w + n, e - n, ow, oe, scale)))
            && (m.Send? ==> var n := Round(m.amount);
                            0 <= n <= w && Residual(GetBalancingBigger(w - n, e + n, ow, oe, scale)))
  {
    MulAtMost(0.0, ow as real, scale);
    MulAtMost(0.0, oe as real, scale);
    var m := GetBalancingBigger(w, e, ow, oe, scale);
    if !m.Keep? {
      RoundNear(m.amount);
      RoundMonotone(0.0, m.amount);
      var most := if m.Recv? then e else w;
      RoundMonotone(m.amount, most as real);
      RoundUnique(most as real, most);
      hide Round, Times;
    }
  }

  // ---- the whole recommendation --------------------------------------------------------------------

  ghost predicate Positive(b: Balances) {
    !SomeEmpty(b)
  }

  lemma BitcoinOutweighs(b: Balances, price: real)
    requires price > 0.0 && !BitcoinSmaller(b, price)
    ensures Outweighs(b.walletBtc, b.exchangeBtc, b.walletUsdt, b.exchangeUsdt, Over(1.0, price))
  {
    var c := Over(1.0, price);
    var B, U := (b.walletBtc + b.exchangeBtc) as real, (b.walletUsdt + b.exchangeUsdt) as real;
    PositiveInverse(price);
    MulAtMost(U, Times(B, price), c);
    UndoPrice(B, price);
    assert Times(U, c) == Times(b.walletUsdt as real, c) + Times(b.exchangeUsdt as real, c);
  }

  lemma PositiveInverse(price: real)
    requires price > 0.0
    ensures Over(1.0, price) > 0.0
  {
  }

  lemma UndoPrice(x: real, price: real)
    requires price > 0.0
    ensures Times(Times(x, price), Over(1.0, price)) == x
  {
    assert price * Over(1.0, price) == 1.0;
    assert x * price * Over(1.0, price) == x * (price * Over(1.0, price));
  }

  lemma UsdtOutweighs(b: Balances, price: real)
    requires price > 0.0 && BitcoinSmaller(b, price)
    ensures Outweighs(b.walletUsdt, b.exchangeUsdt, b.walletBtc, b.exchangeBtc, price)
  {
    assert Times((b.walletBtc + b.exchangeBtc) as real, price) ==
           Times(b.walletBtc as real, price) + Times(b.exchangeBtc as real, price);
  }

  /** A recommended transfer never exceeds the balance it is drawn from, neither as recommended nor
      rounded to satoshi. */
  lemma AdviceIsCovered(b: Balances, price: real)
    requires price > 0.0
    ensures var a := GetBalancing(b, price); !a.NoTransfer? ==> 0.0 < a.amount <= Source(b, a) as real
    ensures 0 <= EpisodeAmount(GetBalancing(b, price)) <= Source(b, GetBalancing(b, price))
  {
    if Positive(b) {
      SmallerMoves(b.walletBtc, b.exchangeBtc);
      SmallerMoves(b.walletUsdt, b.exchangeUsdt);
      PositiveInverse(price);
      if BitcoinSmaller(b, price) {
        UsdtOutweighs(b, price);
        BiggerMoves(b.walletUsdt, b.exchangeUsdt, b.walletBtc, b.exchangeBtc, price);
      } else {
        BitcoinOutweighs(b, price);
        BiggerMoves(b.walletBtc, b.exchangeBtc, b.walletUsdt, b.exchangeUsdt, Over(1.0, price));
      }
      hide GetBalancingSmaller, GetBalancingBigger, Round, Times, Over;
    }
  }

  // ---- the recommendation in numbers -------------------------------------------------------------------

  /** Bitcoin is worth less than USDT. It is moved when less than a quarter or more than three quarters of
      it are in the wallet, by the amount that halves it. Otherwise USDT is moved to where it falls short
      of the worth of the bitcoin on the other side, first into the wallet, then out of it. Nothing is
      moved that is worth less than 1000 USDT. */
  lemma BitcoinSmallerAdvice(b: Balances, price: real)
    requires Positive(b) && price > 0.0
    requires Times((b.walletBtc + b.exchangeBtc) as real, price) < (b.walletUsdt + b.exchangeUsdt) as real
    ensures GetBalancing(b, price) ==
            if 4 * b.walletBtc < b.walletBtc + b.exchangeBtc then
              var n := ((b.exchangeBtc - b.walletBtc + 1) / 2) as real;
              if Times(n, price) >= 100_000_000_000.0 then RecvBtc(n) else NoTransfer
            else if 4 * b.walletBtc > 3 * (b.walletBtc + b.exchangeBtc) then
              var n := ((b.walletBtc - b.exchangeBtc + 1) / 2) as real;
              if Times(n, price) >= 100_000_000_000.0 then SendBtc(n) else NoTransfer
            else
              var recv := Times(b.exchangeBtc as real, price) - b.walletUsdt as real;
              var send := Times(b.walletBtc as real, price) - b.exchangeUsdt as real;
              if recv >= 100_000_000_000.0 then RecvUsdt(recv)
              else if recv <= 0.0 && send >= 100_000_000_000.0 then SendUsdt(send)
              else NoTransfer
  {
    SmallerInIntegers(b.walletBtc, b.exchangeBtc);
    hide GetBalancingSmaller, Round, Times, Over;
  }

  /** USDT is worth no more than bitcoin: the same with the two currencies exchanged. */
  lemma UsdtSmallerAdvice(b: Balances, price: real)
    requires Positive(b) && price > 0.0
    requires Times((b.walletBtc + b.exchangeBtc) as real, price) >= (b.walletUsdt + b.exchangeUsdt) as real
    ensures GetBalancing(b, price) ==
            if 4 * b.walletUsdt < b.walletUsdt + b.exchangeUsdt then
              var n := ((b.exchangeUsdt - b.walletUsdt + 1) / 2) as real;
              if n >= 100_000_000_000.0 then RecvUsdt(n) else NoTransfer
            else if 4 * b.walletUsdt > 3 * (b.walletUsdt + b.exchangeUsdt) then
              var n := ((b.walletUsdt - b.exchangeUsdt + 1) / 2) as real;
              if n >= 100_000_000_000.0 then SendUsdt(n) else NoTransfer
            else
              var recv := b.exchangeUsdt as real - Times(b.walletBtc as real, price);
              var send := b.walletUsdt as real - Times(b.exchangeBtc as real, price);
              if recv >= 100_000_000_000.0 then RecvBtc(Over(b.exchangeUsdt as real, price) - b.walletBtc as real)
              else if recv <= 0.0 && send >= 100_000_000_000.0 then
                SendBtc(Over(b.walletUsdt as real, price) - b.exchangeBtc as real)
              else NoTransfer
  {
    SmallerInIntegers(b.walletUsdt, b.exchangeUsdt);
    WorthOf(b.exchangeUsdt as real, b.walletBtc as real, price);
    WorthOf(b.walletUsdt as real, b.exchangeBtc as real, price);
    hide GetBalancingSmaller, Round, Times, Over;
  }

  /** The shortfall of bitcoin against USDT, and what it is worth. */
  lemma WorthOf(usdt: real, btc: real, price: real)
    requires price > 0.0
    ensures Times(usdt, Over(1.0, price)) == Over(usdt, price)
    ensures Times(Over(usdt, price) - btc, price) == usdt - Times(btc, price)
    ensures Over(usdt, price) - btc > 0.0 <==> usdt - Times(btc, price) > 0.0
  {
    Reciprocal(usdt, price);
    Quotient(usdt, price);
    var x := Over(usdt, price);
    assert Times(x - btc, price) == Times(x, price) - Times(btc, price);
    if x - btc > 0.0 {
      MulBelow(0.0, x - btc, price);
    } else {
      MulAtMost(x - btc, 0.0, price);
    }
    assert Times(0.0, price) == 0.0;
  }

  /** Without a price, or with an empty balance, nothing is recommended. */
  lemma NoAdvice(b: Balances, price: real)
    requires price == 0.0 || b.walletBtc == 0 || b.exchangeBtc == 0 || b.walletUsdt == 0 || b.exchangeUsdt == 0
    ensures GetBalancing(b, price).NoTransfer?
  {
  }

  function Next(b: Balances, price: real): Balances
    requires price > 0.0
  {
    AdviceIsCovered(b, price);
    Transferred(b, GetBalancing(b, price))
  }

  /** The smaller asset is in order. */
  ghost predicate SmallerInOrder(b: Balances, price: real) {
    if BitcoinSmaller(b, price) then GetBalancingSmaller(b.walletBtc, b.exchangeBtc).Keep?
    else GetBalancingSmaller(b.walletUsdt, b.exchangeUsdt).Keep?
  }

  lemma TotalsKept(b: Balances, price: real)
    requires price > 0.0
    ensures var n := Next(b, price);
            && n.walletBtc + n.exchangeBtc == b.walletBtc + b.exchangeBtc
            && n.walletUsdt + n.exchangeUsdt == b.walletUsdt + b.exchangeUsdt
            && (BitcoinSmaller(n, price) <==> BitcoinSmaller(b, price))
  {
    hide GetBalancing, Round;
    AdviceIsCovered(b, price);
  }

  /** After one transfer the smaller asset is in order. */
  lemma FirstTransfer(b: Balances, price: real)
    requires price > 0.0
    ensures var n := Next(b, price);
            GetBalancing(b, price).NoTransfer? || SomeEmpty(n) || SmallerInOrder(n, price)
  {
    if Positive(b) {
      TotalsKept(b, price);
      AdviceIsCovered(b, price);
      if BitcoinSmaller(b, price) {
        SmallerMoves(b.walletBtc, b.exchangeBtc);
      } else {
        SmallerMoves(b.walletUsdt, b.exchangeUsdt);
      }
      hide GetBalancingSmaller, GetBalancingBigger, Round, Times, Over, BitcoinSmaller, InRange;
    }
  }

  /** Half a satoshi is not worth a transfer. */
  ghost predicate HalfSatoshiIsCheap(b: Balances, price: real) {
    BitcoinSmaller(b, price) || price < DEAR
  }

  /** Once the smaller asset is in order, one more transfer settles everything. */
  lemma SecondTransfer(b: Balances, price: real)
    requires price > 0.0 && (SomeEmpty(b) || SmallerInOrder(b, price)) && HalfSatoshiIsCheap(b, price)
    ensures GetBalancing(Next(b, price), price).NoTransfer?
  {
    var n := Next(b, price);
    TotalsKept(b, price);
    AdviceIsCovered(b, price);
    if Positive(b) && !GetBalancing(b, price).NoTransfer? {
      PositiveInverse(price);
      if BitcoinSmaller(b, price) {
        UsdtOutweighs(b, price);
        BiggerMoves(b.walletUsdt, b.exchangeUsdt, b.walletBtc, b.exchangeBtc, price);
      } else {
        BitcoinOutweighs(b, price);
        BiggerMoves(b.walletBtc, b.exchangeBtc, b.walletUsdt, b.exchangeUsdt, Over(1.0, price));
        var m := GetBalancingBigger(n.walletBtc, n.exchangeBtc, n.walletUsdt, n.exchangeUsdt, Over(1.0, price));
        if Residual(m) && !m.Keep? {
          MulAtMost(m.amount, 0.5, price);
          assert Times(0.5, price) < MIN_BALANCING_AMOUNT;
        }
      }
      hide GetBalancingSmaller, GetBalancingBigger, Round, Times, Over, BitcoinSmaller;
    }
  }

  /** Two transfers settle any balances, the smaller asset first and then the bigger one, as long
      as half a satoshi is worth less than the smallest transfer. */
  lemma SettledAfterTwo(b: Balances, price: real)
    requires price > 0.0 && HalfSatoshiIsCheap(b, price)
    ensures GetBalancing(Next(Next(b, price), price), price).NoTransfer?
  {
    FirstTransfer(b, price);
    TotalsKept(b, price);
    var n := Next(b, price);
    hide GetBalancing, BitcoinSmaller, Next;
    if GetBalancing(b, price).NoTransfer? {
      NothingToDo(b, price);
      NothingToDo(n, price);
    } else {
      SecondTransfer(n, price);
    }
  }

  lemma NothingToDo(b: Balances, price: real)
    requires price > 0.0 && GetBalancing(b, price).NoTransfer?
    ensures Next(b, price) == b
  {
  }

  // ---- and only then ---------------------------------------------------------------------------------

  lemma SplitFloor(x: real) returns (k: int, g: real)
    ensures x == k as real + g && 0.0 <= g < 1.0
  {
    k := x.Floor;
    g := x - k as real;
  }

  lemma Distribute(a: real, b: real, c: real)
    ensures Times(a + b, c) == Times(a, c) + Times(b, c)
  {
  }

  /** Some multiple of a number below one half lies in the upper half of the unit interval. */
  lemma UpperHalf(h: real) returns (n: nat)
    requires 0.0 < h < 0.5
    ensures n >= 1 && 0.5 <= Times(n as real, h) < 1.0
  {
    var x := Over(0.5, h);
    Quotient(0.5, h);
    var k, g := SplitFloor(x);
    if k < 0 {
      MulAtMost(x, 0.0, h);
      assert false;
    }
    Distribute(k as real, g, h);
    Distribute(k as real, 1.0, h);
    MulAtMost(g, 1.0, h);
    MulAtMost(0.0, g, h);
    assert Times(1.0, h) == h && Times(0.0, h) == 0.0;
    n := k + 1;
  }

  /** For any distance there are whole numbers `k` and `v` with `v` in the lower half of the `k`-th step. */
  lemma LowerHalf(eps: real) returns (k: nat, v: nat)
    requires eps >= 0.0
    ensures k >= 2 && Times(k as real, eps) <= v as real <= Times(k as real, eps) + 0.5 * eps
  {
    if eps == 0.0 {
      k, v := 2, 0;
      return;
    }
    v := (2.0 * eps).Floor + 1;
    var x := Over(v as real, eps);
    Quotient(v as real, eps);
    DivideOut(2.0, x, 0.0, eps);
    var whole, g := SplitFloor(x);
    k := whole;
    if g <= 0.5 {
      InStep(k, g, eps, v);
    } else {
      var h := 1.0 - g;
      var n := UpperHalf(h);
      TimesOf(n, k, h, x);
      assert Times(Times(n as real, x), eps) == Times(n as real, v as real) by {
        assert n as real * x * eps == n as real * (x * eps);
      }
      assert Times(n as real, v as real) == (n * v) as real;
      AtLeastDouble(n, k);
      k, v := n * k + n - 1, n * v;
      InStep(k, 1.0 - Times(n as real, h), eps, v);
    }
  }

  lemma AtLeastDouble(n: nat, k: nat)
    requires n >= 1 && k >= 2
    ensures n * k + n - 1 >= 2
  {
    assert n * k >= 2;
  }

  lemma TimesOf(n: nat, k: nat, h: real, x: real)
    requires x == k as real + (1.0 - h)
    ensures Times(n as real, x) == (n * k + n - 1) as real + (1.0 - Times(n as real, h))
  {
    assert (n * k) as real == n as real * k as real;
    assert n as real * (k as real + (1.0 - h)) == n as real * k as real + n as real - n as real * h;
  }

  lemma InStep(k: nat, g: real, eps: real, v: nat)
    requires eps > 0.0 && 0.0 <= g <= 0.5 && Times(k as real + g, eps) == v as real
    ensures Times(k as real, eps) <= v as real <= Times(k as real, eps) + 0.5 * eps
  {
    Distribute(k as real, g, eps);
    MulAtMost(g, 0.5, eps);
    MulAtMost(0.0, g, eps);
    assert Times(0.5, eps) == 0.5 * eps && Times(0.0, eps) == 0.0;
  }

  /** From 2e11 on there is an amount of USDT that is worth a fraction of a satoshi beyond a whole
      number, at most one half, which is itself worth the smallest transfer. */
  lemma DearFraction(p: real) returns (k: nat, usdt: nat)
    requires p >= DEAR
    ensures k >= 2 && MIN_BALANCING_AMOUNT <= usdt as real - Times(k as real, p) <= 0.5 * p
  {
    var v: nat;
    k, v := LowerHalf(p - DEAR);
    usdt := 200_000_000_000 * k + 100_000_000_000 + v;
    assert Times(k as real, p) == Times(k as real, p - DEAR) + k as real * DEAR;
  }

  /** Both USDT balances are the same amount; there is just enough bitcoin to outweigh them. */
  function StuckAt(k: nat, usdt: nat, walletBtc: nat): Balances
    requires walletBtc <= 2 * k + 1
  {
    Balances(walletBtc, 2 * k + 1 - walletBtc, usdt, usdt)
  }

  /** The fraction of a satoshi. */
  ghost predicate Stuck(p: real, k: nat, usdt: nat, f: real) {
    && p > 0.0 && k >= 2 && 0.0 < f <= 0.5 && Times(f, p) >= MIN_BALANCING_AMOUNT
    && Times(usdt as real, Over(1.0, p)) == k as real + f
    && usdt as real == Times(k as real + f, p)
  }

  lemma StuckExists(p: real) returns (k: nat, usdt: nat, f: real)
    requires p >= DEAR
    ensures Stuck(p, k, usdt, f)
  {
    k, usdt := DearFraction(p);
    var x := Over(usdt as real, p);
    Quotient(usdt as real, p);
    f := x - k as real;
    Distribute(k as real, f, p);
    RatioVersusBounds(f, p);
    UndoPrice(x, p);
  }

  lemma RatioVersusBounds(f: real, p: real)
    requires p > 0.0 && MIN_BALANCING_AMOUNT <= Times(f, p) <= 0.5 * p
    ensures 0.0 < f <= 0.5
  {
    if f <= 0.0 {
      MulAtMost(f, 0.0, p);
      assert false;
    }
    if f > 0.5 {
      MulBelow(0.5, f, p);
      assert false;
    }
  }

  lemma StuckOutweighs(p: real, k: nat, usdt: nat, f: real)
    requires Stuck(p, k, usdt, f)
    ensures usdt > 0 && !BitcoinSmaller(StuckAt(k, usdt, 0), p)
  {
    Distribute(k as real, f, p);
    MulBelow(0.0, k as real, p);
    MulAtMost(2.0 * (k as real + f), (2 * k + 1) as real, p);
    assert Times(2.0 * (k as real + f), p) == 2.0 * Times(k as real + f, p);
    assert Times(0.0, p) == 0.0;
  }

  lemma StuckAdvice(p: real, k: nat, usdt: nat, f: real, walletBtc: nat)
    requires Stuck(p, k, usdt, f) && 1 <= walletBtc <= k + 1 && (walletBtc == k + 1 ==> f == 0.5)
    ensures GetBalancing(StuckAt(k, usdt, walletBtc), p) ==
            if walletBtc <= k then RecvBtc(k as real + f - walletBtc as real) else SendBtc(f)
  {
    var b := StuckAt(k, usdt, walletBtc);
    StuckOutweighs(p, k, usdt, f);
    SmallerMoves(usdt, usdt);
    var amount := if walletBtc <= k then k as real + f - walletBtc as real else f;
    MulAtMost(f, amount, p);
    assert GetBalancingBigger(b.walletBtc, b.exchangeBtc, usdt, usdt, Over(1.0, p)) ==
           if walletBtc <= k then Recv(amount) else Send(amount) by { hide Times, Over; }
    hide GetBalancingSmaller, GetBalancingBigger, Times, Over;
  }

  lemma HalvesRoundUp(n: nat)
    ensures Round(n as real + 0.5) == n + 1
  {
  }

  lemma StuckNext(p: real, k: nat, usdt: nat, f: real, walletBtc: nat)
    requires Stuck(p, k, usdt, f) && 1 <= walletBtc <= k + 1 && (walletBtc == k + 1 ==> f == 0.5)
    ensures Next(StuckAt(k, usdt, walletBtc), p) ==
            StuckAt(k, usdt, if f == 0.5 && walletBtc <= k then k + 1 else k)
  {
    StuckAdvice(p, k, usdt, f, walletBtc);
    if walletBtc == k + 1 {
      HalvesRoundUp(0);
    } else if f == 0.5 {
      HalvesRoundUp(k - walletBtc);
    } else {
      RoundUnique(k as real + f - walletBtc as real, k - walletBtc);
    }
    hide GetBalancing, Round, Stuck;
  }

  /** From 2e11 USDT per bitcoin on, some balances never settle: a rest below half a satoshi is
      still worth a transfer but rounds to nothing, and a rest of exactly one half is sent back and
      forth. */
  lemma NeverSettles(p: real, k: nat, usdt: nat, f: real)
    requires Stuck(p, k, usdt, f)
    ensures var b := StuckAt(k, usdt, k);
            && Next(Next(StuckAt(k, usdt, 1), p), p) == b
            && Next(Next(b, p), p) == b && !GetBalancing(b, p).NoTransfer?
  {
    StuckAdvice(p, k, usdt, f, k);
    StuckNext(p, k, usdt, f, 1);
    StuckNext(p, k, usdt, f, k);
    if f == 0.5 {
      StuckNext(p, k, usdt, f, k + 1);
    }
    hide GetBalancing, Next, StuckAt;
  }

  ghost predicate SettlesAlways(price: real)
    requires price > 0.0
  {
    forall b :: Positive(b) ==> GetBalancing(Next(Next(b, price), price), price).NoTransfer?
  }

  /** Two transfers settle all positive balances if and only if the price is below 2e11. */
  lemma SettlesExactlyBelow(price: real)
    requires price > 0.0
    ensures SettlesAlways(price) <==> price < DEAR
  {
    if price < DEAR {
      forall b | Positive(b) ensures GetBalancing(Next(Next(b, price), price), price).NoTransfer? {
        SettledAfterTwo(b, price);
      }
    } else {
      var k, usdt, f := StuckExists(price);
      NeverSettles(price, k, usdt, f);
      StuckOutweighs(price, k, usdt, f);
      assert Positive(StuckAt(k, usdt, 1));
      hide GetBalancing, Next, Stuck;
    }
  }
}
