/** The dealer's rebalancing episodes: one persisted transfer at a time, started by a command and
    advanced by timers and by the replies of the exchange. */
module TransferMachine {
  import opened Sequences

  type Txid = int

  datatype TransferState =
    | SendUsdtNew | SendUsdtWaitConfirm
    | RecvUsdtNew | RecvUsdtWaitWithdrawId | RecvUsdtWaitConfirm
    | SendBtcNew | SendBtcWaitLbtcBalance | SendBtcWaitConfirm
    | RecvBtcNew | RecvBtcWaitLbtcBalance | RecvBtcWaitWithdrawId | RecvBtcWaitConfirm
    | Complete | Failed

  datatype Transfer = Transfer(state: TransferState, amount: int, txid: Option<Txid>, withdrawId: Option<int>)

  datatype Kind = SendUsdt | RecvUsdt | SendBtc | RecvBtc

  datatype Currency = Usdt | Btc | Lbtc

  /** Everything that moves money. */
  datatype Action =
    | OnChainSend(currency: Currency, amount: int)
    | ExchangeTransfer(from: Currency, to: Currency, amount: int)
    | WithdrawRequest(currency: Currency, amount: int)

  /** History of an episode: what was asked for and what was done. */
  datatype Episode = Episode(kind: Kind, amount: int, actions: seq<Action>)

  datatype Movement = Movement(id: int, transactionId: Txid, completed: bool)
  datatype Movements = Movements(success: bool, items: seq<Movement>)

  datatype State = State(balancing: Option<Transfer>, movements: Option<Movements>, episodes: seq<Episode>)

  /** What the timer handler sees: balances in satoshi, connections, and the result of the wallet
      call it may make. */
  datatype Env = Env(
    walletUsdt: real, walletBtc: real, exchangeUsdt: real, exchangeBtc: real, exchangeLbtc: Option<real>,
    moduleConnected: bool, mainnet: bool, rpc: Option<Txid>)

  datatype Event =
    | Cli(kind: Kind, amount: int)
    | Timer(env: Env)
    | WithdrawReply(id: int)
    | MovementsReply(msg: Movements)
    | TransferReply(success: bool)

  datatype Outcome = Next(state: State) | Panic

  function Start(kind: Kind): TransferState {
    match kind
    case SendUsdt => SendUsdtNew
    case RecvUsdt => RecvUsdtNew
    case SendBtc => SendBtcNew
    case RecvBtc => RecvBtcNew
  }

  /** Note an action in the history of the current episode. */
  function Did(s: State, a: Action): State {
    if s.episodes == [] then s
    else
      var n := |s.episodes| - 1;
      s.(episodes := s.episodes[n := s.episodes[n].(actions := s.episodes[n].actions + [a])])
  }

  function Put(s: State, t: Transfer): State {
    s.(balancing := Some(t))
  }

  function OrZero(x: Option<real>): real {
    if x.Some? then x.value else 0.0
  }

  /** `process_balancing` */
  function OnTimer(s: State, env: Env): State {
    if s.balancing.None? then s
    else
      var t := s.balancing.value;
      var amount := t.amount as real;
      match t.state
      case SendUsdtNew =>
        if env.walletUsdt >= amount && env.walletBtc > 0.0 && env.moduleConnected then
          var s := Did(s, OnChainSend(Usdt, t.amount));
          if env.rpc.Some? then Put(s, t.(txid := env.rpc, state := SendUsdtWaitConfirm))
          else Put(s, t.(state := Failed))
        else s
      case RecvUsdtNew =>
        if (env.exchangeUsdt >= amount || !env.mainnet) && env.moduleConnected then
          Put(Did(s, WithdrawRequest(Usdt, t.amount)), t.(state := RecvUsdtWaitWithdrawId))
        else s
      case SendBtcNew =>
        if env.walletBtc >= amount && env.moduleConnected then
          var s := Did(s, OnChainSend(Btc, t.amount));
          if env.rpc.Some? then Put(s, t.(txid := env.rpc, state := SendBtcWaitLbtcBalance))
          else Put(s, t.(state := Failed))
        else s
      case SendBtcWaitLbtcBalance =>
        if OrZero(env.exchangeLbtc) == amount && env.moduleConnected then
          Put(Did(s, ExchangeTransfer(Lbtc, Btc, t.amount)), t.(state := SendBtcWaitConfirm))
        else s
      case SendBtcWaitConfirm =>
        if env.exchangeLbtc == Some(0.0) then Put(s, t.(state := Complete)) else s
      case RecvBtcNew =>
        if (env.exchangeBtc >= amount || !env.mainnet) && env.moduleConnected then
          Put(Did(s, ExchangeTransfer(Btc, Lbtc, t.amount)), t.(state := RecvBtcWaitLbtcBalance))
        else s
      case RecvBtcWaitLbtcBalance =>
        if OrZero(env.exchangeLbtc) == amount && env.moduleConnected then
          Put(Did(s, WithdrawRequest(Lbtc, t.amount)), t.(state := RecvBtcWaitWithdrawId))
        else s
      case Complete => s.(balancing := None)
      case _ => s
  }

  /** `process_withdraw` */
  function OnWithdraw(s: State, id: int): State {
    if s.balancing.None? then s
    else
      var t := s.balancing.value;
      if t.state.RecvUsdtWaitWithdrawId? && id > 0 && t.withdrawId.None? then
        Put(s, t.(withdrawId := Some(id), state := RecvUsdtWaitConfirm))
      else if t.state.RecvBtcWaitWithdrawId? && id > 0 && t.withdrawId.None? then
        Put(s, t.(withdrawId := Some(id), state := RecvBtcWaitConfirm))
      else Put(s, t.(state := Failed))
  }

  predicate CompletedTx(items: seq<Movement>, txid: Txid) {
    exists i :: 0 <= i < |items| && items[i].transactionId == txid && items[i].completed
  }

  predicate CompletedId(items: seq<Movement>, id: Option<int>) {
    exists i :: 0 <= i < |items| && Some(items[i].id) == id && items[i].completed
  }

  /** `process_movements`: a report counts only when it repeats the previous one. */
  function OnMovements(s: State, msg: Movements): Outcome {
    if !msg.success then Next(s)
    else if s.movements != Some(msg) then Next(s.(movements := Some(msg)))
    else if s.balancing.None? then Next(s)
    else
      var t := s.balancing.value;
      match t.state
      case SendUsdtWaitConfirm =>
        if t.txid.None? then Panic
        else if CompletedTx(msg.items, t.txid.value) then Next(Put(s, t.(state := Complete)))
        else Next(s)
      case RecvUsdtWaitConfirm =>
        if CompletedId(msg.items, t.withdrawId) then Next(Put(s, t.(state := Complete))) else Next(s)
      case RecvBtcWaitConfirm =>
        if CompletedId(msg.items, t.withdrawId) then Next(Put(s, t.(state := Complete))) else Next(s)
      case _ => Next(s)
  }

  /** `process_transfer` */
  function OnTransfer(s: State, success: bool): State {
    if s.balancing.None? || success then s else Put(s, s.balancing.value.(state := Failed))
  }

  /** The command that starts an episode, unless one is active. */
  function OnCli(s: State, kind: Kind, amount: int): State {
    if s.balancing.Some? then s
    else State(Some(Transfer(Start(kind), amount, None, None)), None,
               s.episodes + [Episode(kind, amount, [])])
  }

  function Handle(s: State, e: Event): Outcome {
    match e
    case Cli(kind, amount) => Next(OnCli(s, kind, amount))
    case Timer(env) => Next(OnTimer(s, env))
    case WithdrawReply(id) => Next(OnWithdraw(s, id))
    case MovementsReply(msg) => OnMovements(s, msg)
    case TransferReply(success) => Next(OnTransfer(s, success))
  }

  // ---- what an episode does ------------------------------------------------------------------------

  /** All an episode of a kind may ever do, in this order. */
  function Plan(kind: Kind, amount: int): seq<Action> {
    match kind
    case SendUsdt => [OnChainSend(Usdt, amount)]
    case RecvUsdt => [WithdrawRequest(Usdt, amount)]
    case SendBtc => [OnChainSend(Btc, amount), ExchangeTransfer(Lbtc, Btc, amount)]
    case RecvBtc => [ExchangeTransfer(Btc, Lbtc, amount), WithdrawRequest(Lbtc, amount)]
  }

  /** The states an episode of a kind can be in, and how much of the plan is done there. */
  function DoneIn(kind: Kind, state: TransferState): Option<nat> {
    match (kind, state)
    case (SendUsdt, SendUsdtNew) => Some(0)
    case (SendUsdt, SendUsdtWaitConfirm) => Some(1)
    case (RecvUsdt, RecvUsdtNew) => Some(0)
    case (RecvUsdt, RecvUsdtWaitWithdrawId) => Some(1)
    case (RecvUsdt, RecvUsdtWaitConfirm) => Some(1)
    case (SendBtc, SendBtcNew) => Some(0)
    case (SendBtc, SendBtcWaitLbtcBalance) => Some(1)
    case (SendBtc, SendBtcWaitConfirm) => Some(2)
    case (RecvBtc, RecvBtcNew) => Some(0)
    case (RecvBtc, RecvBtcWaitLbtcBalance) => Some(1)
    case (RecvBtc, RecvBtcWaitWithdrawId) => Some(2)
    case (RecvBtc, RecvBtcWaitConfirm) => Some(2)
    case (_, Complete) => Some(|Plan(kind, 0)|)
    case _ => None
  }

  /** An episode has done a prefix of its plan; how long a prefix, its state tells unless it failed. */
  ghost predicate OnPlan(t: Transfer, e: Episode) {
    && e.amount == t.amount
    && e.actions <= Plan(e.kind, e.amount)
    && (!t.state.Failed? ==> DoneIn(e.kind, t.state) == Some(|e.actions|))
  }

  ghost predicate Finished(e: Episode) {
    e.actions == Plan(e.kind, e.amount)
  }

  /** The confirming states hold what they wait for. */
  ghost predicate WellFormed(t: Transfer) {
    && (t.state.SendUsdtWaitConfirm? ==> t.txid.Some?)
    && (BeforeId(t.state) ==> t.withdrawId.None?)
    && (WaitsForId(t.state) ==> t.withdrawId.Some? && t.withdrawId.value > 0)
  }

  predicate BeforeId(state: TransferState) {
    || state.RecvUsdtNew? || state.RecvUsdtWaitWithdrawId?
    || state.RecvBtcNew? || state.RecvBtcWaitLbtcBalance? || state.RecvBtcWaitWithdrawId?
  }

  predicate WaitsForId(state: TransferState) {
    state.RecvUsdtWaitConfirm? || state.RecvBtcWaitConfirm?
  }

  /** All past episodes are finished; the active one is on plan. */
  ghost predicate Inv(s: State) {
    if s.balancing.None? then forall i :: 0 <= i < |s.episodes| ==> Finished(s.episodes[i])
    else
      && WellFormed(s.balancing.value)
      && s.episodes != [] && OnPlan(s.balancing.value, s.episodes[|s.episodes| - 1])
      && forall i :: 0 <= i < |s.episodes| - 1 ==> Finished(s.episodes[i])
  }

  function Rank(state: TransferState): nat {
    match state
    case SendUsdtNew => 0
    case RecvUsdtNew => 0
    case SendBtcNew => 0
    case RecvBtcNew => 0
    case SendUsdtWaitConfirm => 1
    case RecvUsdtWaitWithdrawId => 1
    case SendBtcWaitLbtcBalance => 1
    case RecvBtcWaitLbtcBalance => 1
    case RecvUsdtWaitConfirm => 2
    case SendBtcWaitConfirm => 2
    case RecvBtcWaitWithdrawId => 2
    case RecvBtcWaitConfirm => 3
    case Complete => 4
    case Failed => 5
  }

  /** Only three things happen to a transfer: nothing, an advance of the same episode, or the end of
      a completed one. A new transfer starts only where there is none. */
  ghost predicate Advances(a: Option<Transfer>, b: Option<Transfer>) {
    || a == b
    || (a.None? && b.Some? && Rank(b.value.state) == 0)
    || (a.Some? && a.value.state.Complete? && b.None?)
    || (a.Some? && b.Some? && a.value.amount == b.value.amount && Rank(a.value.state) < Rank(b.value.state))
  }

  /** The transfer changes and the episode stays on plan. */
  lemma MoveKeepsInv(s: State, t: Transfer)
    requires Inv(s) && s.balancing.Some? && WellFormed(t)
    requires OnPlan(t, s.episodes[|s.episodes| - 1])
    ensures Inv(Put(s, t))
  {
  }

  lemma FailKeepsInv(s: State)
    requires Inv(s) && s.balancing.Some?
    ensures Inv(Put(s, s.balancing.value.(state := Failed)))
  {
  }

  /** The transfer changes with the next action of the plan. */
  lemma ActKeepsInv(s: State, a: Action, t: Transfer)
    requires Inv(s) && s.balancing.Some? && !s.balancing.value.state.Failed?
    requires WellFormed(t) && t.amount == s.balancing.value.amount
    requires var e := s.episodes[|s.episodes| - 1];
             && |e.actions| < |Plan(e.kind, e.amount)| && a == Plan(e.kind, e.amount)[|e.actions|]
             && (t.state.Failed? || DoneIn(e.kind, t.state) == Some(|e.actions| + 1))
    ensures Inv(Put(Did(s, a), t))
  {
    hide WellFormed, Plan, DoneIn;
  }

  lemma SendTimerKeepsInv(s: State, env: Env)
    requires Inv(s) && s.balancing.Some?
    requires var st := s.balancing.value.state;
             st.SendUsdtNew? || st.SendBtcNew? || st.SendBtcWaitLbtcBalance? || st.SendBtcWaitConfirm?
    ensures Inv(OnTimer(s, env))
  {
    hide Did;
    var t := s.balancing.value;
    match t.state
    case SendUsdtNew =>
      ActKeepsInv(s, OnChainSend(Usdt, t.amount), t.(state := Failed));
      if env.rpc.Some? {
        ActKeepsInv(s, OnChainSend(Usdt, t.amount), t.(txid := env.rpc, state := SendUsdtWaitConfirm));
      }
    case SendBtcNew =>
      ActKeepsInv(s, OnChainSend(Btc, t.amount), t.(state := Failed));
      ActKeepsInv(s, OnChainSend(Btc, t.amount), t.(txid := env.rpc, state := SendBtcWaitLbtcBalance));
    case SendBtcWaitLbtcBalance =>
      ActKeepsInv(s, ExchangeTransfer(Lbtc, Btc, t.amount), t.(state := SendBtcWaitConfirm));
    case SendBtcWaitConfirm =>
      MoveKeepsInv(s, t.(state := Complete));
  }

  lemma RecvTimerKeepsInv(s: State, env: Env)
    requires Inv(s) && s.balancing.Some?
    requires var st := s.balancing.value.state;
             st.RecvUsdtNew? || st.RecvBtcNew? || st.RecvBtcWaitLbtcBalance?
    ensures Inv(OnTimer(s, env))
  {
    hide Did;
    var t := s.balancing.value;
    match t.state
    case RecvUsdtNew =>
      ActKeepsInv(s, WithdrawRequest(Usdt, t.amount), t.(state := RecvUsdtWaitWithdrawId));
    case RecvBtcNew =>
      ActKeepsInv(s, ExchangeTransfer(Btc, Lbtc, t.amount), t.(state := RecvBtcWaitLbtcBalance));
    case RecvBtcWaitLbtcBalance =>
      ActKeepsInv(s, WithdrawRequest(Lbtc, t.amount), t.(state := RecvBtcWaitWithdrawId));
  }

  lemma TimerKeepsInv(s: State, env: Env)
    requires Inv(s)
    ensures Inv(OnTimer(s, env)) && Advances(s.balancing, OnTimer(s, env).balancing)
  {
    hide Inv, OnTimer, Advances;
    TimerAdvances(s, env);
    if s.balancing.Some? {
      var st := s.balancing.value.state;
      if st.SendUsdtNew? || st.SendBtcNew? || st.SendBtcWaitLbtcBalance? || st.SendBtcWaitConfirm? {
        SendTimerKeepsInv(s, env);
      } else if st.RecvUsdtNew? || st.RecvBtcNew? || st.RecvBtcWaitLbtcBalance? {
        RecvTimerKeepsInv(s, env);
      } else if st.Complete? {
        CompleteTimerKeepsInv(s, env);
      } else {
        TimerIdles(s, env);
      }
    } else {
      TimerIdles(s, env);
    }
  }

  lemma TimerAdvances(s: State, env: Env)
    ensures Advances(s.balancing, OnTimer(s, env).balancing)
  {
    hide Inv;
  }

  /** The states that wait for a reply. */
  lemma TimerIdles(s: State, env: Env)
    requires s.balancing.None? ||
             var st := s.balancing.value.state;
             || st.SendUsdtWaitConfirm? || st.RecvUsdtWaitWithdrawId? || st.RecvUsdtWaitConfirm?
             || st.RecvBtcWaitWithdrawId? || st.RecvBtcWaitConfirm? || st.Failed?
    ensures OnTimer(s, env) == s
  {
  }

  /** A completed episode has done its whole plan. */
  lemma CompleteTimerKeepsInv(s: State, env: Env)
    requires Inv(s) && s.balancing.Some? && s.balancing.value.state.Complete?
    ensures Inv(OnTimer(s, env))
  {
    var e := s.episodes[|s.episodes| - 1];
    assert e.actions == Plan(e.kind, e.amount);
    hide Plan, DoneIn, WellFormed;
  }

  lemma WithdrawKeepsInv(s: State, id: int)
    requires Inv(s)
    ensures Inv(OnWithdraw(s, id)) && Advances(s.balancing, OnWithdraw(s, id).balancing)
  {
    if s.balancing.Some? {
      var t := s.balancing.value;
      FailKeepsInv(s);
      if t.state.RecvUsdtWaitWithdrawId? && id > 0 {
        MoveKeepsInv(s, t.(withdrawId := Some(id), state := RecvUsdtWaitConfirm));
      } else if t.state.RecvBtcWaitWithdrawId? && id > 0 {
        MoveKeepsInv(s, t.(withdrawId := Some(id), state := RecvBtcWaitConfirm));
      }
    }
  }

  lemma MovementsKeepInv(s: State, msg: Movements)
    requires Inv(s)
    ensures OnMovements(s, msg).Next?
    ensures Inv(OnMovements(s, msg).state) && Advances(s.balancing, OnMovements(s, msg).state.balancing)
  {
    if s.balancing.Some? {
      var t := s.balancing.value;
      if t.state.SendUsdtWaitConfirm? || t.state.RecvUsdtWaitConfirm? || t.state.RecvBtcWaitConfirm? {
        MoveKeepsInv(s, t.(state := Complete));
      }
    }
  }

  /** Every event keeps the invariant, moves the transfer forward or not at all, and never panics. */
  lemma HandleKeepsInv(s: State, e: Event)
    requires Inv(s)
    ensures Handle(s, e).Next?
    ensures Inv(Handle(s, e).state) && Advances(s.balancing, Handle(s, e).state.balancing)
  {
    match e
    case Timer(env) => TimerKeepsInv(s, env); hide OnTimer, Inv;
    case WithdrawReply(id) => WithdrawKeepsInv(s, id); hide OnWithdraw, Inv;
    case MovementsReply(msg) => MovementsKeepInv(s, msg); hide OnMovements, Inv;
    case Cli(kind, amount) =>
    case TransferReply(success) =>
      if s.balancing.Some? {
        FailKeepsInv(s);
      }
  }

  function Exec(s: State, events: seq<Event>): Outcome {
    if events == [] then Next(s)
    else
      var o := Exec(s, events[..|events| - 1]);
      if o.Panic? then Panic else Handle(o.state, events[|events| - 1])
  }

  /** Over every run from a consistent state: no panic, and every episode, past or present, has done
      a prefix of the plan of its own direction for its own amount. */
  lemma {:induction false} EpisodesFollowTheirPlan(s: State, events: seq<Event>)
    requires Inv(s)
    ensures var o := Exec(s, events);
            && o.Next? && Inv(o.state)
            && forall i :: 0 <= i < |o.state.episodes| ==>
                 o.state.episodes[i].actions <= Plan(o.state.episodes[i].kind, o.state.episodes[i].amount)
    decreases |events|
  {
    if events != [] {
      EpisodesFollowTheirPlan(s, events[..|events| - 1]);
      HandleKeepsInv(Exec(s, events[..|events| - 1]).state, events[|events| - 1]);
    }
    hide Handle, Inv;
    InvMeansOnPlan(Exec(s, events).state);
  }

  lemma InvMeansOnPlan(s: State)
    requires Inv(s)
    ensures forall i :: 0 <= i < |s.episodes| ==>
              s.episodes[i].actions <= Plan(s.episodes[i].kind, s.episodes[i].amount)
  {
    hide DoneIn, WellFormed, Plan;
  }

  /** The plan makes at most one on-chain send, one exchange transfer and one withdrawal. */
  lemma PlanIsOnce(kind: Kind, amount: int, done: seq<Action>, i: nat, j: nat)
    requires done <= Plan(kind, amount) && i < j < |done|
    ensures !(done[i].OnChainSend? && done[j].OnChainSend?)
    ensures !(done[i].ExchangeTransfer? && done[j].ExchangeTransfer?)
    ensures !(done[i].WithdrawRequest? && done[j].WithdrawRequest?)
    ensures done[i].amount == amount == done[j].amount
  {
  }

  /** A failed episode stays and blocks: no event changes it, starts another one or moves money. */
  lemma {:induction false} FailedBlocks(s: State, events: seq<Event>)
    requires s.balancing.Some? && s.balancing.value.state.Failed?
    ensures var o := Exec(s, events);
            o.Next? && o.state.balancing == s.balancing && o.state.episodes == s.episodes
    decreases |events|
  {
    if events != [] {
      FailedBlocks(s, events[..|events| - 1]);
    }
  }

  // ---- when an episode moves on ------------------------------------------------------------------------

  /** The report lists a movement that is marked completed and has the transaction, or the id. */
  ghost predicate Reports(t: Transfer, items: seq<Movement>) {
    exists i :: 0 <= i < |items| && items[i].completed &&
      ((t.state.SendUsdtWaitConfirm? && t.txid == Some(items[i].transactionId))
       || ((t.state.RecvUsdtWaitConfirm? || t.state.RecvBtcWaitConfirm?) && t.withdrawId == Some(items[i].id)))
  }

  /** A live transfer becomes complete exactly if a successful report repeats the stored one and lists
      its transaction or withdrawal as completed, or if, waiting for the exchange to turn L-BTC into
      bitcoin, a timer finds the L-BTC balance at zero. */
  lemma CompletesExactly(s: State, e: Event)
    requires Inv(s) && s.balancing.Some? && !s.balancing.value.state.Complete? && !s.balancing.value.state.Failed?
    ensures var t, o := s.balancing.value, Handle(s, e);
            o.Next? &&
            ((o.state.balancing.Some? && o.state.balancing.value.state.Complete?) <==>
               || (e.MovementsReply? && e.msg.success && s.movements == Some(e.msg) && Reports(t, e.msg.items))
               || (e.Timer? && t.state.SendBtcWaitConfirm? && e.env.exchangeLbtc == Some(0.0)))
  {
    HandleKeepsInv(s, e);
    hide Inv, Did;
    if e.MovementsReply? {
      ReportsExactly(s.balancing.value, e.msg.items);
      if s.balancing.value.state.SendUsdtWaitConfirm? {
        HoldsTxid(s);
      }
      hide Reports, CompletedTx, CompletedId;
    }
  }

  lemma ReportsExactly(t: Transfer, items: seq<Movement>)
    ensures Reports(t, items) <==>
            || (t.state.SendUsdtWaitConfirm? && t.txid.Some? && CompletedTx(items, t.txid.value))
            || ((t.state.RecvUsdtWaitConfirm? || t.state.RecvBtcWaitConfirm?) && CompletedId(items, t.withdrawId))
  {
    if Reports(t, items) {
      var i :| 0 <= i < |items| && items[i].completed &&
        ((t.state.SendUsdtWaitConfirm? && t.txid == Some(items[i].transactionId))
         || ((t.state.RecvUsdtWaitConfirm? || t.state.RecvBtcWaitConfirm?) && t.withdrawId == Some(items[i].id)));
      assert t.state.SendUsdtWaitConfirm? ==> items[i].transactionId == t.txid.value && items[i].completed;
      assert !t.state.SendUsdtWaitConfirm? ==> Some(items[i].id) == t.withdrawId && items[i].completed;
    }
    if t.state.SendUsdtWaitConfirm? && t.txid.Some? && CompletedTx(items, t.txid.value) {
      var i :| 0 <= i < |items| && items[i].transactionId == t.txid.value && items[i].completed;
      assert items[i].completed && t.txid == Some(items[i].transactionId);
    }
    if (t.state.RecvUsdtWaitConfirm? || t.state.RecvBtcWaitConfirm?) && CompletedId(items, t.withdrawId) {
      var i :| 0 <= i < |items| && Some(items[i].id) == t.withdrawId && items[i].completed;
      assert items[i].completed && t.withdrawId == Some(items[i].id);
    }
  }

  /** The transfer after the timer, and the one action it took, if any. */
  ghost predicate MovesTo(s: State, env: Env, state: TransferState, txid: Option<Txid>, a: Action)
    requires s.balancing.Some?
  {
    && OnTimer(s, env).balancing == Some(s.balancing.value.(state := state, txid := txid))
    && s.episodes != []
    && var n := |s.episodes| - 1;
       OnTimer(s, env).episodes == s.episodes[n := s.episodes[n].(actions := s.episodes[n].actions + [a])]
  }

  ghost predicate Stays(s: State, env: Env) {
    OnTimer(s, env) == s
  }

  /** When a send goes on: the wallet holds the amount (and some bitcoin for the network fee of a USDT
      send) and the exchange is connected; when a bitcoin send asks for its exchange transfer: the
      exchange holds exactly the amount as L-BTC. */
  lemma SendsExactly(s: State, env: Env)
    requires Inv(s) && s.balancing.Some?
    ensures var t, x := s.balancing.value, s.balancing.value.amount as real;
            && (t.state.SendUsdtNew? ==>
                  if env.moduleConnected && env.walletUsdt >= x && env.walletBtc > 0.0 then
                    if env.rpc.Some? then MovesTo(s, env, SendUsdtWaitConfirm, env.rpc, OnChainSend(Usdt, t.amount))
                    else MovesTo(s, env, Failed, t.txid, OnChainSend(Usdt, t.amount))
                  else Stays(s, env))
            && (t.state.SendBtcNew? ==>
                  if env.moduleConnected && env.walletBtc >= x then
                    if env.rpc.Some? then MovesTo(s, env, SendBtcWaitLbtcBalance, env.rpc, OnChainSend(Btc, t.amount))
                    else MovesTo(s, env, Failed, t.txid, OnChainSend(Btc, t.amount))
                  else Stays(s, env))
            && (t.state.SendBtcWaitLbtcBalance? ==>
                  if env.moduleConnected && (env.exchangeLbtc == Some(x) || (env.exchangeLbtc.None? && x == 0.0)) then
                    MovesTo(s, env, SendBtcWaitConfirm, t.txid, ExchangeTransfer(Lbtc, Btc, t.amount))
                  else Stays(s, env))
            && (t.state.SendBtcWaitConfirm? && env.exchangeLbtc != Some(0.0) ==> Stays(s, env))
  {
    HasEpisode(s);
    hide Inv;
  }

  /** When a receive goes on: the exchange holds the amount (which is not checked on test networks) and
      is connected; when a bitcoin receive asks for its withdrawal: the exchange holds exactly the
      amount as L-BTC. */
  lemma ReceivesExactly(s: State, env: Env)
    requires Inv(s) && s.balancing.Some?
    ensures var t, x := s.balancing.value, s.balancing.value.amount as real;
            && (t.state.RecvUsdtNew? ==>
                  if env.moduleConnected && (env.exchangeUsdt >= x || !env.mainnet) then
                    MovesTo(s, env, RecvUsdtWaitWithdrawId, t.txid, WithdrawRequest(Usdt, t.amount))
                  else Stays(s, env))
            && (t.state.RecvBtcNew? ==>
                  if env.moduleConnected && (env.exchangeBtc >= x || !env.mainnet) then
                    MovesTo(s, env, RecvBtcWaitLbtcBalance, t.txid, ExchangeTransfer(Btc, Lbtc, t.amount))
                  else Stays(s, env))
            && (t.state.RecvBtcWaitLbtcBalance? ==>
                  if env.moduleConnected && (env.exchangeLbtc == Some(x) || (env.exchangeLbtc.None? && x == 0.0)) then
                    MovesTo(s, env, RecvBtcWaitWithdrawId, t.txid, WithdrawRequest(Lbtc, t.amount))
                  else Stays(s, env))
            && (t.state.Complete? ==> OnTimer(s, env) == s.(balancing := None))
  {
    HasEpisode(s);
    hide Inv;
  }

  lemma HasEpisode(s: State)
    requires Inv(s) && s.balancing.Some?
    ensures s.episodes != []
  {
  }

  /** A positive withdraw id is taken by the two states that wait for one; a report is stored when it
      differs from the last one, and only then. */
  lemma RepliesExactly(s: State, id: int, msg: Movements)
    requires Inv(s) && s.balancing.Some?
    ensures var t := s.balancing.value;
            && (t.state.RecvUsdtWaitWithdrawId? && id > 0 ==>
                  OnWithdraw(s, id) == s.(balancing := Some(t.(state := RecvUsdtWaitConfirm, withdrawId := Some(id)))))
            && (t.state.RecvBtcWaitWithdrawId? && id > 0 ==>
                  OnWithdraw(s, id) == s.(balancing := Some(t.(state := RecvBtcWaitConfirm, withdrawId := Some(id)))))
            && OnMovements(s, msg).Next?
            && OnMovements(s, msg).state.movements ==
               (if msg.success && s.movements != Some(msg) then Some(msg) else s.movements)
  {
    NoIdYet(s);
    MovementsKeepInv(s, msg);
    hide Inv;
  }

  /** A command starts an episode of its kind and amount, with no transaction, id or report, exactly if
      there is none. */
  lemma StartsExactly(s: State, kind: Kind, amount: int)
    ensures s.balancing.Some? ==> OnCli(s, kind, amount) == s
    ensures s.balancing.None? ==>
              var t := OnCli(s, kind, amount);
              && t.movements.None? && t.episodes == s.episodes + [Episode(kind, amount, [])]
              && t.balancing.Some? && t.balancing.value.amount == amount
              && t.balancing.value.txid.None? && t.balancing.value.withdrawId.None?
              && (t.balancing.value.state.SendUsdtNew? <==> kind.SendUsdt?)
              && (t.balancing.value.state.RecvUsdtNew? <==> kind.RecvUsdt?)
              && (t.balancing.value.state.SendBtcNew? <==> kind.SendBtc?)
              && (t.balancing.value.state.RecvBtcNew? <==> kind.RecvBtc?)
  {
  }

  // ---- what fails an episode -------------------------------------------------------------------------

  /** The event fails a live transfer: a failed exchange transfer is reported, a withdraw id arrives
      that nothing waits for or that is not positive, or the wallet call of a send fails. */
  predicate Fails(t: Transfer, e: Event) {
    match e
    case TransferReply(success) => !success
    case WithdrawReply(id) => id <= 0 || !(t.state.RecvUsdtWaitWithdrawId? || t.state.RecvBtcWaitWithdrawId?)
    case Timer(env) =>
      && env.rpc.None? && env.moduleConnected
      && ((t.state.SendUsdtNew? && env.walletUsdt >= t.amount as real && env.walletBtc > 0.0)
          || (t.state.SendBtcNew? && env.walletBtc >= t.amount as real))
    case _ => false
  }

  lemma FailsExactly(s: State, e: Event)
    requires Inv(s) && s.balancing.Some? && !s.balancing.value.state.Failed?
    ensures var o := Handle(s, e);
            o.Next? && ((o.state.balancing.Some? && o.state.balancing.value.state.Failed?) <==>
                        Fails(s.balancing.value, e))
  {
    HandleKeepsInv(s, e);
    NoIdYet(s);
    hide Inv, Did, CompletedTx, CompletedId;
  }

  lemma NoIdYet(s: State)
    requires Inv(s) && s.balancing.Some?
    ensures BeforeId(s.balancing.value.state) ==> s.balancing.value.withdrawId.None?
  {
  }

  predicate AskedTransfer(e: Episode) {
    exists i :: 0 <= i < |e.actions| && e.actions[i].ExchangeTransfer?
  }

  predicate AskedWithdraw(e: Episode) {
    exists i :: 0 <= i < |e.actions| && e.actions[i].WithdrawRequest?
  }

  /** Whether a reply can be to something the current episode has asked for, told from its state; a
      completed episode has done all of its plan. */
  lemma AskedExactly(s: State)
    requires Inv(s) && s.balancing.Some? && !s.balancing.value.state.Failed?
    ensures var st, e := s.balancing.value.state, s.episodes[|s.episodes| - 1];
            && (AskedTransfer(e) <==>
                  || st.SendBtcWaitConfirm? || st.RecvBtcWaitLbtcBalance? || st.RecvBtcWaitWithdrawId?
                  || st.RecvBtcWaitConfirm? || (st.Complete? && (e.kind.SendBtc? || e.kind.RecvBtc?)))
            && (AskedWithdraw(e) <==>
                  || st.RecvUsdtWaitWithdrawId? || st.RecvUsdtWaitConfirm? || st.RecvBtcWaitWithdrawId?
                  || st.RecvBtcWaitConfirm? || (st.Complete? && (e.kind.RecvUsdt? || e.kind.RecvBtc?)))
  {
    var e := s.episodes[|s.episodes| - 1];
    var plan := Plan(e.kind, e.amount);
    assert e.actions == plan[..|e.actions|];
    assert |e.actions| >= 1 ==> e.actions[0] == plan[0];
    assert |e.actions| >= 2 ==> e.actions[1] == plan[1];
    assert |e.actions| <= |plan| <= 2;
  }

  /** An episode does not fail only through its own replies: a late report of a failed transfer fails a
      new episode of any kind, which has asked for nothing yet, and so does a late withdraw id. */
  lemma ForeignReplyFails(s: State, kind: Kind, amount: int, id: int)
    requires s.balancing.None?
    ensures var started := OnCli(s, kind, amount);
            && started.episodes == s.episodes + [Episode(kind, amount, [])]
            && OnTransfer(started, false).balancing == Some(Transfer(Failed, amount, None, None))
            && OnWithdraw(started, id).balancing == Some(Transfer(Failed, amount, None, None))
            && OnTransfer(started, false).episodes == started.episodes == OnWithdraw(started, id).episodes
  {
  }

  // ---- the handlers --------------------------------------------------------------------------------

  class Storage {
    var balancing: Option<Transfer>
    var movements: Option<Movements>
    ghost var episodes: seq<Episode>

    ghost function Current(): State
      reads this
    {
      State(balancing, movements, episodes)
    }

    /** Past episodes are finished and the current one is on plan. */
    ghost predicate Valid()
      reads this
    {
      Inv(Current())
    }

    constructor ()
      ensures Current() == State(None, None, []) && Valid()
    {
      balancing, movements, episodes := None, None, [];
    }

    method UpdateState(state: TransferState)
      requires balancing.Some?
      modifies this`balancing
      ensures balancing == Some(old(balancing).value.(state := state))
    {
      balancing := Some(balancing.value.(state := state));
    }

    ghost method Note(a: Action)
      modifies this`episodes
      ensures Current() == Did(old(Current()), a)
    {
      if episodes != [] {
        var n := |episodes| - 1;
        episodes := episodes[n := episodes[n].(actions := episodes[n].actions + [a])];
      }
    }

    method ProcessBalancing(env: Env)
      requires Valid()
      modifies this
      ensures Valid() && Advances(old(balancing), balancing)
      ensures Current() == OnTimer(old(Current()), env)
    {
      hide Inv, Advances;
      TimerKeepsInv(Current(), env);
      hide Did;
      if balancing.None? {
        return;
      }
      var t := balancing.value;
      var amount := t.amount as real;
      match t.state {
        case SendUsdtNew =>
          if env.walletUsdt >= amount && env.walletBtc > 0.0 && env.moduleConnected {
            Note(OnChainSend(Usdt, t.amount));
            if env.rpc.Some? {
              balancing := Some(t.(txid := env.rpc));
              UpdateState(SendUsdtWaitConfirm);
            } else {
              UpdateState(Failed);
            }
          }
        case RecvUsdtNew =>
          if (env.exchangeUsdt >= amount || !env.mainnet) && env.moduleConnected {
            Note(WithdrawRequest(Usdt, t.amount));
            UpdateState(RecvUsdtWaitWithdrawId);
          }
        case SendBtcNew =>
          if env.walletBtc >= amount && env.moduleConnected {
            Note(OnChainSend(Btc, t.amount));
            if env.rpc.Some? {
              balancing := Some(t.(txid := env.rpc));
              UpdateState(SendBtcWaitLbtcBalance);
            } else {
              UpdateState(Failed);
            }
          }
        case SendBtcWaitLbtcBalance =>
          if OrZero(env.exchangeLbtc) == amount && env.moduleConnected {
            Note(ExchangeTransfer(Lbtc, Btc, t.amount));
            UpdateState(SendBtcWaitConfirm);
          }
        case SendBtcWaitConfirm =>
          if env.exchangeLbtc == Some(0.0) {
            UpdateState(Complete);
          }
        case RecvBtcNew =>
          if (env.exchangeBtc >= amount || !env.mainnet) && env.moduleConnected {
            Note(ExchangeTransfer(Btc, Lbtc, t.amount));
            UpdateState(RecvBtcWaitLbtcBalance);
          }
        case RecvBtcWaitLbtcBalance =>
          if OrZero(env.exchangeLbtc) == amount && env.moduleConnected {
            Note(WithdrawRequest(Lbtc, t.amount));
            UpdateState(RecvBtcWaitWithdrawId);
          }
        case Complete =>
          balancing := None;
        case _ =>
      }
    }

    method ProcessWithdraw(id: int)
      requires Valid()
      modifies this
      ensures Valid() && Advances(old(balancing), balancing)
      ensures Current() == OnWithdraw(old(Current()), id)
    {
      hide Inv, Advances;
      WithdrawKeepsInv(Current(), id);
      if balancing.Some? {
        var t := balancing.value;
        if t.state.RecvUsdtWaitWithdrawId? && id > 0 && t.withdrawId.None? {
          balancing := Some(t.(withdrawId := Some(id)));
          UpdateState(RecvUsdtWaitConfirm);
        } else if t.state.RecvBtcWaitWithdrawId? && id > 0 && t.withdrawId.None? {
          balancing := Some(t.(withdrawId := Some(id)));
          UpdateState(RecvBtcWaitConfirm);
        } else {
          UpdateState(Failed);
        }
      }
    }

    /** The `unwrap` of the txid never fails. */
    method ProcessMovements(msg: Movements)
      requires Valid()
      modifies this
      ensures Valid() && Advances(old(balancing), balancing)
      ensures OnMovements(old(Current()), msg) == Next(Current())
    {
      MovementsKeepInv(Current(), msg);
      hide Inv, Advances;
      if !msg.success {
        return;
      }
      if movements != Some(msg) {
        movements := Some(msg);
        return;
      }
      if balancing.Some? {
        var t := balancing.value;
        var found := false;
        if t.state.SendUsdtWaitConfirm? {
          HoldsTxid(Current());
          found := FindTx(msg.items, t.txid.value);
        } else if t.state.RecvUsdtWaitConfirm? || t.state.RecvBtcWaitConfirm? {
          found := FindId(msg.items, t.withdrawId);
        }
        if found {
          UpdateState(Complete);
        }
      }
    }

    method ProcessTransfer(success: bool)
      requires Valid()
      modifies this
      ensures Valid() && Advances(old(balancing), balancing)
      ensures Current() == OnTransfer(old(Current()), success)
    {
      hide Inv, Advances;
      HandleKeepsInv(Current(), TransferReply(success));
      if balancing.Some? && !success {
        UpdateState(Failed);
      }
    }

    /** The `Cli` step of the main loop; the result tells whether an episode was started. */
    method StartEpisode(kind: Kind, amount: int) returns (started: bool)
      requires Valid()
      modifies this
      ensures Valid() && Advances(old(balancing), balancing)
      ensures Current() == OnCli(old(Current()), kind, amount)
      ensures started <==> old(balancing).None?
    {
      hide Inv, Advances;
      HandleKeepsInv(Current(), Cli(kind, amount));
      if balancing.Some? {
        return false;
      }
      movements := None;
      balancing := Some(Transfer(Start(kind), amount, None, None));
      episodes := episodes + [Episode(kind, amount, [])];
      started := true;
    }
  }

  lemma HoldsTxid(s: State)
    requires Inv(s) && s.balancing.Some? && s.balancing.value.state.SendUsdtWaitConfirm?
    ensures s.balancing.value.txid.Some?
  {
  }

  method FindTx(items: seq<Movement>, txid: Txid) returns (found: bool)
    ensures found == CompletedTx(items, txid)
  {
    for i := 0 to |items|
      invariant forall j :: 0 <= j < i ==> !(items[j].transactionId == txid && items[j].completed)
    {
      if items[i].transactionId == txid && items[i].completed {
        return true;
      }
    }
    found := false;
  }

  method FindId(items: seq<Movement>, id: Option<int>) returns (found: bool)
    ensures found == CompletedId(items, id)
  {
    for i := 0 to |items|
      invariant forall j :: 0 <= j < i ==> !(Some(items[j].id) == id && items[j].completed)
    {
      if Some(items[i].id) == id && items[i].completed {
        return true;
      }
    }
    found := false;
  }
}
