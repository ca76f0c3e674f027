/** The transaction list of one account during one login: which transactions the interface has
    been shown, and which of them are final. */
module TxMirror {
  import opened Sequences

  type Txid = int

  const CONF_COUNT: nat := 2

  // ---- confirmations -------------------------------------------------------------------------------

  predicate ConfirmedTx(txBlock: nat, topBlock: nat) {
    txBlock != 0 && topBlock != 0 && txBlock <= topBlock && topBlock + 1 - txBlock >= CONF_COUNT
  }

  datatype Confs = Confs(count: nat, total: nat)

  /** `None` is a final transaction. A reported height above the top block counts as unconfirmed. */
  function TxItemConfs(reported: nat, topBlock: nat): Option<Confs> {
    var txBlock := if reported > topBlock then 0 else reported;
    if ConfirmedTx(txBlock, topBlock) then None
    else Some(Confs(if txBlock == 0 then 0 else topBlock + 1 - txBlock, CONF_COUNT))
  }

  /** A transaction is final exactly when it is confirmed; otherwise the count is short of the total. */
  lemma ConfsMeanUnconfirmed(txBlock: nat, topBlock: nat)
    ensures TxItemConfs(txBlock, topBlock).None? <==> ConfirmedTx(txBlock, topBlock)
    ensures TxItemConfs(txBlock, topBlock).Some? ==>
              TxItemConfs(txBlock, topBlock).value.count < TxItemConfs(txBlock, topBlock).value.total == 2
  {
  }

  /** In numbers: a transaction is final from the second block on; in the top block it has one of two
      confirmations, and none when it is not in a block or in one above the top. */
  lemma ConfsExactly(txBlock: nat, topBlock: nat)
    ensures TxItemConfs(txBlock, topBlock) ==
            if 1 <= txBlock && txBlock + 1 <= topBlock then None
            else Some(Confs(if txBlock == topBlock && topBlock >= 1 then 1 else 0, 2))
  {
  }

  /** Once final, final at every later top block. */
  lemma FinalStaysFinal(txBlock: nat, topBlock: nat, later: nat)
    requires topBlock <= later && TxItemConfs(txBlock, topBlock).None?
    ensures TxItemConfs(txBlock, later).None?
  {
  }

  // ---- the list ------------------------------------------------------------------------------------

  datatype Tx = Tx(txid: Txid, block: nat, body: int)
  datatype Item = Item(body: int, confs: Option<Confs>)
  datatype TxMsg = UpdatedTxs(items: map<Txid, Item>) | RemovedTxs(ids: set<Txid>)

  datatype State = State(confirmed: set<Txid>, unconfirmed: set<Txid>, ui: seq<TxMsg>)

  function Init(): State {
    State({}, {}, [])
  }

  /** What the interface shows after a list of messages. */
  function Replay(msgs: seq<TxMsg>): map<Txid, Item> {
    if msgs == [] then map[]
    else Shown(Replay(msgs[..|msgs| - 1]), msgs[|msgs| - 1])
  }

  function Shown(before: map<Txid, Item>, m: TxMsg): map<Txid, Item> {
    match m
    case UpdatedTxs(items) => before + items
    case RemovedTxs(ids) => before - ids
  }

  /** The items to send: every transaction not final yet, the last entry for an id winning. */
  function Updates(confirmed: set<Txid>, txs: seq<Tx>, topBlock: nat): map<Txid, Item> {
    if txs == [] then map[]
    else
      var before := Updates(confirmed, txs[..|txs| - 1], topBlock);
      var tx := txs[|txs| - 1];
      if tx.txid in confirmed then before
      else before[tx.txid := Item(tx.body, TxItemConfs(tx.block, topBlock))]
  }

  function Final(updated: map<Txid, Item>): set<Txid> {
    set id | id in updated && updated[id].confs.None?
  }

  /** One refresh: `send_new_transactions`. */
  function Refresh(s: State, txs: seq<Tx>, topBlock: nat): State {
    var updated := Updates(s.confirmed, txs, topBlock);
    var removed := s.unconfirmed - updated.Keys;
    State(s.confirmed + Final(updated), updated.Keys - Final(updated),
          s.ui + (if updated != map[] then [UpdatedTxs(updated)] else [])
               + (if removed != {} then [RemovedTxs(removed)] else []))
  }

  lemma {:induction false} UpdatesSkipConfirmed(confirmed: set<Txid>, txs: seq<Tx>, topBlock: nat)
    ensures Updates(confirmed, txs, topBlock).Keys !! confirmed
  {
    if txs != [] {
      UpdatesSkipConfirmed(confirmed, txs[..|txs| - 1], topBlock);
    }
  }

  /** Every listed transaction that is not final yet is sent, as the list shows it last. */
  lemma {:induction false} UpdatesCover(confirmed: set<Txid>, txs: seq<Tx>, topBlock: nat, k: nat)
    requires k < |txs| && txs[k].txid !in confirmed
    requires forall j :: k < j < |txs| ==> txs[j].txid != txs[k].txid
    ensures var u := Updates(confirmed, txs, topBlock);
            txs[k].txid in u && u[txs[k].txid] == Item(txs[k].body, TxItemConfs(txs[k].block, topBlock))
  {
    if k < |txs| - 1 {
      UpdatesCover(confirmed, txs[..|txs| - 1], topBlock, k);
    }
  }

  /** The two sets are disjoint, and the interface shows exactly their union; what is final is
      shown as final. */
  ghost predicate Mirrored(s: State) {
    && s.confirmed !! s.unconfirmed
    && Replay(s.ui).Keys == s.confirmed + s.unconfirmed
    && forall id :: id in s.confirmed ==> Replay(s.ui)[id].confs.None?
  }

  lemma ReplayMore(msgs: seq<TxMsg>, m: TxMsg)
    ensures Replay(msgs + [m]) == Shown(Replay(msgs), m)
  {
    assert (msgs + [m])[..|msgs|] == msgs;
  }

  /** The interface after a refresh. */
  lemma ReplayRefresh(s: State, txs: seq<Tx>, topBlock: nat)
    ensures var updated := Updates(s.confirmed, txs, topBlock);
            Replay(Refresh(s, txs, topBlock).ui) == (Replay(s.ui) + updated) - (s.unconfirmed - updated.Keys)
  {
    hide Updates, Replay;
    var updated := Updates(s.confirmed, txs, topBlock);
    var removed := s.unconfirmed - updated.Keys;
    var a := s.ui + if updated != map[] then [UpdatedTxs(updated)] else [];
    ReplayMore(s.ui, UpdatedTxs(updated));
    ReplayMore(a, RemovedTxs(removed));
    assert s.ui + [] == s.ui && a + [] == a;
    assert Replay(s.ui) + map[] == Replay(s.ui);
    assert Replay(a) == Replay(s.ui) + updated;
    assert Replay(a) - {} == Replay(a);
  }

  lemma RefreshMirrors(s: State, txs: seq<Tx>, topBlock: nat)
    requires Mirrored(s)
    ensures Mirrored(Refresh(s, txs, topBlock))
    ensures s.confirmed <= Refresh(s, txs, topBlock).confirmed
  {
    var updated := Updates(s.confirmed, txs, topBlock);
    UpdatesSkipConfirmed(s.confirmed, txs, topBlock);
    ReplayRefresh(s, txs, topBlock);
    hide Updates, Replay;
    var t := Refresh(s, txs, topBlock);
    assert Replay(t.ui).Keys == t.confirmed + t.unconfirmed;
  }

  function RefreshAll(s: State, calls: seq<(seq<Tx>, nat)>): State {
    if calls == [] then s
    else
      var last := calls[|calls| - 1];
      Refresh(RefreshAll(s, calls[..|calls| - 1]), last.0, last.1)
  }

  /** After every refresh of every login the interface shows exactly the known transactions. */
  lemma {:induction false} AlwaysMirrored(calls: seq<(seq<Tx>, nat)>)
    ensures Mirrored(RefreshAll(Init(), calls))
    decreases |calls|
  {
    if calls != [] {
      var last := calls[|calls| - 1];
      AlwaysMirrored(calls[..|calls| - 1]);
      RefreshMirrors(RefreshAll(Init(), calls[..|calls| - 1]), last.0, last.1);
    }
  }

  ghost predicate Mentions(m: TxMsg, id: Txid) {
    match m
    case UpdatedTxs(items) => id in items
    case RemovedTxs(ids) => id in ids
  }

  /** A final transaction is left alone for good: however many refreshes follow, it stays final,
      no message mentions it again, and the interface keeps showing the same item. */
  lemma {:induction false} FinalIsForever(s: State, calls: seq<(seq<Tx>, nat)>, id: Txid)
    requires Mirrored(s) && id in s.confirmed
    ensures var t := RefreshAll(s, calls);
            && Mirrored(t) && id in t.confirmed
            && |s.ui| <= |t.ui| && t.ui[..|s.ui|] == s.ui
            && (forall i :: |s.ui| <= i < |t.ui| ==> !Mentions(t.ui[i], id))
            && Replay(t.ui)[id] == Replay(s.ui)[id]
    decreases |calls|
  {
    if calls != [] {
      var last := calls[|calls| - 1];
      FinalIsForever(s, calls[..|calls| - 1], id);
      FinalLeftAlone(RefreshAll(s, calls[..|calls| - 1]), last.0, last.1, id);
      hide Refresh, Replay;
    }
  }

  lemma FinalLeftAlone(s: State, txs: seq<Tx>, topBlock: nat, id: Txid)
    requires Mirrored(s) && id in s.confirmed
    ensures var t := Refresh(s, txs, topBlock);
            && Mirrored(t) && id in t.confirmed
            && |s.ui| <= |t.ui| && t.ui[..|s.ui|] == s.ui
            && (forall i :: |s.ui| <= i < |t.ui| ==> !Mentions(t.ui[i], id))
            && Replay(t.ui)[id] == Replay(s.ui)[id]
  {
    RefreshMirrors(s, txs, topBlock);
    UpdatesSkipConfirmed(s.confirmed, txs, topBlock);
    ReplayRefresh(s, txs, topBlock);
    hide Updates, Replay;
  }

  // ---- the handler -----------------------------------------------------------------------------------

  class TxList {
    var confirmed: set<Txid>
    var unconfirmed: set<Txid>
    var ui: seq<TxMsg>

    ghost function Current(): State
      reads this
    {
      State(confirmed, unconfirmed, ui)
    }

    /** The interface shows exactly the known transactions. */
    ghost predicate Valid()
      reads this
    {
      Mirrored(Current())
    }

    constructor ()
      ensures Current() == Init() && Valid()
    {
      confirmed, unconfirmed, ui := {}, {}, [];
    }

    method SendNewTransactions(txs: seq<Tx>, topBlock: nat)
      requires Valid()
      modifies this
      ensures Valid() && old(confirmed) <= confirmed
      ensures Current() == Refresh(old(Current()), txs, topBlock)
    {
      hide Mirrored, Replay;
      var updated: map<Txid, Item> := map[];
      var k := 0;
      while k < |txs|
        invariant 0 <= k <= |txs|
        invariant updated == Updates(confirmed, txs[..k], topBlock)
      {
        assert txs[..k + 1][..k] == txs[..k];
        var tx := txs[k];
        if tx.txid !in confirmed {
          updated := updated[tx.txid := Item(tx.body, TxItemConfs(tx.block, topBlock))];
        }
        k := k + 1;
      }
      assert txs[..|txs|] == txs;
      var removed := unconfirmed - updated.Keys;
      Classify(updated);
      if updated != map[] {
        ui := ui + [UpdatedTxs(updated)];
      }
      if removed != {} {
        ui := ui + [RemovedTxs(removed)];
      }
      assert Current() == Refresh(old(Current()), txs, topBlock);
      RefreshMirrors(old(Current()), txs, topBlock);
    }

    /** The loop that sorts the updated transactions into the two sets. */
    method Classify(updated: map<Txid, Item>)
      modifies this`confirmed, this`unconfirmed
      ensures confirmed == old(confirmed) + Final(updated)
      ensures unconfirmed == updated.Keys - Final(updated)
    {
      unconfirmed := {};
      var rest := updated.Keys;
      while rest != {}
        invariant rest <= updated.Keys
        invariant confirmed == old(confirmed) + (Final(updated) - rest)
        invariant unconfirmed == updated.Keys - Final(updated) - rest
        decreases rest
      {
        SomeMember(rest);
        var id :| id in rest;
        rest := rest - {id};
        if updated[id].confs.None? {
          confirmed := confirmed + {id};
        } else {
          unconfirmed := unconfirmed + {id};
        }
      }
    }
  }
}
