/** The delta protocol that keeps the orders of the user interface equal to the worker's. The
    interface only ever sees the messages. */
module UiMirror {
  import opened Sequences

  type OrderId = int
  type AssetId = int

  // ---- orders ------------------------------------------------------------------------------------

  /** The fields of an order that the worker looks at, and the rest as one opaque value. */
  datatype Order = Order(asset: AssetId, own: bool, tokenMarket: bool, autoSign: bool,
                         fromNotification: bool, rest: int)

  datatype OrderMsg = OrderRemoved(id: OrderId) | OrderCreated(id: OrderId, order: Order, isNew: bool)

  type Orders = map<OrderId, Order>

  function Shown(orders: Orders, m: OrderMsg): Orders {
    match m
    case OrderRemoved(id) => orders - {id}
    case OrderCreated(id, order, _) => orders[id := order]
  }

  /** What the interface shows after a list of messages. */
  function Replay(start: Orders, msgs: seq<OrderMsg>): Orders {
    if msgs == [] then start else Shown(Replay(start, msgs[..|msgs| - 1]), msgs[|msgs| - 1])
  }

  lemma ReplayMore(start: Orders, msgs: seq<OrderMsg>, m: OrderMsg)
    ensures Replay(start, msgs + [m]) == Shown(Replay(start, msgs), m)
  {
    assert (msgs + [m])[..|msgs|] == msgs;
  }

  lemma {:induction false} ReplayAppend(start: Orders, a: seq<OrderMsg>, b: seq<OrderMsg>)
    ensures Replay(start, a + b) == Replay(Replay(start, a), b)
    decreases |b|
  {
    if b == [] {
      assert a + b == a;
    } else {
      ReplayAppend(start, a, b[..|b| - 1]);
      assert (a + b)[..|a + b| - 1] == a + b[..|b| - 1];
    }
  }

  predicate Changed(sent: Orders, last: Orders, id: OrderId) {
    if id in last then id !in sent || sent[id] != last[id] else id in sent
  }

  /** A message that tells the interface about a change it has not seen. */
  predicate Needed(sent: Orders, last: Orders, m: OrderMsg) {
    && Changed(sent, last, m.id)
    && match m
       case OrderRemoved(id) => id !in last
       case OrderCreated(id, order, isNew) =>
         id in last && order == last[id] && (isNew <==> id !in sent && order.fromNotification)
  }

  /** A message is needed exactly if it removes an order that is shown and gone, or shows an order as it is
      now that was not shown like that; it is marked new if it was not shown and came by a notification. */
  lemma NeededExactly(sent: Orders, last: Orders, m: OrderMsg)
    ensures Needed(sent, last, m) <==>
            || (m.OrderRemoved? && m.id in sent && m.id !in last)
            || (m.OrderCreated? && m.id in last && m.order == last[m.id] && (m.id in sent ==> sent[m.id] != m.order)
                && m.isNew == (m.id !in sent && m.order.fromNotification))
  {
  }

  ghost predicate Mentions(msgs: seq<OrderMsg>, id: OrderId) {
    exists i :: 0 <= i < |msgs| && msgs[i].id == id
  }

  ghost predicate Agree(a: Orders, b: Orders, id: OrderId) {
    (id in a <==> id in b) && (id in a && id in b ==> a[id] == b[id])
  }

  /** A needed message brings its order up to date, other messages leave it alone. */
  lemma {:induction false} ReplayAt(sent: Orders, last: Orders, msgs: seq<OrderMsg>, id: OrderId)
    requires forall i :: 0 <= i < |msgs| ==> Needed(sent, last, msgs[i])
    ensures if Mentions(msgs, id) then Agree(Replay(sent, msgs), last, id)
            else Agree(Replay(sent, msgs), sent, id)
  {
    if msgs != [] {
      var front, m := msgs[..|msgs| - 1], msgs[|msgs| - 1];
      ReplayAt(sent, last, front, id);
      if m.id == id {
        assert Mentions(msgs, id);
      } else if Mentions(msgs, id) {
        var i :| 0 <= i < |msgs| && msgs[i].id == id;
        assert front[i].id == id;
      } else {
        NotBefore(msgs, id);
      }
    }
  }

  lemma NotBefore(msgs: seq<OrderMsg>, id: OrderId)
    requires msgs != []
    ensures Mentions(msgs[..|msgs| - 1], id) ==> Mentions(msgs, id)
  {
    if Mentions(msgs[..|msgs| - 1], id) {
      var i :| 0 <= i < |msgs| - 1 && msgs[..|msgs| - 1][i].id == id;
      assert msgs[i].id == id;
    }
  }

  /** Needed messages that cover every change turn the shown orders into the current ones. */
  lemma NeededSuffices(sent: Orders, last: Orders, msgs: seq<OrderMsg>)
    requires forall i :: 0 <= i < |msgs| ==> Needed(sent, last, msgs[i])
    requires forall id :: Changed(sent, last, id) ==> Mentions(msgs, id)
    ensures Replay(sent, msgs) == last
  {
    forall id ensures Agree(Replay(sent, msgs), last, id) {
      ReplayAt(sent, last, msgs, id);
      assert Agree(sent, last, id) <==> !Changed(sent, last, id);
    }
    SameOrders(Replay(sent, msgs), last);
  }

  lemma SameOrders(a: Orders, b: Orders)
    requires forall id :: Agree(a, b, id)
    ensures a == b
  {
    forall id ensures id in a <==> id in b {
      assert Agree(a, b, id);
    }
    forall id | id in a ensures a[id] == b[id] {
      assert Agree(a, b, id);
    }
  }

  /** And no message can be saved: whatever brings the interface up to date mentions every change. */
  lemma {:induction false} ChangesMustBeSent(sent: Orders, msgs: seq<OrderMsg>, id: OrderId)
    requires !Mentions(msgs, id)
    ensures Agree(Replay(sent, msgs), sent, id)
    ensures !Changed(sent, Replay(sent, msgs), id)
  {
    if msgs != [] {
      var front := msgs[..|msgs| - 1];
      NotBefore(msgs, id);
      ChangesMustBeSent(sent, front, id);
      assert msgs[|msgs| - 1].id != id;
    }
  }

  class OrderList {
    var ordersLast: Orders
    var ordersSent: Orders
    var ui: seq<OrderMsg>

    /** The interface shows what was sent, and between messages that is everything. */
    ghost predicate Valid()
      reads this
    {
      Replay(map[], ui) == ordersSent
    }

    ghost predicate Synced()
      reads this
    {
      Valid() && ordersSent == ordersLast
    }

    constructor ()
      ensures Synced() && ordersLast == map[] && ui == []
    {
      ordersLast, ordersSent, ui := map[], map[], [];
    }

    /** The first loop of `sync_order_list`: orders that are gone. */
    method SendRemoved() returns (ghost delta: seq<OrderMsg>)
      modifies this`ordersSent, this`ui
      ensures ui == old(ui) + delta && ordersSent == Replay(old(ordersSent), delta)
      ensures Progress(old(ordersSent), ordersLast, delta)
      ensures forall id :: Mentions(delta, id) <==> id in old(ordersSent) && id !in ordersLast
    {
      delta := [];
      ghost var start := ordersSent;
      var removed := ordersSent.Keys - ordersLast.Keys;
      while removed != {}
        invariant ui == old(ui) + delta && ordersSent == Replay(start, delta)
        invariant Progress(start, ordersLast, delta)
        invariant forall id :: Mentions(delta, id) ==> id in start && id !in ordersLast
        invariant forall id :: id in removed <==> id in start && id !in ordersLast && !Mentions(delta, id)
        decreases removed
      {
        SomeMember(removed);
        var id :| id in removed;
        removed := removed - {id};
        ordersSent := ordersSent - {id};
        ui := ui + [OrderRemoved(id)];
        Extend(start, ordersLast, delta, OrderRemoved(id));
        delta := delta + [OrderRemoved(id)];
      }
    }

    /** The second loop of `sync_order_list`: orders that are new or differ. */
    method SendCreated(ghost start: Orders, ghost before: seq<OrderMsg>) returns (ghost delta: seq<OrderMsg>)
      requires ordersSent == Replay(start, before) && Progress(start, ordersLast, before)
      requires forall id :: Mentions(before, id) <==> id in start && id !in ordersLast
      modifies this`ordersSent, this`ui
      ensures before <= delta && ui == old(ui) + delta[|before|..] && ordersSent == Replay(start, delta)
      ensures Progress(start, ordersLast, delta)
      ensures forall id :: Changed(start, ordersLast, id) ==> Mentions(delta, id)
    {
      hide Replay;
      delta := before;
      var rest := ordersLast.Keys;
      while rest != {}
        invariant before <= delta && ui == old(ui) + delta[|before|..] && ordersSent == Replay(start, delta)
        invariant Progress(start, ordersLast, delta)
        invariant forall id :: id in rest ==> id in ordersLast && !Mentions(delta, id)
        invariant forall id :: Changed(start, ordersLast, id) ==> id in rest || Mentions(delta, id)
        decreases rest
      {
        SomeMember(rest);
        var id :| id in rest;
        rest := rest - {id};
        ReplayAt(start, ordersLast, delta, id);
        var order := ordersLast[id];
        if id !in ordersSent || ordersSent[id] != order {
          var msg := OrderCreated(id, order, id !in ordersSent && order.fromNotification);
          ordersSent := ordersSent[id := order];
          ui := ui + [msg];
          Extend(start, ordersLast, delta, msg);
          assert (delta + [msg])[|before|..] == delta[|before|..] + [msg];
          delta := delta + [msg];
        }
      }
    }

    /** `sync_order_list`: afterwards the interface shows the current orders, and the messages
        sent are exactly the needed ones, at most one per order. */
    method Sync()
      requires Valid()
      modifies this`ordersSent, this`ui
      ensures Synced() && ordersLast == old(ordersLast)
      ensures |old(ui)| <= |ui| && ui[..|old(ui)|] == old(ui)
      ensures forall i :: |old(ui)| <= i < |ui| ==> Needed(old(ordersSent), ordersLast, ui[i])
      ensures forall i, j :: |old(ui)| <= i < j < |ui| ==> ui[i].id != ui[j].id
    {
      ghost var start := ordersSent;
      ghost var before := SendRemoved();
      ghost var delta := SendCreated(start, before);
      assert ui == old(ui) + delta;
      NeededSuffices(start, ordersLast, delta);
      ReplayAppend(map[], old(ui), delta);
    }

    /** `add_order` for every order of a login or subscribe response or of a notification. */
    method AddOrders(orders: seq<(OrderId, Order)>)
      requires Synced()
      modifies this
      ensures Synced() && ordersLast == Inserted(old(ordersLast), orders)
    {
      var k := 0;
      assert orders[0..] == orders;
      while k < |orders|
        invariant 0 <= k <= |orders| && Valid()
        invariant Inserted(ordersLast, orders[k..]) == Inserted(old(ordersLast), orders)
      {
        assert orders[k..][1..] == orders[k + 1..];
        ordersLast := ordersLast[orders[k].0 := orders[k].1];
        k := k + 1;
      }
      Sync();
    }

    method RemoveOrder(id: OrderId)
      requires Synced()
      modifies this
      ensures Synced() && ordersLast == old(ordersLast) - {id}
    {
      ordersLast := ordersLast - {id};
      Sync();
    }

    method Disconnected()
      requires Synced()
      modifies this
      ensures Synced() && ordersLast == map[]
    {
      ordersLast := map[];
      Sync();
    }

    /** Keep own orders and the other markets. */
    method Unsubscribed(asset: Option<AssetId>)
      requires Synced()
      modifies this
      ensures Synced()
      ensures ordersLast == map id | id in old(ordersLast) &&
                (old(ordersLast)[id].own || (asset.Some? && old(ordersLast)[id].asset != asset.value)
                 || (asset.None? && !old(ordersLast)[id].tokenMarket)) :: old(ordersLast)[id]
    {
      ordersLast := map id | id in ordersLast && Kept(ordersLast[id], asset) :: ordersLast[id];
      Sync();
    }

    /** The list half of an auto-sign edit; an order without a submit record or unknown to the list is
        an error and changes nothing. */
    method EditAutoSign(id: OrderId, autoSign: bool, hasRecord: bool) returns (ok: bool)
      requires Synced()
      modifies this
      ensures Synced() && ok == (hasRecord && id in old(ordersLast))
      ensures ordersLast == if ok then old(ordersLast)[id := old(ordersLast)[id].(autoSign := autoSign)]
                            else old(ordersLast)
    {
      ok := hasRecord && id in ordersLast;
      if ok {
        ordersLast := ordersLast[id := ordersLast[id].(autoSign := autoSign)];
      }
      Sync();
    }
  }

  predicate Kept(order: Order, asset: Option<AssetId>) {
    order.own || (if asset.Some? then order.asset != asset.value else !order.tokenMarket)
  }

  function Inserted(orders: Orders, more: seq<(OrderId, Order)>): Orders
    decreases |more|
  {
    if more == [] then orders else Inserted(orders[more[0].0 := more[0].1], more[1..])
  }

  /** Of several orders with one id the last one, at `k`, counts; an order that is not among them, when `k`
      is negative, stays as it was. */
  lemma {:induction false} InsertedAt(orders: Orders, more: seq<(OrderId, Order)>, id: OrderId, k: int)
    requires k < |more| && forall j :: 0 <= j < |more| && j > k ==> more[j].0 != id
    requires k >= 0 ==> more[k].0 == id
    ensures var r := Inserted(orders, more);
            if k >= 0 then id in r && r[id] == more[k].1 else Agree(r, orders, id)
    decreases |more|
  {
    if more != [] {
      var next, rest := orders[more[0].0 := more[0].1], more[1..];
      assert forall j :: 0 <= j < |rest| ==> rest[j] == more[j + 1];
      InsertedAt(next, rest, id, if k > 0 then k - 1 else -1);
    }
  }

  ghost predicate Progress(start: Orders, last: Orders, delta: seq<OrderMsg>) {
    && (forall i :: 0 <= i < |delta| ==> Needed(start, last, delta[i]))
    && (forall i, j :: 0 <= i < j < |delta| ==> delta[i].id != delta[j].id)
  }

  lemma Extend(start: Orders, last: Orders, delta: seq<OrderMsg>, m: OrderMsg)
    requires Progress(start, last, delta) && Needed(start, last, m) && !Mentions(delta, m.id)
    ensures Progress(start, last, delta + [m])
    ensures Replay(start, delta + [m]) == Shown(Replay(start, delta), m)
    ensures forall id :: Mentions(delta + [m], id) <==> Mentions(delta, id) || id == m.id
  {
    ReplayMore(start, delta, m);
    forall id ensures Mentions(delta + [m], id) <==> Mentions(delta, id) || id == m.id {
      if Mentions(delta, id) {
        var i :| 0 <= i < |delta| && delta[i].id == id;
        assert (delta + [m])[i].id == id;
      }
      if id == m.id {
        assert (delta + [m])[|delta|].id == id;
      }
    }
  }
}
