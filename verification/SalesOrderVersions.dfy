/**
  An order's version only grows, whatever overlaps and whatever versions calls expect: an own
  row is later than the committed one it replaces, whose lock its transaction holds.
 */
module SalesOrderVersions {
  import opened Wrappers
  import opened SalesSpec
  import opened SalesConcurrency
  import opened SalesSafety
  import opened SalesOrdersSafety
  import I = InventoryConcurrency

  predicate OwnIsLater(s: Sales, t: TxId)
    requires t in s.txs
  {
    var tx := s.txs[t];
    tx.order.Some? ==>
      && OfOrder(tx.call) && tx.call.order < |s.orders| && HoldsIn(s.orderLocks, t, tx.call.order)
      && LaterOrder(s.orders[tx.call.order], tx.order.value)
  }

  ghost predicate OwnsAreLater(s: Sales) {
    forall t :: t in s.txs ==> OwnIsLater(s, t)
  }

  /** No order is committed, and the others keep their rows and locks. */
  ghost predicate OrdersLeft(s: Sales, s': Sales, t: TxId) {
    && s'.orders == s.orders
    && (forall u :: u in s'.txs && u != t ==> u in s.txs && s'.txs[u] == s.txs[u])
    && (forall u, id: nat :: u != t && HoldsIn(s.orderLocks, u, id) ==> HoldsIn(s'.orderLocks, u, id))
  }

  lemma SameOrders(orders: seq<Order>)
    ensures OrdersLater(orders, orders)
  {
  }

  lemma EndLeft(s: Sales, t: TxId)
    ensures OrdersLeft(s, End(s, t), t) && t !in End(s, t).txs
  {
  }

  lemma WriteLeft(s: Sales, t: TxId, id: nat, row: Order, stage: Stage)
    requires t in s.txs && OfOrder(s.txs[t].call) && id == s.txs[t].call.order < |s.orders|
    requires FreeIn(s.orderLocks, t, id)
    requires OwnIsLater(s, t) && LaterOrder(OrderNow(s, s.txs[t], id), row)
    ensures OrdersLeft(s, WriteOrder(s, t, id, row, stage), t) && OwnIsLater(WriteOrder(s, t, id, row, stage), t)
  {
  }

  lemma MarkLeft(s: Sales, t: TxId, id: nat, reserved: bool, stage: Stage)
    requires t in s.txs && OfOrder(s.txs[t].call) && id == s.txs[t].call.order < |s.orders| && OwnIsLater(s, t)
    ensures var s' := MarkOrder(s, t, id, reserved, stage);
            OrdersLeft(s, s', t) && (t in s'.txs ==> OwnIsLater(s', t))
  {
    var now := OrderNow(s, s.txs[t], id);
    EndLeft(s, t);
    if FreeIn(s.orderLocks, t, id) && !now.deleted {
      WriteLeft(s, t, id, now.(reserved := reserved, version := now.version + 1), stage);
    }
  }

  lemma UpdateLeft(s: Sales, t: TxId, id: nat, to: OrderStatus, version: int)
    requires t in s.txs && OfOrder(s.txs[t].call) && id == s.txs[t].call.order < |s.orders| && OwnIsLater(s, t)
    ensures var s' := UpdateOrder(s, t, id, to, version);
            OrdersLeft(s, s', t) && (t in s'.txs ==> OwnIsLater(s', t))
  {
    var now := OrderNow(s, s.txs[t], id);
    EndLeft(s, t);
    if FreeIn(s.orderLocks, t, id) && !now.deleted && now.version == version {
      WriteLeft(s, t, id, now.(status := to, version := now.version + 1), Written);
    }
  }

  lemma ReservingLeft(s: Sales, t: TxId)
    requires t in s.txs && t in s.inventory.txs && s.txs[t].call.Reserving? && OwnIsLater(s, t)
    ensures OrdersLeft(s, ReservingStep(s, t), t)
    ensures (t in ReservingStep(s, t).txs ==> OwnIsLater(ReservingStep(s, t), t))
  {
    hide MarkOrder;
    EndLeft(s, t);
    if s.txs[t].call.order < |s.orders| {
      MarkLeft(s, t, s.txs[t].call.order, true, Written);
    }
  }

  lemma MovingOrderLeft(s: Sales, t: TxId)
    requires t in s.txs && t in s.inventory.txs && s.txs[t].call.MovingOrder? && OwnIsLater(s, t)
    ensures var s' := MovingOrderStep(s, t);
            OrdersLeft(s, s', t) && (t in s'.txs ==> OwnIsLater(s', t))
  {
    hide MarkOrder, UpdateOrder;
    var c := s.txs[t].call;
    EndLeft(s, t);
    if c.order < |s.orders| {
      UpdateLeft(s, t, c.order, c.orderTo, c.expected);
      UpdateLeft(s, t, c.order, c.orderTo, c.expected + 1);
      if s.txs[t].stage.Freeing? {
        MarkLeft(s, t, c.order, false, Freed(s.txs[t].stage.order));
      }
    }
  }

  lemma CreatingLeft(s: Sales, t: TxId)
    requires t in s.txs && t in s.inventory.txs && s.txs[t].call.Creating? && OwnIsLater(s, t)
    ensures OrdersLeft(s, CreatingStep(s, t), t) && (t in CreatingStep(s, t).txs ==> OwnIsLater(CreatingStep(s, t), t))
  {
    hide LinkStep, ListStep, OpenStep;
    EndLeft(s, t);
    match s.txs[t].stage
    case Begun => OpenLeft(s, t);
    case Opened(d, lines) => ListLeft(s, t, d, lines);
    case Linking(d, linked) => LinkLeft(s, t, d, linked);
    case _ =>
  }

  lemma OpenLeft(s: Sales, t: TxId)
    requires t in s.txs && s.txs[t].call.Creating? && OwnIsLater(s, t)
    ensures OrdersLeft(s, OpenStep(s, t), t) && (t in OpenStep(s, t).txs ==> OwnIsLater(OpenStep(s, t), t))
  {
    EndLeft(s, t);
  }

  lemma ListLeft(s: Sales, t: TxId, d: nat, lines: seq<DeliveryLine>)
    requires t in s.txs && t in s.inventory.txs && s.txs[t].call.Creating? && OwnIsLater(s, t)
    ensures var s' := ListStep(s, t, d, lines);
            OrdersLeft(s, s', t) && (t in s'.txs ==> OwnIsLater(s', t))
  {
    EndLeft(s, t);
  }

  lemma LinkLeft(s: Sales, t: TxId, d: nat, linked: seq<DeliveryLine>)
    requires t in s.txs && OwnIsLater(s, t)
    ensures var s' := LinkStep(s, t, d, linked);
            OrdersLeft(s, s', t) && (t in s'.txs ==> OwnIsLater(s', t))
  {
    EndLeft(s, t);
  }

  lemma MovingDeliveryLeft(s: Sales, t: TxId)
    requires t in s.txs && t in s.inventory.txs && s.txs[t].call.MovingDelivery? && OwnIsLater(s, t)
    ensures var s' := MovingDeliveryStep(s, t);
            OrdersLeft(s, s', t) && (t in s'.txs ==> OwnIsLater(s', t))
  {
    hide UpdateDelivery, LinesStep, LockStep;
    var c := s.txs[t].call;
    EndLeft(s, t);
    match s.txs[t].stage
    case HeadSeen(head) => LinesLeft(s, t, head);
    case LinesSeen(_) => UpdateDeliveryLeft(s, t, c.delivery, c.to, c.expected);
    case Locking(seen, ids, n) => LockLeft(s, t, seen, ids, n);
    case Issuing(_, _) => UpdateDeliveryLeft(s, t, c.delivery, c.to, c.expected);
    case _ =>
  }

  lemma UpdateDeliveryLeft(s: Sales, t: TxId, d: nat, to: DeliveryStatus, version: int)
    requires t in s.txs && OwnIsLater(s, t)
    ensures var s' := UpdateDelivery(s, t, d, to, version);
            OrdersLeft(s, s', t) && (t in s'.txs ==> OwnIsLater(s', t))
  {
    EndLeft(s, t);
  }

  lemma LinesLeft(s: Sales, t: TxId, head: Delivery)
    requires t in s.txs && s.txs[t].call.MovingDelivery? && OwnIsLater(s, t)
    ensures var s' := LinesStep(s, t, head);
            OrdersLeft(s, s', t) && (t in s'.txs ==> OwnIsLater(s', t))
  {
    EndLeft(s, t);
  }

  lemma LockLeft(s: Sales, t: TxId, seen: Delivery, ids: seq<nat>, n: nat)
    requires t in s.txs && t in s.inventory.txs && s.txs[t].call.MovingDelivery? && OwnIsLater(s, t)
    ensures var s' := LockStep(s, t, seen, ids, n);
            OrdersLeft(s, s', t) && (t in s'.txs ==> OwnIsLater(s', t))
  {
  }

  lemma StepLeft(s: Sales, t: TxId)
    requires t in s.txs && t in s.inventory.txs && OwnIsLater(s, t)
    requires s.inventory.txs[t].calls != [] || !s.txs[t].stage.Written?
    ensures OrdersLeft(s, AdvanceStep(s, t), t) && (t in AdvanceStep(s, t).txs ==> OwnIsLater(AdvanceStep(s, t), t))
  {
    hide OrdersLeft, OwnIsLater, ReservingStep, MovingOrderStep, CreatingStep, MovingDeliveryStep;
    if s.inventory.txs[t].calls != [] {
      InnerLeft(s, t);
    } else {
      match s.txs[t].call
      case Reserving(_, _) => ReservingLeft(s, t);
      case MovingOrder(_, _, _, _) => MovingOrderLeft(s, t);
      case Creating(_, _, _, _) => CreatingLeft(s, t);
      case MovingDelivery(_, _, _, _) => MovingDeliveryLeft(s, t);
    }
  }

  lemma InnerLeft(s: Sales, t: TxId)
    requires t in s.txs && t in s.inventory.txs && OwnIsLater(s, t) && s.inventory.txs[t].calls != []
    ensures OrdersLeft(s, AdvanceStep(s, t), t) && (t in AdvanceStep(s, t).txs ==> OwnIsLater(AdvanceStep(s, t), t))
  {
    hide I.Step;
  }

  lemma CommitGrows(s: Sales, t: TxId)
    requires t in s.txs && t in s.inventory.txs && OwnsAreLater(s)
    ensures OwnsAreLater(CommitStep(s, t)) && OrdersLater(s.orders, CommitStep(s, t).orders)
  {
    var s' := CommitStep(s, t);
    assert OwnIsLater(s, t);
    forall u | u in s'.txs ensures OwnIsLater(s', u) {
      assert OwnIsLater(s, u);
    }
  }

  lemma LeftKeeps(s: Sales, s': Sales, t: TxId)
    requires OwnsAreLater(s) && OrdersLeft(s, s', t) && (t in s'.txs ==> OwnIsLater(s', t))
    ensures OwnsAreLater(s') && OrdersLater(s.orders, s'.orders)
  {
    SameOrders(s.orders);
    forall u | u in s'.txs ensures OwnIsLater(s', u) {
      if u != t {
        assert OwnIsLater(s, u);
      }
    }
  }

  lemma EditsGrow(s: Sales, s': Sales)
    requires OwnsAreLater(s) && OrdersEdited(s, s')
    ensures OwnsAreLater(s') && OrdersLater(s.orders, s'.orders)
  {
    forall u | u in s'.txs ensures OwnIsLater(s', u) {
      assert OwnIsLater(s, u);
    }
  }

  lemma HappenGrows(s: Sales, e: Event)
    requires OwnsAreLater(s)
    ensures OwnsAreLater(Happen(s, e)) && OrdersLater(s.orders, Happen(s, e).orders)
  {
    hide OwnsAreLater, OrdersLeft, OrdersLater, OrdersEdited, OwnIsLater, AdvanceStep, CommitStep;
    match e
    case Advance(t) =>
      SameOrders(s.orders);
      if t in s.txs && t in s.inventory.txs {
        if s.inventory.txs[t].calls == [] && s.txs[t].stage.Written? {
          CommitIsAdvance(s, t);
          CommitGrows(s, t);
        } else {
          OwnOf(s, t);
          StepLeft(s, t);
          LeftKeeps(s, AdvanceStep(s, t), t);
        }
      }
    case NewOrder(_, _, _) => EventEdits(s, e); EditsGrow(s, Happen(s, e));
    case DropOrder(_, _) => EventEdits(s, e); EditsGrow(s, Happen(s, e));
    case EditOrder(_, _, _) => EventEdits(s, e); EditsGrow(s, Happen(s, e));
    case Abort(t) =>
      EndLeft(s, t);
      SameOrders(s.orders);
      if t in s.txs {
        LeftKeeps(s, End(s, t), t);
      }
    case _ => OthersGrow(s, e);
  }

  lemma OwnOf(s: Sales, t: TxId)
    requires OwnsAreLater(s) && t in s.txs
    ensures OwnIsLater(s, t)
  {
    hide OwnIsLater;
  }

  lemma OthersGrow(s: Sales, e: Event)
    requires OwnsAreLater(s) && (e.Inventory? || e.Start? || e.EditDelivery?)
    ensures OwnsAreLater(Happen(s, e)) && OrdersLater(s.orders, Happen(s, e).orders)
  {
    hide OwnIsLater, OrdersLater;
    var s' := Happen(s, e);
    SameOrders(s.orders);
    forall u | u in s'.txs ensures OwnIsLater(s', u) {
      SameOwn(s, s', u);
    }
  }

  lemma SameOwn(s: Sales, s': Sales, u: TxId)
    requires u in s'.txs && s'.orders == s.orders && s'.orderLocks == s.orderLocks
    requires s'.txs[u].order.None? || (u in s.txs && s'.txs[u] == s.txs[u] && OwnIsLater(s, u))
    ensures OwnIsLater(s', u)
  {
  }

  lemma {:induction false} ExecGrows(s: Sales, events: seq<Event>, id: nat)
    requires OwnsAreLater(s) && id < |s.orders|
    ensures id < |Exec(s, events).orders| && LaterOrder(s.orders[id], Exec(s, events).orders[id])
    decreases |events|
  {
    hide OwnsAreLater, Happen;
    if events != [] {
      HappenGrows(s, events[0]);
      ExecGrows(Happen(s, events[0]), events[1..], id);
      LaterOrderTransitive(s.orders[id], Happen(s, events[0]).orders[id], Exec(s, events).orders[id]);
    }
  }

  lemma {:induction false} ExecKeepsOwns(s: Sales, events: seq<Event>)
    requires OwnsAreLater(s)
    ensures OwnsAreLater(Exec(s, events))
    decreases |events|
  {
    hide OwnsAreLater, Happen;
    if events != [] {
      HappenGrows(s, events[0]);
      ExecKeepsOwns(Happen(s, events[0]), events[1..]);
    }
  }

  /** In every run an order's version only grows: one a caller has been shown is never above one read later. */
  lemma OrderVersionsGrow(w: World, first: seq<Event>, later: seq<Event>, id: nat)
    requires id < |Exec(From(w), first).orders|
    ensures var orders, orders' := Exec(From(w), first).orders, Exec(Exec(From(w), first), later).orders;
            id < |orders'| && LaterOrder(orders[id], orders'[id])
  {
    ExecKeepsOwns(From(w), first);
    ExecGrows(Exec(From(w), first), later, id);
  }
}
