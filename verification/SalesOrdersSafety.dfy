/**
  What orders claim of the inventory, over every interleaving: an order that is not marked
  reserved has no RESERVED row, and a CANCELLED order is never marked reserved.

  It needs three conditions.  No transition expects a version above the one it reads.  No
  reserve marks an order that was cancelled after the reserve read it, an update that asks
  neither for a version nor for a status.  And no reservation made directly names an order as its
  source, which the call admits, as a source's type is any text.
 */
module SalesOrdersSafety {
  import opened Wrappers
  import opened InventoryTables
  import opened InventorySpec
  import opened InventoryBySource
  import opened SalesSpec
  import SalesDeliveries
  import opened SalesRows
  import opened SalesConcurrency
  import opened SalesSafety
  import I = InventoryConcurrency

  // ------------------------------------------------------------------ claims

  predicate OfAnOrder(source: Source) { source.kind == "SALES_ORDER" }

  predicate Claims(row: Option<Reservation>, source: Source) { OfSource(row, source) && row.value.status == RESERVED }

  ghost predicate Claimless(rows: seq<Option<Reservation>>, source: Source) {
    forall i :: 0 <= i < |rows| ==> !Claims(rows[i], source)
  }

  ghost predicate NoNewClaims(rows: seq<Option<Reservation>>, rows': seq<Option<Reservation>>, source: Source) {
    forall i :: 0 <= i < |rows'| && Claims(rows'[i], source) ==> i < |rows| && Claims(rows[i], source)
  }

  /** Each row the source claims is no longer RESERVED in the view, or its release is still to come. */
  ghost predicate Freeable(
    rows: seq<Option<Reservation>>, seen: seq<Option<Reservation>>, calls: seq<Request>, scope: Scope, source: Source)
  {
    forall i :: 0 <= i < |rows| && Claims(rows[i], source) ==> NotReserved(seen, i) || Release(scope, i) in calls
  }

  predicate LaterOrder(a: Order, b: Order) {
    && a.version <= b.version && (a.version == b.version ==> b == a)
    && b.scope == a.scope && b.warehouse == a.warehouse && b.lines == a.lines
  }

  function SourceOf(c: Call): Source
    requires OfOrder(c)
  {
    OrderSource(c.scope, c.order)
  }

  // --------------------------------------------------------------- invariant

  /** Only the reserve call of an order inserts rows for it. */
  predicate MayReserve(s: Sales, u: TxId, source: Source) {
    OfAnOrder(source) ==>
      u in s.txs && s.txs[u].call.Reserving? && source == SourceOf(s.txs[u].call) && s.txs[u].call.order < |s.orders|
  }

  ghost predicate Owns(s: Sales, u: TxId)
    requires u in s.inventory.txs
  {
    var tx, rows := s.inventory.txs[u], Committed(s);
    && (forall i :: i in tx.rows ==> i < |rows| && (rows[i].None? ==> MayReserve(s, u, tx.rows[i].source)))
    && (forall n :: 0 <= n < |tx.calls| && tx.calls[n].Reserve? ==> MayReserve(s, u, tx.calls[n].source))
  }

  ghost predicate DocumentsExist(rows: seq<Option<Reservation>>, orders: nat) {
    forall i :: 0 <= i < |rows| && rows[i].Some? && OfAnOrder(rows[i].value.source) ==>
      rows[i].value.source.document < orders
  }

  ghost predicate OrderOk(rows: seq<Option<Reservation>>, o: Order, id: nat) {
    && (!o.reserved ==> Claimless(rows, OrderSource(o.scope, id)))
    && (o.status == OrderStatus.CANCELLED ==> !o.reserved)
  }

  ghost predicate OrdersOk(s: Sales) {
    forall id :: 0 <= id < |s.orders| ==> OrderOk(Committed(s), s.orders[id], id)
  }

  /** The order as read, against the committed row now. */
  predicate ReadOrder(s: Sales, c: Call, o: Order)
    requires c.MovingOrder?
  {
    && c.order < |s.orders| && LaterOrder(o, s.orders[c.order]) && o.scope == c.scope
    && OrderMoves(o.status, c.orderTo) && c.expected <= o.version
  }

  /** An own order row: locked, and later than the committed one it replaces. */
  predicate OwnOrder(s: Sales, t: TxId)
    requires t in s.txs && OfOrder(s.txs[t].call)
  {
    var tx := s.txs[t];
    && tx.order.Some? && tx.call.order < |s.orders| && HoldsIn(s.orderLocks, t, tx.call.order)
    && s.orders[tx.call.order].scope == tx.call.scope
    && LaterOrder(s.orders[tx.call.order], tx.order.value) && s.orders[tx.call.order].version < tx.order.value.version
  }

  ghost predicate FreeableNow(s: Sales, t: TxId)
    requires t in s.txs && t in s.inventory.txs && OfOrder(s.txs[t].call)
  {
    Freeable(Committed(s), RowsSeen(s, t), s.inventory.txs[t].calls, s.txs[t].call.scope, SourceOf(s.txs[t].call))
  }

  ghost predicate ReservingKnows(s: Sales, t: TxId)
    requires t in s.txs && t in s.inventory.txs && s.txs[t].call.Reserving?
  {
    var tx := s.txs[t];
    match tx.stage
    case Begun => tx.order.None?
    case OrderSeen(_) => tx.order.None? && tx.call.order < |s.orders| && s.orders[tx.call.order].scope == tx.call.scope
    case Written =>
      && OwnOrder(s, t) && tx.order.value.reserved
      && tx.order.value.status == s.orders[tx.call.order].status != OrderStatus.CANCELLED
    case _ => tx.order.None?
  }

  ghost predicate MovingOrderKnows(s: Sales, t: TxId)
    requires t in s.txs && t in s.inventory.txs && s.txs[t].call.MovingOrder?
  {
    var tx, c := s.txs[t], s.txs[t].call;
    match tx.stage
    case Begun => tx.order.None?
    case OrderSeen(o) => tx.order.None? && ReadOrder(s, c, o)
    case Freeing(o) =>
      && tx.order.None? && ReadOrder(s, c, o) && c.orderTo == OrderStatus.CANCELLED
      && (s.orders[c.order] == o ==> FreeableNow(s, t))
    case Freed(o) =>
      && OwnOrder(s, t) && ReadOrder(s, c, o) && c.orderTo == OrderStatus.CANCELLED && s.inventory.txs[t].calls == []
      && tx.order.value == s.orders[c.order].(reserved := false, version := s.orders[c.order].version + 1)
      && (s.orders[c.order] == o ==> FreeableNow(s, t))
    case Written =>
      && OwnOrder(s, t) && s.inventory.txs[t].calls == []
      && OrderMoves(s.orders[c.order].status, c.orderTo) && tx.order.value.status == c.orderTo
      && (c.orderTo == OrderStatus.CANCELLED ==> !tx.order.value.reserved && FreeableNow(s, t))
      && (c.orderTo != OrderStatus.CANCELLED ==> tx.order.value.reserved == s.orders[c.order].reserved)
    case _ => tx.order.None?
  }

  ghost predicate OrderKnows(s: Sales, t: TxId)
    requires t in s.txs && t in s.inventory.txs
  {
    && (s.txs[t].call.Reserving? ==> ReservingKnows(s, t))
    && (s.txs[t].call.MovingOrder? ==> MovingOrderKnows(s, t))
    && (!OfOrder(s.txs[t].call) ==> s.txs[t].order.None? && RangeOk(s, s.txs[t]))
  }

  /** The rows a completion is about to lock exist. */
  ghost predicate RangeOk(s: Sales, tx: SalesTx) {
    tx.stage.Locking? ==> forall i :: i in tx.stage.ids ==> i < |Committed(s)|
  }

  ghost predicate OrdersInv(s: Sales) {
    && RowsInv(s.inventory) && OrdersOk(s) && DocumentsExist(Committed(s), |s.orders|)
    && (forall u :: u in s.inventory.txs ==> Owns(s, u))
    && (forall id: nat :: id in s.orderLocks ==> id < |s.orders|)
    && forall t :: t in s.txs ==> t in s.inventory.txs && OrderKnows(s, t)
  }

  // ------------------------------------------------------- what others leave

  ghost predicate OrdersLater(orders: seq<Order>, orders': seq<Order>) {
    && |orders| <= |orders'|
    && forall id :: 0 <= id < |orders| ==> LaterOrder(orders[id], orders'[id])
  }

  /** The calls to come are the same, or the first was a release and has done its part. */
  ghost predicate ReleasesOn(s: Sales, s': Sales, t: TxId)
    requires t in s.inventory.txs && t in s'.inventory.txs
  {
    var calls, calls' := s.inventory.txs[t].calls, s'.inventory.txs[t].calls;
    || calls' == calls
    || (calls != [] && calls' ==
        calls[1..] && (calls[0].Release? ==> NotReserved(RowsSeen(s', t), calls[0].reservation)))
  }

  ghost predicate KeptOrder(s: Sales, s': Sales, t: TxId) {
    && t in s.txs && t in s'.txs && s'.txs[t] == s.txs[t]
    && t in s.inventory.txs && t in s'.inventory.txs && ReleasesOn(s, s', t)
    && OnlyStatusMoves(Committed(s), Committed(s')) && OnlyStatusMoves(RowsSeen(s, t), RowsSeen(s', t))
    && OrdersLater(s.orders, s'.orders)
    && (forall id: nat :: HoldsIn(s.orderLocks, t, id) ==>
          HoldsIn(s'.orderLocks, t, id) && (id < |s.orders| ==> s'.orders[id] == s.orders[id]))
    && (OfOrder(s.txs[t].call) && s.txs[t].call.order < |s.orders|
        && s.orders[s.txs[t].call.order].scope == s.txs[t].call.scope
        && s'.orders[s.txs[t].call.order] == s.orders[s.txs[t].call.order] ==>
          NoNewClaims(Committed(s), Committed(s'), SourceOf(s.txs[t].call)))
  }

  lemma FreeableGoesOn(
    rows: seq<Option<Reservation>>, rows': seq<Option<Reservation>>, seen: seq<Option<Reservation>>,
    seen': seq<Option<Reservation>>, calls: seq<Request>, calls': seq<Request>, scope: Scope, source: Source)
    requires Freeable(rows, seen, calls, scope, source) && NoNewClaims(rows, rows', source)
    requires OnlyStatusMoves(seen, seen')
    requires calls' == calls
          || (calls != [] && calls' == calls[1..] && (calls[0].Release? ==> NotReserved(seen', calls[0].reservation)))
    ensures Freeable(rows', seen', calls', scope, source)
  {
    forall i | 0 <= i < |rows'| && Claims(rows'[i], source)
      ensures NotReserved(seen', i) || Release(scope, i) in calls'
    {
      if !NotReserved(seen, i) && calls' != calls && calls[0] != Release(scope, i) {
        var n :| 0 <= n < |calls| && calls[n] == Release(scope, i);
        assert calls[1..][n - 1] == Release(scope, i);
      }
    }
  }

  lemma LaterOrderTransitive(a: Order, b: Order, c: Order)
    requires LaterOrder(a, b) && LaterOrder(b, c)
    ensures LaterOrder(a, c)
  {
  }

  lemma KeptReadOrder(s: Sales, s': Sales, c: Call, o: Order)
    requires c.MovingOrder? && ReadOrder(s, c, o) && OrdersLater(s.orders, s'.orders)
    ensures ReadOrder(s', c, o)
    ensures s'.orders[c.order] == o ==> s.orders[c.order] == o
  {
    LaterOrderTransitive(o, s.orders[c.order], s'.orders[c.order]);
  }

  lemma KeptFreeable(s: Sales, s': Sales, t: TxId)
    requires KeptOrder(s, s', t) && OfOrder(s.txs[t].call) && s.txs[t].call.order < |s.orders| && FreeableNow(s, t)
    requires s.orders[s.txs[t].call.order].scope == s.txs[t].call.scope
    requires s'.orders[s.txs[t].call.order] == s.orders[s.txs[t].call.order]
    ensures FreeableNow(s', t)
  {
    FreeableGoesOn(
      Committed(s), Committed(s'), RowsSeen(s, t), RowsSeen(s', t), s.inventory.txs[t].calls, s'.inventory.txs[t].calls,
      s.txs[t].call.scope, SourceOf(s.txs[t].call));
  }

  lemma KeptMovingOrder(s: Sales, s': Sales, t: TxId)
    requires KeptOrder(s, s', t) && s.txs[t].call.MovingOrder? && MovingOrderKnows(s, t)
    ensures MovingOrderKnows(s', t)
  {
    hide Freeable, NoNewClaims;
    var c := s.txs[t].call;
    match s.txs[t].stage
    case OrderSeen(o) => KeptReadOrder(s, s', c, o);
    case Freeing(o) =>
      KeptReadOrder(s, s', c, o);
      if s'.orders[c.order] == o { KeptFreeable(s, s', t); }
    case Freed(o) =>
      KeptReadOrder(s, s', c, o);
      if s'.orders[c.order] == o { KeptFreeable(s, s', t); }
    case Written => if c.orderTo == OrderStatus.CANCELLED { KeptFreeable(s, s', t); }
    case _ =>
  }

  lemma KeptOrderKnows(s: Sales, s': Sales, t: TxId)
    requires KeptOrder(s, s', t) && OrderKnows(s, t)
    ensures OrderKnows(s', t)
  {
    hide MovingOrderKnows, NoNewClaims;
    if s.txs[t].call.MovingOrder? {
      KeptMovingOrder(s, s', t);
    }
  }

  // -------------------------------------------------- steps that commit nothing

  /** The inventory's side of such a step: the transaction's own calls and locks at most. */
  ghost predicate Aside(v: I.System, v': I.System, t: TxId) {
    && t in v.txs && t in v'.txs && RowsInv(v') && v'.committed == v.committed
    && v'.txs == v.txs[t := v'.txs[t]] && v'.txs[t].rows == v.txs[t].rows
  }

  lemma AsideKeepsOther(s: Sales, s': Sales, t: TxId, id: Option<nat>, u: TxId)
    requires t in s.txs && t in s'.txs && s'.txs == s.txs[t := s'.txs[t]] && s'.orders == s.orders
    requires s'.orderLocks == Locked(s.orderLocks, id, t) && (id.Some? ==> FreeIn(s.orderLocks, t, id.value))
    requires Aside(s.inventory, s'.inventory, t) && u != t && u in s.txs && u in s.inventory.txs
    ensures KeptOrder(s, s', u)
  {
    hide RowsInv;
  }

  lemma AsideOwns(s: Sales, s': Sales, t: TxId, u: TxId)
    requires t in s.txs && t in s'.txs && s'.txs == s.txs[t := s'.txs[t]] && s'.orders == s.orders
    requires Aside(s.inventory, s'.inventory, t) && u != t && u in s.inventory.txs && Owns(s, u)
    ensures Owns(s', u)
  {
    hide RowsInv;
  }

  /** The transaction goes on, with at most one more order locked. */
  lemma OrderGoesOn(s: Sales, s': Sales, t: TxId, id: Option<nat>)
    requires OrdersInv(s) && t in s.txs && t in s'.txs && s'.txs == s.txs[t := s'.txs[t]] && s'.orders == s.orders
    requires s'.orderLocks == Locked(s.orderLocks, id, t)
    requires id.Some? ==> id.value < |s.orders| && FreeIn(s.orderLocks, t, id.value)
    requires Aside(s.inventory, s'.inventory, t) && Owns(s', t) && OrderKnows(s', t)
    ensures OrdersInv(s')
  {
    hide RowsInv, OrderKnows, Owns, KeptOrder, OrderOk, DocumentsExist;
    forall u | u in s'.txs ensures u in s'.inventory.txs && OrderKnows(s', u) {
      if u != t {
        AsideKeepsOther(s, s', t, id, u);
        KeptOrderKnows(s, s', u);
      }
    }
    forall u | u in s'.inventory.txs ensures Owns(s', u) {
      if u != t {
        AsideOwns(s, s', t, u);
      }
    }
  }

  lemma SameInventory(s: Sales, t: TxId)
    requires OrdersInv(s) && t in s.txs
    ensures Aside(s.inventory, s.inventory, t) && OrderKnows(s, t) && Owns(s, t)
  {
    hide RowsInv, OrderKnows, Owns;
  }

  lemma AsideCalls(v: I.System, t: TxId, calls: seq<Request>)
    requires RowsInv(v) && t in v.txs && v.txs[t].calls == [] && KeysMatch(calls)
    ensures Aside(v, WithCalls(v, t, calls), t)
  {
    hide RowsInv;
    WithCallsRows(v, t, calls);
  }

  lemma AsideLock(v: I.System, t: TxId, i: nat)
    requires RowsInv(v) && t in v.txs && I.Free(v.locks, t, I.RowLock(i)) && i < |v.committed.reservations|
    ensures Aside(v, LockRow(v, t, i), t)
  {
    hide RowsInv;
    LockRowRows(v, t, i);
  }

  /** An ended transaction leaves nothing that others rely on. */
  lemma EndKeepsOther(s: Sales, t: TxId, u: TxId)
    requires u != t && u in s.txs && u in s.inventory.txs
    ensures KeptOrder(s, End(s, t), u)
  {
  }

  lemma EndOwns(s: Sales, t: TxId, u: TxId)
    requires u != t && u in s.inventory.txs && Owns(s, u)
    ensures u in End(s, t).inventory.txs && Owns(End(s, t), u)
  {
  }

  lemma EndKeepsOrders(s: Sales, t: TxId)
    requires OrdersInv(s)
    ensures OrdersInv(End(s, t))
  {
    hide RowsInv, OrderKnows, Owns, KeptOrder, OrderOk, DocumentsExist;
    var s' := End(s, t);
    EndRows(s.inventory, t);
    forall u | u in s'.txs ensures u in s'.inventory.txs && OrderKnows(s', u) {
      EndKeepsOther(s, t, u);
      KeptOrderKnows(s, s', u);
    }
    forall u | u in s'.inventory.txs ensures Owns(s', u) {
      EndOwns(s, t, u);
    }
  }

  // ------------------------------------------------------------ orders' steps

  lemma WriteOrderInv(s: Sales, t: TxId, o: Order, stage: Stage)
    requires OrdersInv(s) && t in s.txs && OfOrder(s.txs[t].call) && s.txs[t].call.order < |s.orders|
    requires FreeIn(s.orderLocks, t, s.txs[t].call.order)
    requires t in s.inventory.txs && OrderKnows(WriteOrder(s, t, s.txs[t].call.order, o, stage), t)
    ensures OrdersInv(WriteOrder(s, t, s.txs[t].call.order, o, stage))
  {
    hide OrdersInv, OrderKnows, Aside;
    var s' := WriteOrder(s, t, s.txs[t].call.order, o, stage);
    SameInventory(s, t);
    OrderGoesOn(s, s', t, Some(s.txs[t].call.order));
  }

  lemma CallsOwned(s: Sales, s': Sales, t: TxId, calls: seq<Request>, stage: Stage)
    requires t in s.txs && t in s.inventory.txs && Owns(s, t)
    requires s' == To(s, t, stage).(inventory := WithCalls(s.inventory, t, calls))
    requires forall n :: 0 <= n < |calls| && calls[n].Reserve? ==> MayReserve(s, t, calls[n].source)
    ensures Owns(s', t)
  {
  }

  lemma ReserveCallsStart(s: Sales, t: TxId)
    requires OrdersInv(s) && t in s.txs && t in s.inventory.txs && s.txs[t].call.Reserving? && s.txs[t].stage.Begun?
    requires s.inventory.txs[t].calls == []
    requires OrderShown(s, s.txs[t].call.scope, s.txs[t].call.order) && CanReserve(s.orders[s.txs[t].call.order])
    ensures OrdersInv(ReservingStep(s, t))
  {
    hide RowsInv, Aside, OrderOk, DocumentsExist;
    var id, o := s.txs[t].call.order, s.orders[s.txs[t].call.order];
    var calls := LineRequests(s.txs[t].call.scope, id, o.warehouse.value, o.lines);
    var s' := ReservingStep(s, t);
    AsideCalls(s.inventory, t, calls);
    CallsOwned(s, s', t, calls, OrderSeen(o));
    assert OrderKnows(s, t);
    OrderGoesOn(s, s', t, None);
  }

  lemma MarkReservedKnown(s: Sales, t: TxId, row: Order)
    requires t in s.txs && t in s.inventory.txs && s.txs[t].call.Reserving? && s.txs[t].stage.OrderSeen?
    requires ReservingKnows(s, t)
    requires var now := s.orders[s.txs[t].call.order];
             now.status != OrderStatus.CANCELLED && row == now.(reserved := true, version := now.version + 1)
    ensures OrderKnows(WriteOrder(s, t, s.txs[t].call.order, row, Written), t)
  {
  }

  lemma KnowsOrder(s: Sales, t: TxId)
    requires OrdersInv(s) && t in s.txs
    ensures t in s.inventory.txs && OrderKnows(s, t)
  {
    hide RowsInv, OrderKnows, Owns, OrderOk, DocumentsExist;
  }

  lemma ReservingInv(s: Sales, t: TxId)
    requires OrdersInv(s) && t in s.txs && t in s.inventory.txs && s.txs[t].call.Reserving?
    requires s.inventory.txs[t].calls == []
    requires s.txs[t].stage.OrderSeen? && s.txs[t].call.order < |s.orders| ==>
      s.orders[s.txs[t].call.order].status != OrderStatus.CANCELLED
    ensures OrdersInv(ReservingStep(s, t))
  {
    hide OrdersInv, OrderKnows;
    var id := s.txs[t].call.order;
    match s.txs[t].stage
    case Begun =>
      if !OrderShown(s, s.txs[t].call.scope, id) || !CanReserve(s.orders[id]) {
        EndKeepsOrders(s, t);
      } else {
        ReserveCallsStart(s, t);
      }
    case OrderSeen(_) =>
      KnowsOrder(s, t);
      assert ReservingKnows(s, t) by { assert OrderKnows(s, t); ReservingOf(s, t); }
      if FreeIn(s.orderLocks, t, id) {
        var now := s.orders[id];
        if now.deleted {
          EndKeepsOrders(s, t);
        } else {
          MarkReservedKnown(s, t, now.(reserved := true, version := now.version + 1));
          WriteOrderInv(s, t, now.(reserved := true, version := now.version + 1), Written);
        }
      }
    case _ =>
  }

  lemma ReservingOf(s: Sales, t: TxId)
    requires t in s.txs && t in s.inventory.txs && s.txs[t].call.Reserving? && OrderKnows(s, t)
    ensures ReservingKnows(s, t)
  {
  }

  lemma MovingOf(s: Sales, t: TxId)
    requires t in s.txs && t in s.inventory.txs && s.txs[t].call.MovingOrder? && OrderKnows(s, t)
    ensures MovingOrderKnows(s, t)
  {
  }

  lemma OrderReadKnown(s: Sales, t: TxId)
    requires t in s.txs && t in s.inventory.txs && s.txs[t].call.MovingOrder? && s.txs[t].stage.Begun?
    requires MovingOrderKnows(s, t)
    requires var c := s.txs[t].call;
             && OrderShown(s, c.scope, c.order) && OrderMoves(s.orders[c.order].status, c.orderTo)
             && c.expected <= s.orders[c.order].version
    ensures OrderKnows(To(s, t, OrderSeen(s.orders[s.txs[t].call.order])), t)
  {
  }

  lemma StageInv(s: Sales, t: TxId, stage: Stage)
    requires OrdersInv(s) && t in s.txs && t in s.inventory.txs && OrderKnows(To(s, t, stage), t)
    ensures OrdersInv(To(s, t, stage))
  {
    hide OrdersInv, OrderKnows, Aside, Owns;
    SameInventory(s, t);
    StageOwns(s, t, stage);
    OrderGoesOn(s, To(s, t, stage), t, None);
  }

  lemma StageOwns(s: Sales, t: TxId, stage: Stage)
    requires t in s.txs && t in s.inventory.txs && Owns(s, t)
    ensures Owns(To(s, t, stage), t)
  {
  }

  /** The listing: what is RESERVED there gets released. */
  lemma ListedIsFreeable(rows: seq<Option<Reservation>>, seen: seq<Option<Reservation>>, scope: Scope, source: Source)
    requires OnlyStatusMoves(rows, seen)
    ensures Freeable(rows, seen, Releases(scope, seen, SourceRows(seen, source)), scope, source)
  {
  }

  lemma FreeingKnown(s: Sales, s': Sales, t: TxId, o: Order, calls: seq<Request>)
    requires t in s.txs && t in s.inventory.txs && s.txs[t].call.MovingOrder? && s.txs[t].stage == OrderSeen(o)
    requires MovingOrderKnows(s, t)
    requires s.txs[t].call.orderTo == OrderStatus.CANCELLED
    requires s' == To(s, t, Freeing(o)).(inventory := WithCalls(s.inventory, t, calls))
    requires Freeable(Committed(s), RowsSeen(s, t), calls, s.txs[t].call.scope, SourceOf(s.txs[t].call))
    ensures OrderKnows(s', t)
  {
    assert RowsSeen(s', t) == RowsSeen(s, t);
  }

  lemma ListInv(s: Sales, t: TxId, o: Order)
    requires OrdersInv(s) && t in s.txs && t in s.inventory.txs && s.txs[t].call.MovingOrder?
    requires s.txs[t].stage == OrderSeen(o)
    requires s.inventory.txs[t].calls == [] && s.txs[t].call.orderTo == OrderStatus.CANCELLED
    ensures var c, rows := s.txs[t].call, RowsSeen(s, t);
            var calls := Releases(c.scope, rows, SourceRows(rows, OrderSource(c.scope, c.order)));
            OrdersInv(To(s, t, Freeing(o)).(inventory := WithCalls(s.inventory, t, calls)))
  {
    hide RowsInv, RowsOk, OrderKnows, Owns, OrderOk, DocumentsExist, Aside, MovingOrderKnows, Freeable;
    var c, rows := s.txs[t].call, RowsSeen(s, t);
    var calls := Releases(c.scope, rows, SourceRows(rows, OrderSource(c.scope, c.order)));
    var s' := To(s, t, Freeing(o)).(inventory := WithCalls(s.inventory, t, calls));
    SeenMoves(s.inventory, t);
    MovingOf(s, t);
    ListedIsFreeable(Committed(s), rows, c.scope, SourceOf(c));
    FreeingKnown(s, s', t, o, calls);
    AsideCalls(s.inventory, t, calls);
    CallsOwned(s, s', t, calls, Freeing(o));
    OrderGoesOn(s, s', t, None);
  }

  lemma SeenMoves(v: I.System, t: TxId)
    requires RowsInv(v) && t in v.txs
    ensures OnlyStatusMoves(v.committed.reservations, I.ViewRows(v.committed.reservations, v.txs[t].rows))
  {
    assert RowsOk(v.committed, v.txs[t]);
  }

  lemma FreedKnown(s: Sales, t: TxId, o: Order, row: Order)
    requires t in s.txs && t in s.inventory.txs && s.txs[t].call.MovingOrder? && s.txs[t].stage == Freeing(o)
    requires MovingOrderKnows(s, t)
    requires s.inventory.txs[t].calls == []
    requires var now := s.orders[s.txs[t].call.order]; row == now.(reserved := false, version := now.version + 1)
    ensures OrderKnows(WriteOrder(s, t, s.txs[t].call.order, row, Freed(o)), t)
  {
    hide Freeable;
  }

  lemma ClaimlessIsFreeable(
    rows: seq<Option<Reservation>>, seen: seq<Option<Reservation>>, calls: seq<Request>, scope: Scope, source: Source)
    requires Claimless(rows, source)
    ensures Freeable(rows, seen, calls, scope, source)
  {
  }

  /** The version asked for is the committed row's and not above the one read, so the row is the one read. */
  lemma MovedKnown(s: Sales, t: TxId, o: Order, row: Order)
    requires t in s.txs && t in s.inventory.txs && s.txs[t].call.MovingOrder? && MovingOrderKnows(s, t)
    requires s.inventory.txs[t].calls == []
    requires s.txs[t].stage == Freed(o) ||
      (s.txs[t].stage == OrderSeen(o) && !(s.txs[t].call.orderTo == OrderStatus.CANCELLED && o.reserved)
       && OrderOk(Committed(s), s.orders[s.txs[t].call.order], s.txs[t].call.order))
    requires var now := OrderNow(s, s.txs[t], s.txs[t].call.order);
             && now.version == s.txs[t].call.expected + (if s.txs[t].stage.Freed? then 1 else 0)
             && row == now.(status := s.txs[t].call.orderTo, version := now.version + 1)
    requires FreeIn(s.orderLocks, t, s.txs[t].call.order)
    ensures OrderKnows(WriteOrder(s, t, s.txs[t].call.order, row, Written), t)
  {
    hide Freeable, Claimless;
    var c := s.txs[t].call;
    if s.txs[t].stage.OrderSeen? && c.orderTo == OrderStatus.CANCELLED {
      ClaimlessIsFreeable(Committed(s), RowsSeen(s, t), [], c.scope, SourceOf(c));
    }
  }

  lemma OrderIsOk(s: Sales, id: nat)
    requires OrdersInv(s) && id < |s.orders|
    ensures OrderOk(Committed(s), s.orders[id], id)
  {
    hide RowsInv, OrderKnows, Owns, OrderOk, DocumentsExist;
  }

  lemma MovingUpdates(s: Sales, t: TxId, o: Order, version: int)
    requires OrdersInv(s) && t in s.txs && t in s.inventory.txs && s.txs[t].call.MovingOrder?
    requires s.inventory.txs[t].calls == []
    requires s.txs[t].call.order < |s.orders|
    requires (s.txs[t].stage == Freed(o) && version == s.txs[t].call.expected + 1) ||
      (s.txs[t].stage == OrderSeen(o) && !(s.txs[t].call.orderTo == OrderStatus.CANCELLED && o.reserved)
       && version == s.txs[t].call.expected)
    ensures OrdersInv(UpdateOrder(s, t, s.txs[t].call.order, s.txs[t].call.orderTo, version))
  {
    hide OrdersInv, OrderKnows, MovingOrderKnows, OrderOk;
    var c := s.txs[t].call;
    var now := OrderNow(s, s.txs[t], c.order);
    if FreeIn(s.orderLocks, t, c.order) {
      if now.deleted || now.version != version {
        EndKeepsOrders(s, t);
      } else {
        KnowsOrder(s, t);
        MovingOf(s, t);
        OrderIsOk(s, c.order);
        var row := now.(status := c.orderTo, version := now.version + 1);
        MovedKnown(s, t, o, row);
        WriteOrderInv(s, t, row, Written);
      }
    }
  }

  lemma MovingFrees(s: Sales, t: TxId, o: Order)
    requires OrdersInv(s) && t in s.txs && t in s.inventory.txs && s.txs[t].call.MovingOrder?
    requires s.inventory.txs[t].calls == []
    requires s.txs[t].stage == Freeing(o) && s.txs[t].call.order < |s.orders|
    ensures OrdersInv(MarkOrder(s, t, s.txs[t].call.order, false, Freed(o)))
  {
    hide OrdersInv, OrderKnows;
    var c := s.txs[t].call;
    KnowsOrder(s, t);
    MovingOf(s, t);
    var now := s.orders[c.order];
    if FreeIn(s.orderLocks, t, c.order) {
      if now.deleted {
        EndKeepsOrders(s, t);
      } else {
        var row := now.(reserved := false, version := now.version + 1);
        FreedKnown(s, t, o, row);
        WriteOrderInv(s, t, row, Freed(o));
      }
    }
  }

  lemma MovingOrderInv(s: Sales, t: TxId)
    requires OrdersInv(s) && t in s.txs && t in s.inventory.txs && s.txs[t].call.MovingOrder?
    requires s.inventory.txs[t].calls == []
    requires s.txs[t].stage.Begun? && OrderShown(s, s.txs[t].call.scope, s.txs[t].call.order) ==>
      s.txs[t].call.expected <= s.orders[s.txs[t].call.order].version
    ensures OrdersInv(MovingOrderStep(s, t))
  {
    hide OrdersInv, OrderKnows, MovingOrderKnows;
    var c := s.txs[t].call;
    match s.txs[t].stage
    case Begun =>
      if c.expected < 1 || !OrderShown(s, c.scope, c.order) || !OrderMoves(s.orders[c.order].status, c.orderTo) {
        EndKeepsOrders(s, t);
      } else {
        KnowsOrder(s, t);
        MovingOf(s, t);
        OrderReadKnown(s, t);
        StageInv(s, t, OrderSeen(s.orders[c.order]));
      }
    case OrderSeen(o) =>
      if c.order < |s.orders| {
        if c.orderTo == OrderStatus.CANCELLED && o.reserved {
          ListInv(s, t, o);
        } else {
          MovingUpdates(s, t, o, c.expected);
        }
      }
    case Freeing(o) => if c.order < |s.orders| { MovingFrees(s, t, o); }
    case Freed(o) => if c.order < |s.orders| { MovingUpdates(s, t, o, c.expected + 1); }
    case _ =>
  }

  // -------------------------------------------------- deliveries' calls beside

  /** A delivery's call writes no order; at most it makes issue calls or locks a row that exists. */
  ghost predicate Beside(s: Sales, s': Sales, t: TxId)
    requires t in s.txs && t in s.inventory.txs
  {
    && t in s'.txs && s'.txs == s.txs[t := s'.txs[t]]
    && s'.txs[t].call == s.txs[t].call && s'.txs[t].order == s.txs[t].order
    && s'.orders == s.orders && s'.orderLocks == s.orderLocks && RangeOk(s', s'.txs[t])
    && Aside(s.inventory, s'.inventory, t)
    && (forall n :: 0 <= n < |s'.inventory.txs[t].calls| ==> !s'.inventory.txs[t].calls[n].Reserve?)
  }

  lemma BesideInv(s: Sales, s': Sales, t: TxId)
    requires OrdersInv(s) && t in s.txs && t in s.inventory.txs && !OfOrder(s.txs[t].call) && Beside(s, s', t)
    ensures OrdersInv(s')
  {
    hide RowsInv, OrderOk, DocumentsExist;
    assert OrderKnows(s, t) && Owns(s, t);
    OrderGoesOn(s, s', t, None);
  }

  lemma SameBeside(s: Sales, s': Sales, t: TxId)
    requires RowsInv(s.inventory) && t in s.txs && t in s.inventory.txs && s.inventory.txs[t].calls == []
    requires t in s'.txs && s'.txs == s.txs[t := s'.txs[t]] && s'.txs[t].call == s.txs[t].call
    requires s'.txs[t].order == s.txs[t].order
    requires s'.orders == s.orders && s'.orderLocks == s.orderLocks && s'.inventory == s.inventory
    requires RangeOk(s', s'.txs[t])
    ensures Beside(s, s', t)
  {
    hide RowsInv;
  }

  lemma SourceRowsExist(rows: seq<Option<Reservation>>, source: Source)
    ensures forall i :: i in SourceRows(rows, source) ==> i < |rows|
  {
  }

  lemma UpdateDeliveryInv(s: Sales, t: TxId, d: nat, to: DeliveryStatus, version: int)
    requires OrdersInv(s) && t in s.txs && t in s.inventory.txs && !OfOrder(s.txs[t].call)
    requires s.inventory.txs[t].calls == []
    ensures OrdersInv(UpdateDelivery(s, t, d, to, version))
  {
    hide OrdersInv, Beside;
    if FreeIn(s.deliveryLocks, t, d) {
      if d >= |s.deliveries| || s.deliveries[d].None? || s.deliveries[d].value.version != version {
        EndKeepsOrders(s, t);
      } else {
        var now := s.deliveries[d].value;
        BesideAfter(s, WriteDelivery(s, t, d, now.(status := to, version := now.version + 1)), t);
      }
    }
  }

  lemma BesideAfter(s: Sales, s': Sales, t: TxId)
    requires OrdersInv(s) && t in s.txs && t in s.inventory.txs && !OfOrder(s.txs[t].call)
    requires s.inventory.txs[t].calls == []
    requires t in s'.txs && s'.txs == s.txs[t := s'.txs[t]] && s'.txs[t].call == s.txs[t].call
    requires s'.txs[t].order == s.txs[t].order
    requires s'.orders == s.orders && s'.orderLocks == s.orderLocks && s'.inventory == s.inventory
    requires RangeOk(s, s'.txs[t])
    ensures OrdersInv(s')
  {
    assert RowsInv(s.inventory);
    hide OrdersInv, RowsInv;
    SameBeside(s, s', t);
    BesideInv(s, s', t);
  }

  /** A step after which the transaction is gone, or has written no order and made no call. */
  lemma EndsOrBeside(s: Sales, s': Sales, t: TxId)
    requires OrdersInv(s) && t in s.txs && t in s.inventory.txs && s.txs[t].call.Creating?
    requires s.inventory.txs[t].calls == []
    requires s' == s || s' == End(s, t)
          || (t in s'.txs && s'.txs == s.txs[t := s'.txs[t]] && s'.txs[t].call == s.txs[t].call
              && s'.txs[t].order == s.txs[t].order && !s'.txs[t].stage.Locking?
              && s'.orders == s.orders && s'.orderLocks == s.orderLocks && s'.inventory == s.inventory)
    ensures OrdersInv(s')
  {
    hide OrdersInv;
    EndKeepsOrders(s, t);
    if s' != s && s' != End(s, t) {
      BesideAfter(s, s', t);
    }
  }

  lemma CreatingInv(s: Sales, t: TxId)
    requires OrdersInv(s) && t in s.txs && t in s.inventory.txs && s.txs[t].call.Creating?
    requires s.inventory.txs[t].calls == []
    ensures OrdersInv(CreatingStep(s, t))
  {
    hide OrdersInv;
    match s.txs[t].stage
    case Begun => EndsOrBeside(s, OpenStep(s, t), t);
    case OrderSeen(o) => EndsOrBeside(s, InsertStep(s, t, o), t);
    case Opened(d, lines) => EndsOrBeside(s, ListStep(s, t, d, lines), t);
    case Linking(d, linked) => EndsOrBeside(s, LinkStep(s, t, d, linked), t);
    case _ => EndsOrBeside(s, CreatingStep(s, t), t);
  }

  lemma RangeOfLocking(s: Sales, t: TxId)
    requires OrdersInv(s) && t in s.txs && s.txs[t].call.MovingDelivery? && s.txs[t].stage.Locking?
    ensures RangeOk(s, s.txs[t])
  {
    hide RowsInv, Owns, OrderOk, DocumentsExist;
    assert OrderKnows(s, t);
  }

  lemma RowsOfOrders(s: Sales)
    requires OrdersInv(s)
    ensures RowsInv(s.inventory)
  {
    hide RowsInv, OrderKnows, Owns, OrderOk, DocumentsExist;
  }

  lemma CallsBeside(s: Sales, s': Sales, t: TxId, stage: Stage, calls: seq<Request>)
    requires t in s.txs && t in s.inventory.txs && stage.Issuing? && Aside(s.inventory, s'.inventory, t)
    requires s' == To(s, t, stage).(inventory := WithCalls(s.inventory, t, calls))
    requires forall n :: 0 <= n < |calls| ==> calls[n].Fulfil?
    ensures Beside(s, s', t)
  {
    hide RowsInv;
  }

  lemma IssueStartInv(s: Sales, s': Sales, t: TxId, stage: Stage, calls: seq<Request>)
    requires OrdersInv(s) && t in s.txs && t in s.inventory.txs && s.txs[t].call.MovingDelivery?
    requires s.inventory.txs[t].calls == []
    requires stage.Issuing? && s' == To(s, t, stage).(inventory := WithCalls(s.inventory, t, calls))
    requires KeysMatch(calls) && forall n :: 0 <= n < |calls| ==> calls[n].Fulfil?
    ensures OrdersInv(s')
  {
    hide OrdersInv, RowsInv, Aside, Beside;
    RowsOfOrders(s);
    AsideCalls(s.inventory, t, calls);
    CallsBeside(s, s', t, stage, calls);
    BesideInv(s, s', t);
  }

  lemma LockBeside(s: Sales, s': Sales, t: TxId, i: nat, stage: Stage)
    requires t in s.txs && t in s.inventory.txs && s.inventory.txs[t].calls == [] && Aside(s.inventory, s'.inventory, t)
    requires s' == To(s, t, stage).(inventory := LockRow(s.inventory, t, i)) && RangeOk(s, s.txs[t].(stage := stage))
    ensures Beside(s, s', t)
  {
    hide RowsInv;
  }

  lemma RowLockInv(s: Sales, s': Sales, t: TxId, i: nat, stage: Stage)
    requires OrdersInv(s) && t in s.txs && t in s.inventory.txs && s.txs[t].call.MovingDelivery?
    requires s.inventory.txs[t].calls == []
    requires I.Free(s.inventory.locks, t, I.RowLock(i)) && i < |Committed(s)|
    requires s' == To(s, t, stage).(inventory := LockRow(s.inventory, t, i)) && RangeOk(s, s.txs[t].(stage := stage))
    ensures OrdersInv(s')
  {
    hide OrdersInv, RowsInv, Aside, Beside, RangeOk;
    RowsOfOrders(s);
    AsideLock(s.inventory, t, i);
    LockBeside(s, s', t, i, stage);
    BesideInv(s, s', t);
  }

  lemma LockStepInv(s: Sales, t: TxId, seen: Delivery, ids: seq<nat>, n: nat)
    requires OrdersInv(s) && t in s.txs && t in s.inventory.txs && s.txs[t].call.MovingDelivery?
    requires s.txs[t].stage == Locking(seen, ids, n) && s.inventory.txs[t].calls == []
    ensures OrdersInv(LockStep(s, t, seen, ids, n))
  {
    hide OrdersInv, KeysMatch;
    RangeOfLocking(s, t);
    var c := s.txs[t].call;
    if n >= |ids| {
      IssuesMatch(c.scope, ids, c.delivery);
      IssueStartInv(s, LockStep(s, t, seen, ids, n), t, Issuing(seen, ids), IssueCalls(c.scope, ids, c.delivery));
    } else if I.Free(s.inventory.locks, t, I.RowLock(ids[n])) {
      assert ids[n] in ids;
      RowLockInv(s, LockStep(s, t, seen, ids, n), t, ids[n], Locking(seen, ids, n + 1));
    }
  }

  lemma IssuesMatch(scope: Scope, ids: seq<nat>, d: nat)
    ensures KeysMatch(IssueCalls(scope, ids, d))
  {
  }

  lemma MovingDeliveryInv(s: Sales, t: TxId)
    requires OrdersInv(s) && t in s.txs && t in s.inventory.txs && s.txs[t].call.MovingDelivery?
    requires s.inventory.txs[t].calls == []
    ensures OrdersInv(MovingDeliveryStep(s, t))
  {
    hide OrdersInv, LockStep, UpdateDelivery;
    var c := s.txs[t].call;
    match s.txs[t].stage
    case Begun =>
      if c.expected < 1 || !DeliveryShown(s, c.scope, c.delivery) {
        EndKeepsOrders(s, t);
      } else {
        BesideAfter(s, To(s, t, HeadSeen(s.deliveries[c.delivery].value)), t);
      }
    case HeadSeen(head) => LinesStepInv(s, t, head);
    case LinesSeen(seen) =>
      if c.to != COMPLETED {
        UpdateDeliveryInv(s, t, c.delivery, c.to, c.expected);
      } else {
        ListIdsInv(s, t, seen);
      }
    case Locking(seen, ids, n) => LockStepInv(s, t, seen, ids, n);
    case Issuing(_, _) => UpdateDeliveryInv(s, t, c.delivery, c.to, c.expected);
    case _ =>
  }

  lemma LinesStepInv(s: Sales, t: TxId, head: Delivery)
    requires OrdersInv(s) && t in s.txs && t in s.inventory.txs && s.txs[t].call.MovingDelivery?
    requires s.inventory.txs[t].calls == []
    ensures OrdersInv(LinesStep(s, t, head))
  {
    hide OrdersInv;
    if t !in LinesStep(s, t, head).txs {
      EndKeepsOrders(s, t);
    } else if LinesStep(s, t, head) != s {
      BesideAfter(s, LinesStep(s, t, head), t);
    }
  }

  lemma ListIdsInv(s: Sales, t: TxId, seen: Delivery)
    requires OrdersInv(s) && t in s.txs && t in s.inventory.txs && s.txs[t].call.MovingDelivery?
    requires s.inventory.txs[t].calls == []
    requires s.txs[t].stage == LinesSeen(seen) && s.txs[t].call.to == COMPLETED
    ensures OrdersInv(MovingDeliveryStep(s, t))
  {
    hide OrdersInv;
    var ids := SourceRows(RowsSeen(s, t), OrderSource(s.txs[t].call.scope, seen.order));
    if ids == [] {
      EndKeepsOrders(s, t);
    } else {
      SourceRowsExist(RowsSeen(s, t), OrderSource(s.txs[t].call.scope, seen.order));
      BesideAfter(s, To(s, t, Locking(seen, ids, 0)), t);
    }
  }

  // --------------------------------------------------- the inventory's own steps

  lemma GrownNoClaims(rows: seq<Option<Reservation>>, rows': seq<Option<Reservation>>, source: Source)
    requires rows' == rows || rows' == rows + [None]
    ensures NoNewClaims(rows, rows', source)
  {
  }

  lemma NoNewKeepsOk(rows: seq<Option<Reservation>>, rows': seq<Option<Reservation>>, o: Order, id: nat)
    requires OrderOk(rows, o, id) && NoNewClaims(rows, rows', OrderSource(o.scope, id))
    ensures OrderOk(rows', o, id)
  {
  }

  /** One inventory statement of transaction `t`, seen by the orders: nothing is committed but an empty place. */
  ghost predicate InnerStep(s: Sales, s': Sales, t: TxId) {
    && t in s.inventory.txs && s.inventory.txs[t].calls != [] && Advanced(s.inventory, s'.inventory, t)
    && RowsInv(s'.inventory) && ViewsMove(s.inventory, s'.inventory)
    && s'.orders == s.orders
    && (t in s'.inventory.txs ==> s'.txs == s.txs && s'.orderLocks == s.orderLocks)
    && (t !in s'.inventory.txs ==>
          s'.txs == s.txs - {t} && s'.orderLocks == (if t in s.txs then Without(s.orderLocks, t) else s.orderLocks))
  }

  lemma InnerKept(s: Sales, s': Sales, t: TxId, u: TxId)
    requires InnerStep(s, s', t) && u in s.txs && u in s'.txs && u in s.inventory.txs
    ensures KeptOrder(s, s', u)
  {
    hide RowsInv, RowsOk, NoNewClaims;
    if OfOrder(s.txs[u].call) {
      GrownNoClaims(Committed(s), Committed(s'), SourceOf(s.txs[u].call));
    }
  }

  lemma InnerOwns(s: Sales, s': Sales, t: TxId, u: TxId)
    requires InnerStep(s, s', t) && u in s.inventory.txs && u in s'.inventory.txs && Owns(s, u)
    requires u in s.txs ==> u in s'.txs
    ensures Owns(s', u)
  {
    hide RowsInv, RowsOk;
    if u == t {
      OwnStep(s, s', t);
    }
  }

  lemma OwnStep(s: Sales, s': Sales, t: TxId)
    requires InnerStep(s, s', t) && t in s'.inventory.txs && Owns(s, t)
    ensures Owns(s', t)
  {
    hide RowsInv, RowsOk;
    var tx, tx' := s.inventory.txs[t], s'.inventory.txs[t];
    forall i | i in tx'.rows
      ensures i < |Committed(s')| && (Committed(s')[i].None? ==> MayReserve(s', t, tx'.rows[i].source))
    {
      assert OwnRowsFrom(s.inventory.committed, s'.inventory.committed, tx, tx');
      if i in tx.rows {
        assert RowsSeen(s, t)[i] == Some(tx.rows[i]) && RowsSeen(s', t)[i] == Some(tx'.rows[i]);
      }
    }
  }

  lemma DocumentsStay(rows: seq<Option<Reservation>>, orders: nat)
    requires DocumentsExist(rows, orders)
    ensures DocumentsExist(rows + [None], orders)
  {
  }

  lemma InnerLeaves(s: Sales, s': Sales, t: TxId)
    requires InnerStep(s, s', t)
    ensures forall u :: u in s'.inventory.txs ==> u in s.inventory.txs && (u in s.txs ==> u in s'.txs)
  {
    hide RowsInv, ViewsMove, AdvancedTx;
  }

  lemma InnerInv(s: Sales, s': Sales, t: TxId)
    requires OrdersInv(s) && InnerStep(s, s', t)
    requires t !in s.txs ==> s'.txs == s.txs
    ensures OrdersInv(s')
  {
    hide RowsInv, OrderKnows, Owns, KeptOrder, OrderOk, DocumentsExist, InnerStep;
    InnerLeaves(s, s', t);
    forall u | u in s'.txs ensures u in s'.inventory.txs && OrderKnows(s', u) {
      InnerStays(s, s', t, u);
      InnerKept(s, s', t, u);
      KeptOrderKnows(s, s', u);
    }
    forall u | u in s'.inventory.txs ensures Owns(s', u) {
      InnerOwns(s, s', t, u);
    }
    InnerOrders(s, s', t);
  }

  lemma InnerStays(s: Sales, s': Sales, t: TxId, u: TxId)
    requires InnerStep(s, s', t) && u in s'.txs && (forall x :: x in s.txs ==> x in s.inventory.txs)
    ensures u in s.txs && u in s'.inventory.txs
  {
    hide RowsInv, RowsOk, ViewsMove;
  }

  lemma InnerOrders(s: Sales, s': Sales, t: TxId)
    requires OrdersInv(s) && InnerStep(s, s', t)
    ensures RowsInv(s'.inventory) && OrdersOk(s') && DocumentsExist(Committed(s'), |s'.orders|)
    ensures forall id: nat :: id in s'.orderLocks ==> id < |s'.orders|
  {
    hide RowsInv, OrderKnows, Owns, OrderOk, DocumentsExist, AdvancedTx, ViewsMove;
    DocumentsStay(Committed(s), |s.orders|);
    forall id | 0 <= id < |s'.orders| ensures OrderOk(Committed(s'), s'.orders[id], id) {
      GrownNoClaims(Committed(s), Committed(s'), OrderSource(s.orders[id].scope, id));
      NoNewKeepsOk(Committed(s), Committed(s'), s.orders[id], id);
    }
  }

  lemma AdvanceInner(s: Sales, t: TxId)
    requires OrdersInv(s) && t in s.txs && t in s.inventory.txs && s.inventory.txs[t].calls != []
    ensures OrdersInv(AdvanceStep(s, t))
  {
    hide OrdersInv, RowsInv, Advanced, ViewsMove;
    RowsOfOrders(s);
    StepRows(s.inventory, t);
    assert InnerStep(s, AdvanceStep(s, t), t);
    InnerInv(s, AdvanceStep(s, t), t);
  }

  // ------------------------------------------------------------------ commits

  /** A commit adds no claim of a source it may not reserve for. */
  lemma CommitNoNewClaims(s: Sales, u: TxId, source: Source)
    requires u in s.inventory.txs && Owns(s, u) && OnlyStatusMoves(Committed(s), RowsSeen(s, u)) && OfAnOrder(source)
    requires !(u in s.txs && s.txs[u].call.Reserving? && SourceOf(s.txs[u].call) == source)
    ensures NoNewClaims(Committed(s), RowsSeen(s, u), source)
  {
  }

  /** What a commit of `u`, of either side, does to orders and rows. */
  ghost predicate CommitOf(s: Sales, s': Sales, u: TxId) {
    && u in s.inventory.txs && s.inventory.txs[u].calls == []
    && RowsInv(s'.inventory) && ViewsMove(s.inventory, s'.inventory) && Committed(s') == RowsSeen(s, u)
    && s'.inventory.txs == s.inventory.txs - {u} && s'.txs == s.txs - {u}
    && s'.orderLocks == (if u in s.txs then Without(s.orderLocks, u) else s.orderLocks)
    && (if u in s.txs && OfOrder(s.txs[u].call) && s.txs[u].order.Some? && s.txs[u].call.order < |s.orders|
        then s'.orders == s.orders[s.txs[u].call.order := s.txs[u].order.value] else s'.orders == s.orders)
    && (u in s.txs && OfOrder(s.txs[u].call) ==> OwnOrder(s, u))
  }

  lemma CommitKept(s: Sales, s': Sales, u: TxId, t: TxId)
    requires CommitOf(s, s', u) && t in s.txs && t in s'.txs && t in s.inventory.txs && Owns(s, u)
    requires OnlyStatusMoves(Committed(s), RowsSeen(s, u))
    ensures KeptOrder(s, s', t)
  {
    hide RowsInv, NoNewClaims, Owns;
    if OfOrder(s.txs[t].call) && !(u in s.txs && s.txs[u].call.Reserving?
      && SourceOf(s.txs[u].call) == SourceOf(s.txs[t].call)) {
      CommitNoNewClaims(s, u, SourceOf(s.txs[t].call));
    }
  }

  lemma CommitOwns(s: Sales, s': Sales, u: TxId, t: TxId)
    requires CommitOf(s, s', u) && t in s'.inventory.txs && Owns(s, t) && OnlyStatusMoves(Committed(s), RowsSeen(s, u))
    ensures Owns(s', t)
  {
    hide RowsInv, ViewsMove;
  }

  lemma CommitDocuments(s: Sales, s': Sales, u: TxId)
    requires CommitOf(s, s', u) && Owns(s, u) && OnlyStatusMoves(Committed(s), RowsSeen(s, u))
    requires DocumentsExist(Committed(s), |s.orders|)
    ensures DocumentsExist(Committed(s'), |s'.orders|)
  {
    hide RowsInv, ViewsMove;
    var rows := RowsSeen(s, u);
    forall i | 0 <= i < |rows| && rows[i].Some? && OfAnOrder(rows[i].value.source)
      ensures rows[i].value.source.document < |s.orders|
    {
      if Committed(s)[i].None? {
        assert i in s.inventory.txs[u].rows;
      }
    }
  }

  /** The order a transition commits: cancelled, it claims nothing in the view that becomes the tables. */
  lemma CancelledClaimless(s: Sales, u: TxId, source: Source)
    requires u in s.txs && u in s.inventory.txs && s.txs[u].call.MovingOrder? && source == SourceOf(s.txs[u].call)
    requires Owns(s, u) && OnlyStatusMoves(Committed(s), RowsSeen(s, u)) && s.inventory.txs[u].calls == []
    requires FreeableNow(s, u)
    ensures Claimless(RowsSeen(s, u), source)
  {
    CommitNoNewClaims(s, u, source);
  }

  lemma OwnRowOk(s: Sales, u: TxId)
    requires u in s.txs && u in s.inventory.txs && OfOrder(s.txs[u].call) && s.txs[u].stage.Written? && OrderKnows(s, u)
    requires Owns(s, u) && OnlyStatusMoves(Committed(s), RowsSeen(s, u)) && s.inventory.txs[u].calls == []
    requires s.txs[u].call.order < |s.orders| ==>
      OrderOk(Committed(s), s.orders[s.txs[u].call.order], s.txs[u].call.order)
    ensures OwnOrder(s, u) && OrderOk(RowsSeen(s, u), s.txs[u].order.value, s.txs[u].call.order)
  {
    hide Owns, Claimless, NoNewClaims, FreeableNow;
    var tx := s.txs[u];
    if tx.call.MovingOrder? && !tx.order.value.reserved {
      if tx.call.orderTo == OrderStatus.CANCELLED {
        CancelledClaimless(s, u, SourceOf(tx.call));
      } else {
        CommitNoNewClaims(s, u, SourceOf(tx.call));
        NoNewKeepsOk(Committed(s), RowsSeen(s, u), s.orders[tx.call.order], tx.call.order);
      }
    }
  }

  lemma CommitOrderOk(s: Sales, s': Sales, u: TxId, id: nat)
    requires CommitOf(s, s', u) && Owns(s, u) && OnlyStatusMoves(Committed(s), RowsSeen(s, u)) && id < |s.orders|
    requires OrderOk(Committed(s), s.orders[id], id)
    requires u in s.txs && OfOrder(s.txs[u].call) ==> s.txs[u].stage.Written? && OrderKnows(s, u)
    ensures id < |s'.orders| && OrderOk(Committed(s'), s'.orders[id], id)
  {
    hide RowsInv, ViewsMove, Owns, Claimless, NoNewClaims, OrderKnows;
    if u in s.txs && OfOrder(s.txs[u].call) && s.txs[u].call.order == id {
      OwnRowOk(s, u);
    } else {
      CommitNoNewClaims(s, u, OrderSource(s.orders[id].scope, id));
      NoNewKeepsOk(Committed(s), Committed(s'), s.orders[id], id);
    }
  }

  lemma CommitInv(s: Sales, s': Sales, u: TxId)
    requires OrdersInv(s) && CommitOf(s, s', u)
    requires u in s.txs && OfOrder(s.txs[u].call) ==> s.txs[u].stage.Written?
    ensures OrdersInv(s')
  {
    hide RowsInv, RowsOk, ViewsMove, OrderKnows, Owns, KeptOrder, OrderOk, DocumentsExist, OnlyStatusMoves, OwnOrder;
    SeenMoves(s.inventory, u);
    forall t | t in s'.txs ensures t in s'.inventory.txs && OrderKnows(s', t) {
      CommitKept(s, s', u, t);
      KeptOrderKnows(s, s', t);
    }
    forall t | t in s'.inventory.txs ensures Owns(s', t) {
      CommitOwns(s, s', u, t);
    }
    forall id | 0 <= id < |s'.orders| ensures OrderOk(Committed(s'), s'.orders[id], id) {
      CommitOrderOk(s, s', u, id);
    }
    CommitDocuments(s, s', u);
  }

  lemma WrittenOwns(s: Sales, t: TxId)
    requires OrdersInv(s) && t in s.txs && OfOrder(s.txs[t].call) && s.txs[t].stage.Written?
    ensures OwnOrder(s, t)
  {
    hide RowsInv, Owns, OrderOk, DocumentsExist, FreeableNow;
    assert t in s.inventory.txs && OrderKnows(s, t);
  }

  lemma AdvanceCommit(s: Sales, t: TxId)
    requires OrdersInv(s) && t in s.txs && t in s.inventory.txs && s.inventory.txs[t].calls == []
    requires s.txs[t].stage.Written?
    ensures OrdersInv(CommitStep(s, t))
  {
    hide OrdersInv, RowsInv, ViewsMove, OrderKnows;
    RowsOfOrders(s);
    CommitRows(s.inventory, t);
    KnowsOrder(s, t);
    if OfOrder(s.txs[t].call) {
      WrittenOwns(s, t);
    }
    OthersHaveNone(s, t);
    assert CommitOf(s, CommitStep(s, t), t);
    CommitInv(s, CommitStep(s, t), t);
  }

  lemma OthersHaveNone(s: Sales, t: TxId)
    requires t in s.txs && t in s.inventory.txs && OrderKnows(s, t)
    ensures !OfOrder(s.txs[t].call) ==> s.txs[t].order.None?
  {
  }

  // ------------------------------------------------- direct inventory events

  /** Direct calls insert no rows for orders. */
  ghost predicate NoOrderReserves(calls: seq<Request>) {
    forall n :: 0 <= n < |calls| && calls[n].Reserve? ==> !OfAnOrder(calls[n].source)
  }

  /** A transaction that has just begun on the inventory's side. */
  lemma BeginInv(s: Sales, s': Sales, t: TxId, calls: seq<Request>)
    requires OrdersInv(s) && t !in s.inventory.txs && KeysMatch(calls) && NoOrderReserves(calls)
    requires s'.inventory == I.Happen(s.inventory, I.Begin(t, calls)) && s'.orders == s.orders
    requires s'.orderLocks == s.orderLocks
    requires s'.txs == s.txs
      || (t in s'.txs && s'.txs == s.txs[t := s'.txs[t]] && s'.txs[t].stage.Begun? && s'.txs[t].order.None?)
    ensures OrdersInv(s')
  {
    hide RowsInv, KeptOrder, OrderOk, DocumentsExist, OrderKnows, KeysMatch, ViewsMove;
    BeginRows(s.inventory, t, calls);
    forall u | u in s'.txs ensures u in s'.inventory.txs && OrderKnows(s', u) {
      if u in s.txs {
        BeginKept(s, s', t, calls, u);
        KeptOrderKnows(s, s', u);
      } else {
        FirstKnows(s', u);
      }
    }
  }

  lemma FirstKnows(s: Sales, t: TxId)
    requires t in s.txs && t in s.inventory.txs && s.txs[t].stage.Begun? && s.txs[t].order.None?
    ensures OrderKnows(s, t)
  {
  }

  lemma BeginKept(s: Sales, s': Sales, t: TxId, calls: seq<Request>, u: TxId)
    requires t !in s.inventory.txs && u in s.txs && u in s'.txs && s'.txs[u] == s.txs[u] && u in s.inventory.txs
    requires s'.inventory == I.Happen(s.inventory, I.Begin(t, calls)) && s'.orders == s.orders
    requires s'.orderLocks == s.orderLocks
    ensures KeptOrder(s, s', u)
  {
  }

  lemma DirectEndKept(s: Sales, s': Sales, t: TxId, u: TxId)
    requires s' == s.(inventory := I.End(s.inventory, t)) && u != t && u in s.txs && u in s.inventory.txs
    ensures KeptOrder(s, s', u)
  {
  }

  lemma DirectEndInv(s: Sales, t: TxId)
    requires OrdersInv(s) && t !in s.txs
    ensures OrdersInv(s.(inventory := I.End(s.inventory, t)))
  {
    hide RowsInv, OrderKnows, KeptOrder, OrderOk, DocumentsExist;
    var s' := s.(inventory := I.End(s.inventory, t));
    EndRows(s.inventory, t);
    forall u | u in s'.txs ensures u in s'.inventory.txs && OrderKnows(s', u) {
      DirectEndKept(s, s', t, u);
      KeptOrderKnows(s, s', u);
    }
  }

  lemma DirectCommitInv(s: Sales, t: TxId)
    requires OrdersInv(s) && t !in s.txs && t in s.inventory.txs && s.inventory.txs[t].calls == []
    ensures OrdersInv(s.(inventory := I.Commit(s.inventory, t)))
  {
    hide RowsInv, ViewsMove, OrderKnows, Owns, OrderOk, DocumentsExist;
    var s' := s.(inventory := I.Commit(s.inventory, t));
    CommitRows(s.inventory, t);
    DirectCommit(s, s', t);
  }

  /** A direct commit, as one of a transaction that holds no order. */
  lemma DirectCommit(s: Sales, s': Sales, t: TxId)
    requires OrdersInv(s) && t !in s.txs && t in s.inventory.txs && s.inventory.txs[t].calls == []
    requires s' == s.(inventory := I.Commit(s.inventory, t)) && RowsInv(s'.inventory)
    requires ViewsMove(s.inventory, s'.inventory)
    requires Committed(s') == RowsSeen(s, t)
    ensures OrdersInv(s')
  {
    hide OrdersInv, RowsInv, ViewsMove;
    assert s.txs - {t} == s.txs;
    assert CommitOf(s, s', t);
    CommitInv(s, s', t);
  }

  lemma DirectStepInv(s: Sales, t: TxId)
    requires OrdersInv(s) && t !in s.txs && t in s.inventory.txs && s.inventory.txs[t].calls != []
    ensures OrdersInv(s.(inventory := I.Step(s.inventory, t)))
  {
    hide OrdersInv, RowsInv, Advanced, ViewsMove;
    var s' := s.(inventory := I.Step(s.inventory, t));
    RowsOfOrders(s);
    StepRows(s.inventory, t);
    assert s.txs - {t} == s.txs;
    assert InnerStep(s, s', t);
    InnerInv(s, s', t);
  }

  lemma RecatalogueInv(s: Sales, c: Catalogue)
    requires OrdersInv(s)
    ensures OrdersInv(s.(inventory := s.inventory.(catalogue := c)))
  {
    hide RowsInv, KeptOrder, OrderOk, DocumentsExist, OrderKnows;
    var s' := s.(inventory := s.inventory.(catalogue := c));
    StaysRows(s.inventory, c);
    forall u | u in s'.txs ensures u in s'.inventory.txs && OrderKnows(s', u) {
      RecatalogueKept(s, s', c, u);
      KeptOrderKnows(s, s', u);
    }
  }

  lemma RecatalogueKept(s: Sales, s': Sales, c: Catalogue, u: TxId)
    requires s' == s.(inventory := s.inventory.(catalogue := c)) && u in s.txs && u in s.inventory.txs
    ensures KeptOrder(s, s', u)
  {
  }

  lemma DirectInv(s: Sales, e: I.Event)
    requires OrdersInv(s) && !OfSales(s, e) && (e.Begin? ==> KeysMatch(e.calls) && NoOrderReserves(e.calls))
    ensures OrdersInv(s.(inventory := I.Happen(s.inventory, e)))
  {
    hide OrdersInv;
    match e
    case Begin(t, calls) =>
      if t !in s.inventory.txs { BeginInv(s, s.(inventory := I.Happen(s.inventory, e)), t, calls); }
    case Statement(t) =>
      if t in s.inventory.txs {
        if s.inventory.txs[t].calls == [] {
          DirectCommitInv(s, t);
        } else {
          DirectStepInv(s, t);
        }
      }
    case Abort(t) => DirectEndInv(s, t);
    case Recatalogue(c) => RecatalogueInv(s, c);
  }

  // -------------------------------------------------------- orders' own events

  /** A new order, or one row nobody holds made later with the same status and mark. */
  ghost predicate OrdersEdited(s: Sales, s': Sales) {
    && s' == s.(orders := s'.orders) && OrdersLater(s.orders, s'.orders)
    && (forall id :: 0 <= id < |s.orders| ==>
          && (id in s.orderLocks ==> s'.orders[id] == s.orders[id])
          && s'.orders[id].status == s.orders[id].status && s'.orders[id].reserved == s.orders[id].reserved)
    && (forall id :: |s.orders| <= id < |s'.orders| ==>
        s'.orders[id].status == OrderStatus.DRAFT && !s'.orders[id].reserved)
  }

  lemma EditedKept(s: Sales, s': Sales, u: TxId)
    requires OrdersEdited(s, s') && u in s.txs && u in s.inventory.txs
    ensures KeptOrder(s, s', u)
  {
  }

  lemma EditedOrders(s: Sales, s': Sales)
    requires OrdersEdited(s, s') && OrdersOk(s) && DocumentsExist(Committed(s), |s.orders|)
    ensures OrdersOk(s') && DocumentsExist(Committed(s'), |s'.orders|)
  {
    forall id | 0 <= id < |s'.orders| ensures OrderOk(Committed(s'), s'.orders[id], id) {
      if id < |s.orders| {
        assert OrderOk(Committed(s), s.orders[id], id);
      }
    }
  }

  lemma EditedInv(s: Sales, s': Sales)
    requires OrdersInv(s) && OrdersEdited(s, s')
    ensures OrdersInv(s')
  {
    hide RowsInv, KeptOrder, OrderOk, DocumentsExist, OrderKnows, OrdersEdited, OrdersOk;
    EditedOrders(s, s');
    EditedFrame(s, s');
    forall u | u in s'.txs ensures u in s'.inventory.txs && OrderKnows(s', u) {
      EditedKept(s, s', u);
      KeptOrderKnows(s, s', u);
    }
  }

  lemma EditedFrame(s: Sales, s': Sales)
    requires OrdersEdited(s, s')
    ensures s'.inventory == s.inventory && s'.txs == s.txs && s'.orderLocks == s.orderLocks && |s.orders| <= |s'.orders|
  {
  }

  // --------------------------------------------------------------- every run

  /** Unless it is one of the late ones, an order's transition expects at most the version it reads. */
  ghost predicate TimelyOrder(s: Sales, e: Event, late: iset<TxId>) {
    e.Advance? && e.t !in late && e.t in s.txs && s.txs[e.t].call.MovingOrder? && s.txs[e.t].stage.Begun?
    && OrderShown(s, s.txs[e.t].call.scope, s.txs[e.t].call.order) ==>
      s.txs[e.t].call.expected <= s.orders[s.txs[e.t].call.order].version
  }

  /** A reserve does not mark an order that has been cancelled since. */
  predicate FreshMark(s: Sales, e: Event) {
    e.Advance? && e.t in s.txs && s.txs[e.t].call.Reserving? && s.txs[e.t].stage.OrderSeen?
    && e.t in s.inventory.txs && s.inventory.txs[e.t].calls == [] && s.txs[e.t].call.order < |s.orders| ==>
      s.orders[s.txs[e.t].call.order].status != OrderStatus.CANCELLED
  }

  /** No direct call reserves for an order. */
  ghost predicate Apart(e: Event) {
    e.Inventory? && e.event.Begin? ==> NoOrderReserves(e.event.calls)
  }

  /** The three conditions, and completion keys that only completions use. */
  ghost predicate Orderly(s: Sales, e: Event) {
    TimelyOrder(s, e, NO_ONE) && FreshMark(s, e) && Apart(e) && (e.Inventory? && e.event.Begin? ==>
      KeysMatch(e.event.calls))
  }

  ghost predicate OrderlyRun(s: Sales, events: seq<Event>)
    decreases |events|
  {
    events != [] ==> Orderly(s, events[0]) && OrderlyRun(Happen(s, events[0]), events[1..])
  }

  lemma AdvanceInv(s: Sales, t: TxId)
    requires OrdersInv(s) && t in s.txs && t in s.inventory.txs && Orderly(s, Advance(t))
    ensures OrdersInv(AdvanceStep(s, t))
  {
    hide OrdersInv;
    if s.inventory.txs[t].calls != [] {
      AdvanceInner(s, t);
    } else if s.txs[t].stage.Written? {
      AdvanceCommit(s, t);
    } else {
      match s.txs[t].call
      case Reserving(_, _) => ReservingInv(s, t);
      case MovingOrder(_, _, _, _) => MovingOrderInv(s, t);
      case Creating(_, _, _, _) => CreatingInv(s, t);
      case MovingDelivery(_, _, _, _) => MovingDeliveryInv(s, t);
    }
  }

  lemma EventEdits(s: Sales, e: Event)
    requires e.NewOrder? || e.DropOrder? || e.EditOrder?
    ensures OrdersEdited(s, Happen(s, e))
  {
  }

  lemma OtherEventsInv(s: Sales, e: Event)
    requires OrdersInv(s) && (e.NewOrder? || e.DropOrder? || e.EditOrder? || e.EditDelivery?)
    ensures OrdersInv(Happen(s, e))
  {
    hide OrdersInv, OrdersEdited;
    if e.EditDelivery? {
      DeliveriesAlone(s, Happen(s, e));
    } else {
      EventEdits(s, e);
      EditedInv(s, Happen(s, e));
    }
  }

  lemma DeliveriesAlone(s: Sales, s': Sales)
    requires OrdersInv(s) && s' == s.(deliveries := s'.deliveries)
    ensures OrdersInv(s')
  {
    hide RowsInv, OrderOk, DocumentsExist;
    forall u | u in s'.txs ensures u in s'.inventory.txs && OrderKnows(s', u) {
      assert OrderKnows(s, u);
    }
    forall u | u in s'.inventory.txs ensures Owns(s', u) {
      assert Owns(s, u);
    }
  }

  lemma HappenInv(s: Sales, e: Event)
    requires OrdersInv(s) && Orderly(s, e)
    ensures OrdersInv(Happen(s, e))
  {
    hide OrdersInv;
    match e
    case Inventory(i) => if !OfSales(s, i) { DirectInv(s, i); }
    case Start(t, call) => if t !in s.txs && t !in s.inventory.txs { BeginInv(s, Happen(s, e), t, []); }
    case Advance(t) => if t in s.txs && t in s.inventory.txs { AdvanceInv(s, t); }
    case Abort(t) => EndKeepsOrders(s, t);
    case _ => OtherEventsInv(s, e);
  }

  lemma {:induction false} ExecInv(s: Sales, events: seq<Event>)
    requires OrdersInv(s) && OrderlyRun(s, events)
    ensures OrdersInv(Exec(s, events))
    decreases |events|
  {
    hide OrdersInv, Orderly;
    if events != [] {
      HappenInv(s, events[0]);
      ExecInv(Happen(s, events[0]), events[1..]);
    }
  }

  /** In a world without open transactions: what the invariant asks of it. */
  ghost predicate OrdersSettled(w: World) {
    && Balanced(w.tables) && HonestKeysIn(w)
    && DocumentsExist(w.tables.reservations, |w.orders|)
    && forall id :: 0 <= id < |w.orders| ==> OrderOk(w.tables.reservations, w.orders[id], id)
  }

  ghost predicate HonestKeysIn(w: World) {
    forall j :: 0 <= j < |w.tables.movements| ==>
      SalesDeliveries.HonestKey(w.tables.reservations, w.tables.movements[j])
  }

  lemma FromSettled(w: World)
    requires OrdersSettled(w)
    ensures OrdersInv(From(w))
  {
    forall id | 0 <= id < |From(w).orders| ensures OrderOk(Committed(From(w)), From(w).orders[id], id) {
      assert OrderOk(w.tables.reservations, w.orders[id], id);
    }
  }

  /**
    Under the three conditions, whatever overlaps: an order not marked reserved has no RESERVED row
    in any committed state, and a CANCELLED one is not marked, so it claims nothing.
   */
  lemma CancelledOrdersClaimNothing(w: World, events: seq<Event>, id: nat)
    requires OrdersSettled(w) && OrderlyRun(From(w), events) && id < |Exec(From(w), events).orders|
    ensures var s := Exec(From(w), events);
            && (!s.orders[id].reserved ==> Claimless(Committed(s), OrderSource(s.orders[id].scope, id)))
            && (s.orders[id].status == OrderStatus.CANCELLED ==>
                  !s.orders[id].reserved && Claimless(Committed(s), OrderSource(s.orders[id].scope, id)))
  {
    hide OrdersInv;
    FromSettled(w);
    ExecInv(From(w), events);
    OrderIsOk(Exec(From(w), events), id);
  }

  lemma EmptyIsSettled()
    ensures OrdersSettled(World(EMPTY, [], []))
  {
    EmptyIsBalanced();
  }

  // ------------------------------------------------------------ legal statuses

  lemma OrderChange(s: Sales, t: TxId, id: nat)
    requires OrdersInv(s) && t in s.txs && t in s.inventory.txs && s.inventory.txs[t].calls == []
    requires s.txs[t].stage.Written?
    requires id < |s.orders|
    ensures var to := CommitStep(s, t).orders[id].status;
      to == s.orders[id].status || OrderMoves(s.orders[id].status, to)
  {
    hide RowsInv, Owns, OrderOk, DocumentsExist, FreeableNow;
    assert OrderKnows(s, t);
  }

  lemma MarkSameOrders(s: Sales, t: TxId, id: nat, reserved: bool, stage: Stage)
    requires t in s.txs && id < |s.orders|
    ensures MarkOrder(s, t, id, reserved, stage).orders == s.orders
  {
  }

  lemma UpdateSameOrders(s: Sales, t: TxId, id: nat, to: OrderStatus, version: int)
    requires t in s.txs && id < |s.orders|
    ensures UpdateOrder(s, t, id, to, version).orders == s.orders
  {
  }

  lemma MovingSameOrders(s: Sales, t: TxId)
    requires t in s.txs && t in s.inventory.txs && s.txs[t].call.MovingOrder?
    ensures MovingOrderStep(s, t).orders == s.orders
  {
    hide MarkOrder, UpdateOrder;
    var c := s.txs[t].call;
    if c.order < |s.orders| {
      UpdateSameOrders(s, t, c.order, c.orderTo, c.expected);
      UpdateSameOrders(s, t, c.order, c.orderTo, c.expected + 1);
      if s.txs[t].stage.Freeing? {
        MarkSameOrders(s, t, c.order, false, Freed(s.txs[t].stage.order));
      }
    }
  }

  lemma CreatingSameOrders(s: Sales, t: TxId)
    requires t in s.txs && t in s.inventory.txs && s.txs[t].call.Creating?
    ensures CreatingStep(s, t).orders == s.orders
  {
  }

  lemma MovingDeliverySameOrders(s: Sales, t: TxId)
    requires t in s.txs && t in s.inventory.txs && s.txs[t].call.MovingDelivery?
    ensures MovingDeliveryStep(s, t).orders == s.orders
  {
  }

  /** Only a commit changes an order. */
  lemma AdvanceSameOrders(s: Sales, t: TxId)
    requires t in s.txs && t in s.inventory.txs
    requires s.inventory.txs[t].calls != [] || !s.txs[t].stage.Written?
    ensures AdvanceStep(s, t).orders == s.orders
  {
    hide MarkOrder, MovingOrderStep, CreatingStep, MovingDeliveryStep;
    if s.inventory.txs[t].calls == [] {
      match s.txs[t].call
      case Reserving(_, _) =>
        if s.txs[t].call.order < |s.orders| { MarkSameOrders(s, t, s.txs[t].call.order, true, Written); }
      case MovingOrder(_, _, _, _) => MovingSameOrders(s, t);
      case Creating(_, _, _, _) => CreatingSameOrders(s, t);
      case MovingDelivery(_, _, _, _) => MovingDeliverySameOrders(s, t);
    }
  }

  predicate LegalOrder(from: OrderStatus, to: OrderStatus) { to == from || OrderMoves(from, to) }

  lemma HappenLegalOrder(s: Sales, e: Event, id: nat)
    requires OrdersInv(s) && id < |s.orders|
    ensures id < |Happen(s, e).orders| && LegalOrder(s.orders[id].status, Happen(s, e).orders[id].status)
  {
    hide OrdersInv, AdvanceStep, CommitStep;
    if e.Advance? && e.t in s.txs && e.t in s.inventory.txs {
      if s.inventory.txs[e.t].calls == [] && s.txs[e.t].stage.Written? {
        OrderChange(s, e.t, id);
        CommitIsAdvance(s, e.t);
      } else {
        AdvanceSameOrders(s, e.t);
      }
    }
  }

  lemma CommitIsAdvance(s: Sales, t: TxId)
    requires t in s.txs && t in s.inventory.txs && s.inventory.txs[t].calls == [] && s.txs[t].stage.Written?
    ensures AdvanceStep(s, t) == CommitStep(s, t) && |CommitStep(s, t).orders| == |s.orders|
  {
  }

  predicate FinalOrder(status: OrderStatus) { status == OrderStatus.CANCELLED || status == CLOSED }

  lemma {:induction false} ExecKeepsFinalOrder(s: Sales, events: seq<Event>, id: nat)
    requires OrdersInv(s) && OrderlyRun(s, events) && id < |s.orders| && FinalOrder(s.orders[id].status)
    ensures id < |Exec(s, events).orders| && Exec(s, events).orders[id].status == s.orders[id].status
    decreases |events|
  {
    hide OrdersInv, Orderly, Happen;
    if events != [] {
      HappenInv(s, events[0]);
      HappenLegalOrder(s, events[0], id);
      ExecKeepsFinalOrder(Happen(s, events[0]), events[1..], id);
    }
  }

  /** Under the same conditions orders change status only as the transitions allow, and final ones keep theirs. */
  lemma OrderStatusesMoveLegally(w: World, first: seq<Event>, e: Event, later: seq<Event>, id: nat)
    requires OrdersSettled(w) && OrderlyRun(From(w), first) && OrderlyRun(Exec(From(w), first), later)
    requires id < |Exec(From(w), first).orders|
    ensures var s := Exec(From(w), first);
            var s1, s2 := Happen(s, e), Exec(s, later);
            && id < |s1.orders| && LegalOrder(s.orders[id].status, s1.orders[id].status)
            && (FinalOrder(s.orders[id].status) ==> id < |s2.orders| && s2.orders[id].status == s.orders[id].status)
  {
    hide OrdersInv, OrderlyRun, Happen, OrdersSettled;
    FromSettled(w);
    ExecInv(From(w), first);
    var s := Exec(From(w), first);
    HappenLegalOrder(s, e, id);
    if FinalOrder(s.orders[id].status) {
      ExecKeepsFinalOrder(s, later, id);
    }
  }
}
