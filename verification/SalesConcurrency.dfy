/**
  Order and delivery calls that overlap, statement by statement, over the inventory's own
  transactions.  A sales call reads its order or delivery without a lock, runs inventory
  calls inside the same transaction, and ends with an update that asks for a version.
 */
module SalesConcurrency {
  import opened Wrappers
  import opened InventoryTables
  import opened InventorySpec
  import opened InventoryBySource
  import opened SalesSpec
  import I = InventoryConcurrency

  type TxId = nat

  datatype Call =
    | Reserving(scope: Scope, order: nat)
    | MovingOrder(scope: Scope, order: nat, orderTo: OrderStatus, expected: int)
    | Creating(scope: Scope, order: nat, key: string, allowReplay: bool)
    | MovingDelivery(scope: Scope, delivery: nat, to: DeliveryStatus, expected: int)

  /** Where a sales transaction stands, with what it has read. */
  datatype Stage =
    | Begun
    | OrderSeen(order: Order)                               // the order as read
    | Freeing(order: Order)                                 // cancel: rows being released
    | Freed(order: Order)                                   // cancel: the order marked not reserved
    | NoneFound                                             // create: no earlier delivery
    | Opened(opening: nat, copied: seq<DeliveryLine>)       // create: the delivery found or inserted
    | Linking(linking: nat, linked: seq<DeliveryLine>)      // create: a row chosen for each line
    | HeadSeen(head: Delivery)                              // move: the delivery's own row as read
    | LinesSeen(seen: Delivery)                             // move: with its lines as read
    | Locking(seen: Delivery, ids: seq<nat>, locked: nat)   // complete: rows being locked
    | Issuing(seen: Delivery, ids: seq<nat>)                // complete: rows being issued
    | Written                                               // nothing left but the commit

  /** The order and the delivery are this transaction's own rows, unseen by others until it commits. */
  datatype SalesTx = SalesTx(call: Call, stage: Stage, order: Option<Order>, delivery: Option<(nat, Delivery)>)

  /** Each sales transaction has a part in the inventory's system, under the same number. */
  datatype Sales = Sales(
    inventory: I.System, orders: seq<Order>, deliveries: seq<Option<Delivery>>,
    orderLocks: map<nat, TxId>, deliveryLocks: map<nat, TxId>, txs: map<TxId, SalesTx>)

  datatype Event =
    | Inventory(event: I.Event)
    | Start(t: TxId, call: Call)
    | Advance(t: TxId)
    | Abort(t: TxId)
    | NewOrder(scope: Scope, warehouse: Option<Uuid>, lines: seq<OrderLine>)
    | DropOrder(scope: Scope, order: nat)
    | EditOrder(scope: Scope, order: nat, expected: int)
    | EditDelivery(scope: Scope, delivery: nat, expected: int)

  function Somes(ds: seq<Delivery>): (r: seq<Option<Delivery>>)
    ensures |r| == |ds| && forall d :: 0 <= d < |r| ==> r[d] == Some(ds[d])
  {
    seq(|ds|, d requires 0 <= d < |ds| => Some(ds[d]))
  }

  /** A world in which no transaction is open. */
  function From(w: World): Sales {
    Sales(I.System(w.tables, Catalogue({}, {}), map[], map[]), w.orders, Somes(w.deliveries), map[], map[], map[])
  }

  // ------------------------------------------------------------------ frame

  predicate FreeIn(locks: map<nat, TxId>, t: TxId, id: nat) { id in locks ==> locks[id] == t }

  predicate HoldsIn(locks: map<nat, TxId>, t: TxId, id: nat) { id in locks && locks[id] == t }

  function Without(locks: map<nat, TxId>, t: TxId): map<nat, TxId> {
    map id | id in locks && locks[id] != t :: locks[id]
  }

  /** The transaction is gone from the sales side, and so are its locks there. */
  function Leave(s: Sales, t: TxId, inventory: I.System): Sales {
    s.(inventory := inventory, txs := s.txs - {t},
       orderLocks := Without(s.orderLocks, t), deliveryLocks := Without(s.deliveryLocks, t))
  }

  function End(s: Sales, t: TxId): Sales { Leave(s, t, I.End(s.inventory, t)) }

  function With(s: Sales, t: TxId, tx: SalesTx): Sales { s.(txs := s.txs[t := tx]) }

  function To(s: Sales, t: TxId, stage: Stage): Sales
    requires t in s.txs
  {
    With(s, t, s.txs[t].(stage := stage))
  }

  /** The inventory calls a sales transaction makes next. */
  function WithCalls(v: I.System, t: TxId, calls: seq<Request>): I.System
    requires t in v.txs
  {
    v.(txs := v.txs[t := v.txs[t].(calls := calls)])
  }

  /** SELECT ... FOR UPDATE of one reservation row that nobody else holds. */
  function LockRow(v: I.System, t: TxId, i: nat): I.System
    requires t in v.txs
  {
    I.Take(v, t, I.RowLock(i), v.txs[t])
  }

  /** The reservation rows as the transaction sees them. */
  function RowsSeen(s: Sales, t: TxId): seq<Option<Reservation>>
    requires t in s.inventory.txs
  {
    I.ViewRows(s.inventory.committed.reservations, s.inventory.txs[t].rows)
  }

  function OrderNow(s: Sales, tx: SalesTx, id: nat): Order
    requires id < |s.orders|
  {
    if tx.order.Some? then tx.order.value else s.orders[id]
  }

  function DeliveryNow(s: Sales, tx: SalesTx, d: nat): Option<Delivery> {
    if tx.delivery.Some? && tx.delivery.value.0 == d then Some(tx.delivery.value.1)
    else if d < |s.deliveries| then s.deliveries[d]
    else None
  }

  predicate OrderShown(s: Sales, scope: Scope, id: nat) {
    id < |s.orders| && s.orders[id].scope == scope && !s.orders[id].deleted
  }

  predicate DeliveryShown(s: Sales, scope: Scope, d: nat) {
    d < |s.deliveries| && s.deliveries[d].Some? && s.deliveries[d].value.scope == scope
  }

  // ----------------------------------------------------------------- updates

  function WriteOrder(s: Sales, t: TxId, id: nat, o: Order, stage: Stage): Sales
    requires t in s.txs
  {
    s.(orderLocks := s.orderLocks[id := t], txs := s.txs[t := s.txs[t].(stage := stage, order := Some(o))])
  }

  function WriteDelivery(s: Sales, t: TxId, d: nat, row: Delivery): Sales
    requires t in s.txs
  {
    s.(deliveryLocks := s.deliveryLocks[d := t],
      txs := s.txs[t := s.txs[t].(stage := Written, delivery := Some((d, row)))])
  }

  /** `updateReservationStatus`: guarded by nothing but the order's existence. */
  function MarkOrder(s: Sales, t: TxId, id: nat, reserved: bool, stage: Stage): Sales
    requires t in s.txs && id < |s.orders|
  {
    var now := OrderNow(s, s.txs[t], id);
    if !FreeIn(s.orderLocks, t, id) then s
    else if now.deleted then End(s, t)
    else WriteOrder(s, t, id, now.(reserved := reserved, version := now.version + 1), stage)
  }

  /** The last update of an order asks for the version, not for the status. */
  function UpdateOrder(s: Sales, t: TxId, id: nat, to: OrderStatus, version: int): Sales
    requires t in s.txs && id < |s.orders|
  {
    var now := OrderNow(s, s.txs[t], id);
    if !FreeIn(s.orderLocks, t, id) then s
    else if now.deleted || now.version != version then End(s, t)
    else WriteOrder(s, t, id, now.(status := to, version := now.version + 1), Written)
  }

  /** And so does the last update of a delivery. */
  function UpdateDelivery(s: Sales, t: TxId, d: nat, to: DeliveryStatus, version: int): Sales
    requires t in s.txs
  {
    if !FreeIn(s.deliveryLocks, t, d) then s
    else if d >= |s.deliveries| || s.deliveries[d].None? || s.deliveries[d].value.version != version then End(s, t)
    else
      var now := s.deliveries[d].value;
      WriteDelivery(s, t, d, now.(status := to, version := now.version + 1))
  }

  // --------------------------------------------------------- the four calls

  function LineRequests(scope: Scope, order: nat, warehouse: Uuid, lines: seq<OrderLine>): (r: seq<Request>)
    requires forall n :: 0 <= n < |lines| ==> lines[n].item.Some?
    ensures |r| == |lines| && forall n :: 0 <= n < |r| ==> r[n] == LineRequest(scope, order, warehouse, lines[n])
  {
    seq(|lines|, n requires 0 <= n < |lines| => LineRequest(scope, order, warehouse, lines[n]))
  }

  predicate CanReserve(o: Order) {
    && o.status == CONFIRMED && o.warehouse.Some? && o.lines != []
    && forall n :: 0 <= n < |o.lines| ==> o.lines[n].item.Some?
  }

  function ReservingStep(s: Sales, t: TxId): Sales
    requires t in s.txs && t in s.inventory.txs && s.txs[t].call.Reserving?
  {
    var id := s.txs[t].call.order;
    match s.txs[t].stage
    case Begun =>
      if !OrderShown(s, s.txs[t].call.scope, id) || !CanReserve(s.orders[id]) then End(s, t)
      else
        var o := s.orders[id];
        var calls := LineRequests(s.txs[t].call.scope, id, o.warehouse.value, o.lines);
        To(s, t, OrderSeen(o)).(inventory := WithCalls(s.inventory, t, calls))
    case OrderSeen(_) => if id < |s.orders| then MarkOrder(s, t, id, true, Written) else s
    case _ => s
  }

  /** The calls that release what the listing showed as RESERVED. */
  function Releases(scope: Scope, rows: seq<Option<Reservation>>, ids: seq<nat>): (calls: seq<Request>)
    requires RowsExist(rows, ids)
    ensures forall n :: 0 <= n < |calls| ==> calls[n].Release?
    ensures forall i :: i in ids && rows[i].value.status == RESERVED ==> Release(scope, i) in calls
  {
    if ids == [] then []
    else if rows[ids[0]].value.status == RESERVED then [Release(scope, ids[0])] + Releases(scope, rows, ids[1..])
    else Releases(scope, rows, ids[1..])
  }

  function MovingOrderStep(s: Sales, t: TxId): Sales
    requires t in s.txs && t in s.inventory.txs && s.txs[t].call.MovingOrder?
  {
    var c := s.txs[t].call;
    match s.txs[t].stage
    case Begun =>
      if c.expected < 1 || !OrderShown(s, c.scope, c.order) || !OrderMoves(s.orders[c.order].status, c.orderTo) then
        End(s, t)
      else To(s, t, OrderSeen(s.orders[c.order]))
    case OrderSeen(o) =>
      if c.order >= |s.orders| then s
      else if c.orderTo == OrderStatus.CANCELLED && o.reserved then
        var rows := RowsSeen(s, t);
        var calls := Releases(c.scope, rows, SourceRows(rows, OrderSource(c.scope, c.order)));
        To(s, t, Freeing(o)).(inventory := WithCalls(s.inventory, t, calls))
      else UpdateOrder(s, t, c.order, c.orderTo, c.expected)
    case Freeing(o) => if c.order < |s.orders| then MarkOrder(s, t, c.order, false, Freed(o)) else s
    case Freed(_) => if c.order < |s.orders| then UpdateOrder(s, t, c.order, c.orderTo, c.expected + 1) else s
    case _ => s
  }

  /** The lookup by key or order sees committed rows. */
  function FindRow(ds: seq<Option<Delivery>>, scope: Scope, key: string, order: nat): (found: Option<nat>)
    ensures found.Some? ==>
      found.value < |ds| && ds[found.value].Some? && SameRequest(ds[found.value].value, scope, key, order)
    ensures found.None? ==> forall d :: 0 <= d < |ds| && ds[d].Some? ==> !SameRequest(ds[d].value, scope, key, order)
  {
    if ds == [] then None
    else
      var n := |ds| - 1;
      var found := FindRow(ds[..n], scope, key, order);
      if found.Some? then found
      else if ds[n].Some? && SameRequest(ds[n].value, scope, key, order) then Some(n)
      else None
  }

  function OpenStep(s: Sales, t: TxId): Sales
    requires t in s.txs && s.txs[t].call.Creating?
  {
    var c := s.txs[t].call;
    var found := FindRow(s.deliveries, c.scope, c.key, c.order);
    if found.None? then To(s, t, NoneFound)
    else if !c.allowReplay then End(s, t)
    else To(s, t, Opened(found.value, s.deliveries[found.value].value.lines))
  }

  /** The INSERT of a delivery and its lines, copied from the order's. */
  function InsertStep(s: Sales, t: TxId, o: Order): Sales
    requires t in s.txs && s.txs[t].call.Creating?
  {
    var c, n := s.txs[t].call, |s.deliveries|;
    var d := Delivery(c.scope, c.order, c.key, CopyLines(o.lines), DeliveryStatus.DRAFT, 1);
    s.(deliveries := s.deliveries + [None], deliveryLocks := s.deliveryLocks[n := t],
       txs := s.txs[t := s.txs[t].(stage := Opened(n, d.lines), delivery := Some((n, d)))])
  }

  function ListStep(s: Sales, t: TxId, d: nat, lines: seq<DeliveryLine>): Sales
    requires t in s.txs && t in s.inventory.txs && s.txs[t].call.Creating?
  {
    var rows := RowsSeen(s, t);
    var ids := SourceRows(rows, OrderSource(s.txs[t].call.scope, s.txs[t].call.order));
    if ids == [] || !AllReserved(rows, ids) || !AllMatched(rows, ids, lines) then End(s, t)
    else To(s, t, Linking(d, LinkLines(rows, ids, lines)))
  }

  /** The update of the delivery's row matches a draft only; its lines follow under the row's lock. */
  function LinkStep(s: Sales, t: TxId, d: nat, linked: seq<DeliveryLine>): Sales
    requires t in s.txs
  {
    var now := DeliveryNow(s, s.txs[t], d);
    if !FreeIn(s.deliveryLocks, t, d) then s
    else if now.None? || now.value.status != DeliveryStatus.DRAFT then End(s, t)
    else WriteDelivery(s, t, d, now.value.(lines := linked, version := now.value.version + 1))
  }

  function CreatingStep(s: Sales, t: TxId): Sales
    requires t in s.txs && t in s.inventory.txs && s.txs[t].call.Creating?
  {
    var c := s.txs[t].call;
    match s.txs[t].stage
    case Begun => OpenStep(s, t)
    case NoneFound =>
      if !OrderShown(s, c.scope, c.order) || s.orders[c.order].status != CONFIRMED || s.orders[c.order].warehouse.None?
      then End(s, t)
      else To(s, t, OrderSeen(s.orders[c.order]))
    case OrderSeen(o) => InsertStep(s, t, o)
    case Opened(d, lines) => ListStep(s, t, d, lines)
    case Linking(d, linked) => LinkStep(s, t, d, linked)
    case _ => s
  }

  function IssueCalls(scope: Scope, ids: seq<nat>, d: nat): (r: seq<Request>)
    ensures |r| == |ids| && forall n :: 0 <= n < |r| ==> r[n] == Fulfil(scope, ids[n], RowKey(DeliveryKey(d), ids[n]))
  {
    seq(|ids|, n requires 0 <= n < |ids| => Fulfil(scope, ids[n], RowKey(DeliveryKey(d), ids[n])))
  }

  predicate AllRefer(lines: seq<DeliveryLine>) {
    lines != [] && forall n :: 0 <= n < |lines| ==> lines[n].reservation.Some?
  }

  /** The second read is of the lines; then the checks on what both reads gave. */
  function LinesStep(s: Sales, t: TxId, head: Delivery): Sales
    requires t in s.txs && s.txs[t].call.MovingDelivery?
  {
    var c := s.txs[t].call;
    if c.delivery >= |s.deliveries| || s.deliveries[c.delivery].None? then s
    else
      var lines := s.deliveries[c.delivery].value.lines;
      if !DeliveryMoves(head.status, c.to) || (c.to == COMPLETED && !AllRefer(lines)) then End(s, t)
      else To(s, t, LinesSeen(head.(lines := lines)))
  }

  function LockStep(s: Sales, t: TxId, seen: Delivery, ids: seq<nat>, n: nat): Sales
    requires t in s.txs && t in s.inventory.txs && s.txs[t].call.MovingDelivery?
  {
    var c := s.txs[t].call;
    if n >= |ids| then
      To(s, t, Issuing(seen, ids)).(inventory := WithCalls(s.inventory, t, IssueCalls(c.scope, ids, c.delivery)))
    else if !I.Free(s.inventory.locks, t, I.RowLock(ids[n])) then s
    else To(s, t, Locking(seen, ids, n + 1)).(inventory := LockRow(s.inventory, t, ids[n]))
  }

  function MovingDeliveryStep(s: Sales, t: TxId): Sales
    requires t in s.txs && t in s.inventory.txs && s.txs[t].call.MovingDelivery?
  {
    var c := s.txs[t].call;
    match s.txs[t].stage
    case Begun =>
      if c.expected < 1 || !DeliveryShown(s, c.scope, c.delivery) then End(s, t)
      else To(s, t, HeadSeen(s.deliveries[c.delivery].value))
    case HeadSeen(head) => LinesStep(s, t, head)
    case LinesSeen(seen) =>
      if c.to != COMPLETED then UpdateDelivery(s, t, c.delivery, c.to, c.expected)
      else
        var ids := SourceRows(RowsSeen(s, t), OrderSource(c.scope, seen.order));
        if ids == [] then End(s, t) else To(s, t, Locking(seen, ids, 0))
    case Locking(seen, ids, n) => LockStep(s, t, seen, ids, n)
    case Issuing(_, _) => UpdateDelivery(s, t, c.delivery, c.to, c.expected)
    case _ => s
  }

  // ------------------------------------------------------------- every event

  /** One commit for the sales rows and the inventory's. */
  function CommitStep(s: Sales, t: TxId): Sales
    requires t in s.txs && t in s.inventory.txs
  {
    var tx := s.txs[t];
    var orders := if tx.order.Some? && !tx.call.MovingDelivery? && tx.call.order < |s.orders|
                  then s.orders[tx.call.order := tx.order.value] else s.orders;
    var deliveries := if tx.delivery.Some? && tx.delivery.value.0 < |s.deliveries|
                      then s.deliveries[tx.delivery.value.0 := Some(tx.delivery.value.1)] else s.deliveries;
    Leave(s, t, I.Commit(s.inventory, t)).(orders := orders, deliveries := deliveries)
  }

  /** One statement: of the inventory call under way if there is one; a throw there ends the whole transaction. */
  function AdvanceStep(s: Sales, t: TxId): Sales
    requires t in s.txs && t in s.inventory.txs
  {
    if s.inventory.txs[t].calls != [] then
      var v := I.Step(s.inventory, t);
      if t in v.txs then s.(inventory := v) else Leave(s, t, v)
    else if s.txs[t].stage.Written? then CommitStep(s, t)
    else
      match s.txs[t].call
      case Reserving(_, _) => ReservingStep(s, t)
      case MovingOrder(_, _, _, _) => MovingOrderStep(s, t)
      case Creating(_, _, _, _) => CreatingStep(s, t)
      case MovingDelivery(_, _, _, _) => MovingDeliveryStep(s, t)
  }

  predicate OfSales(s: Sales, e: I.Event) { !e.Recatalogue? && e.tx in s.txs }

  function Happen(s: Sales, e: Event): Sales {
    match e
    case Inventory(i) => if OfSales(s, i) then s else s.(inventory := I.Happen(s.inventory, i))
    case Start(t, call) =>
      if t in s.txs || t in s.inventory.txs then s
      else
        s.(inventory := I.Happen(s.inventory, I.Begin(t, [])), txs := s.txs[t := SalesTx(call, Begun, None, None)])
    case Advance(t) => if t in s.txs && t in s.inventory.txs then AdvanceStep(s, t) else s
    case Abort(t) => if t in s.txs then End(s, t) else s
    case NewOrder(scope, warehouse, lines) =>
      s.(orders := s.orders + [Order(scope, warehouse, lines, OrderStatus.DRAFT, false, false, 1)])
    case DropOrder(scope, id) =>
      if !OrderShown(s, scope, id) || s.orders[id].status != OrderStatus.DRAFT || id in s.orderLocks then s
      else s.(orders := s.orders[id := s.orders[id].(deleted := true, version := s.orders[id].version + 1)])
    case EditOrder(scope, id, v) =>
      if !OrderShown(s, scope, id) || s.orders[id].status != OrderStatus.DRAFT || s.orders[id].version != v
         || id in s.orderLocks then s
      else s.(orders := s.orders[id := s.orders[id].(version := s.orders[id].version + 1)])
    case EditDelivery(scope, d, v) =>
      if !DeliveryShown(s, scope, d) || s.deliveries[d].value.status != DeliveryStatus.DRAFT
         || s.deliveries[d].value.version != v || d in s.deliveryLocks then s
      else s.(deliveries :=
        s.deliveries[d := Some(s.deliveries[d].value.(version := s.deliveries[d].value.version + 1))])
  }

  function Exec(s: Sales, events: seq<Event>): Sales
    decreases |events|
  {
    if events == [] then s else Exec(Happen(s, events[0]), events[1..])
  }
}
