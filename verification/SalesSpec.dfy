/**
  Sales orders and deliveries over the inventory tables: what each service call does
  when its transaction runs alone.
 */
module SalesSpec {
  import opened Wrappers
  import opened InventoryTables
  import opened InventorySpec
  import opened InventoryBySource

  datatype OrderStatus = DRAFT | CONFIRMED | CANCELLED | CLOSED

  datatype OrderLine = OrderLine(item: Option<Uuid>, quantity: Quantity)

  datatype Order = Order(
    scope: Scope, warehouse: Option<Uuid>, lines: seq<OrderLine>,
    status: OrderStatus, reserved: bool, deleted: bool, version: nat)

  datatype DeliveryStatus = DRAFT | DISPATCHED | DELIVERED | COMPLETED | CANCELLED

  datatype DeliveryLine = DeliveryLine(item: Option<Uuid>, reservation: Option<nat>)

  datatype Delivery = Delivery(
    scope: Scope, order: nat, key: string, lines: seq<DeliveryLine>, status: DeliveryStatus, version: nat)

  /** Orders and deliveries are identified by their position. */
  datatype World = World(tables: Tables, orders: seq<Order>, deliveries: seq<Delivery>)

  datatype SalesError =
    | NotFound
    | InvalidVersion
    | WrongTransition
    | VersionConflict
    | NotConfirmed
    | NoWarehouse
    | LineWithoutItem
    | ReplayRefused
    | NeedsActiveReservations
    | NoMatchingReservation
    | NotDraft
    | RowReferredTo
    | ReferencesRequired
    | FromInventory(error: InventoryError)

  /** A service call either commits a new world or throws and is rolled back. */
  datatype Change = Made(world: World, id: nat) | Refused(error: SalesError)

  function Settle(before: World, c: Change): World {
    if c.Made? then c.world else before
  }

  function OrderSource(scope: Scope, order: nat): Source {
    Source(scope, "SALES_ORDER", order)
  }

  predicate OrderMoves(from: OrderStatus, to: OrderStatus) {
    match from
    case DRAFT => to == CONFIRMED || to == OrderStatus.CANCELLED
    case CONFIRMED => to == OrderStatus.CANCELLED || to == CLOSED
    case CANCELLED => false
    case CLOSED => false
  }

  predicate DeliveryMoves(from: DeliveryStatus, to: DeliveryStatus) {
    match from
    case DRAFT => to == DISPATCHED || to == DeliveryStatus.CANCELLED
    case DISPATCHED => to == DELIVERED || to == DeliveryStatus.CANCELLED
    case DELIVERED => to == COMPLETED
    case COMPLETED => false
    case CANCELLED => false
  }

  predicate OrderVisible(w: World, scope: Scope, id: nat) {
    id < |w.orders| && w.orders[id].scope == scope && !w.orders[id].deleted
  }

  predicate DeliveryVisible(w: World, scope: Scope, id: nat) {
    id < |w.deliveries| && w.deliveries[id].scope == scope
  }

  // ----------------------------------------------------------------- orders

  function CreateOrder(w: World, scope: Scope, warehouse: Option<Uuid>, lines: seq<OrderLine>): Change {
    Made(w.(orders := w.orders + [Order(scope, warehouse, lines, OrderStatus.DRAFT, false, false, 1)]), |w.orders|)
  }

  function DeleteOrder(w: World, scope: Scope, id: nat): Change {
    if !OrderVisible(w, scope, id) || w.orders[id].status != OrderStatus.DRAFT then Refused(NotDraft)
    else Made(w.(orders := w.orders[id := w.orders[id].(deleted := true, version := w.orders[id].version + 1)]), id)
  }

  function LineRequest(scope: Scope, order: nat, warehouse: Uuid, line: OrderLine): Request
    requires line.item.Some?
  {
    Reserve(OrderSource(scope, order), warehouse, line.item.value, line.quantity)
  }

  /** Reserve every line, one after the other. */
  function ReserveLines(
    t: Tables, c: Catalogue, scope: Scope, order: nat, warehouse: Uuid, lines: seq<OrderLine>): Outcome<()>
    requires forall n :: 0 <= n < |lines| ==> lines[n].item.Some?
    decreases |lines|
  {
    if lines == [] then Done(t, ())
    else
      var first := ReserveStock(t, c, LineRequest(scope, order, warehouse, lines[0]));
      if first.Failed? then Failed(first.error)
      else ReserveLines(first.tables, c, scope, order, warehouse, lines[1..])
  }

  function ReserveOrder(w: World, c: Catalogue, scope: Scope, id: nat): Change {
    if !OrderVisible(w, scope, id) then Refused(NotFound)
    else
      var o := w.orders[id];
      if o.status != CONFIRMED then Refused(NotConfirmed)
      else if o.warehouse.None? then Refused(NoWarehouse)
      else if o.lines == [] || exists n :: 0 <= n < |o.lines| && o.lines[n].item.None? then Refused(LineWithoutItem)
      else
        var r := ReserveLines(w.tables, c, scope, id, o.warehouse.value, o.lines);
        if r.Failed? then Refused(FromInventory(r.error))
        else
          Made(w.(tables := r.tables, orders := w.orders[id := o.(reserved := true, version := o.version + 1)]), id)
  }

  /** Release every row that the listing showed as RESERVED. */
  function ReleaseListed(t: Tables, scope: Scope, listed: seq<Option<Reservation>>, ids: seq<nat>): Outcome<()>
    requires RowsExist(listed, ids)
    decreases |ids|
  {
    if ids == [] then Done(t, ())
    else if listed[ids[0]].value.status != RESERVED then ReleaseListed(t, scope, listed, ids[1..])
    else
      var first := ReleaseReservation(t, Release(scope, ids[0]));
      if first.Failed? then Failed(first.error) else ReleaseListed(first.tables, scope, listed, ids[1..])
  }

  function ReleaseOrder(t: Tables, scope: Scope, id: nat): Outcome<()> {
    ReleaseListed(t, scope, t.reservations, SourceRows(t.reservations, OrderSource(scope, id)))
  }

  /**
    The update of the reservation status bumps the version too, so a cancellation
    that releases expects one more than the caller gave.
   */
  function MoveOrder(w: World, scope: Scope, id: nat, to: OrderStatus, expected: int): Change {
    if expected < 1 then Refused(InvalidVersion)
    else if !OrderVisible(w, scope, id) then Refused(NotFound)
    else
      var o := w.orders[id];
      if !OrderMoves(o.status, to) then Refused(WrongTransition)
      else if to == OrderStatus.CANCELLED && o.reserved then
        var r := ReleaseOrder(w.tables, scope, id);
        if r.Failed? then Refused(FromInventory(r.error))
        else if o.version + 1 != expected + 1 then Refused(VersionConflict)
        else
          Made(w.(tables := r.tables,
            orders := w.orders[id := o.(reserved := false, status := to, version := o.version + 2)]), id)
      else if o.version != expected then Refused(VersionConflict)
      else Made(w.(orders := w.orders[id := o.(status := to, version := o.version + 1)]), id)
  }

  // ------------------------------------------------------------- deliveries

  predicate SameRequest(d: Delivery, scope: Scope, key: string, order: nat) {
    d.scope == scope && (d.key == key || d.order == order)
  }

  function FindDelivery(ds: seq<Delivery>, scope: Scope, key: string, order: nat): (found: Option<nat>)
    ensures found.Some? ==> found.value < |ds| && SameRequest(ds[found.value], scope, key, order)
    ensures found.None? ==> forall i :: 0 <= i < |ds| ==> !SameRequest(ds[i], scope, key, order)
  {
    if ds == [] then None
    else
      var found := FindDelivery(ds[..|ds| - 1], scope, key, order);
      if found.Some? then found
      else if SameRequest(ds[|ds| - 1], scope, key, order) then Some(|ds| - 1)
      else None
  }

  function CopyLines(lines: seq<OrderLine>): (r: seq<DeliveryLine>)
    ensures |r| == |lines| && forall n :: 0 <= n < |r| ==> r[n] == DeliveryLine(lines[n].item, None)
  {
    seq(|lines|, n requires 0 <= n < |lines| => DeliveryLine(lines[n].item, None))
  }

  /** The delivery row a request stands for: an earlier one when it is a replay. */
  function OpenDelivery(w: World, scope: Scope, order: nat, key: string, allowReplay: bool): Change {
    var existing := FindDelivery(w.deliveries, scope, key, order);
    if existing.Some? then
      if allowReplay then Made(w, existing.value) else Refused(ReplayRefused)
    else if !OrderVisible(w, scope, order) || w.orders[order].status != CONFIRMED then Refused(NotConfirmed)
    else if w.orders[order].warehouse.None? then Refused(NoWarehouse)
    else
      var d := Delivery(scope, order, key, CopyLines(w.orders[order].lines), DeliveryStatus.DRAFT, 1);
      Made(w.(deliveries := w.deliveries + [d]), |w.deliveries|)
  }

  /** The first listed row for an item. */
  function FindByItem(rows: seq<Option<Reservation>>, ids: seq<nat>, item: Uuid): (found: Option<nat>)
    requires RowsExist(rows, ids)
    ensures found.Some? ==>
      && found.value in ids && found.value < |rows|
      && rows[found.value].Some? && rows[found.value].value.item == item
    ensures found.None? ==> forall a :: 0 <= a < |ids| ==> rows[ids[a]].value.item != item
  {
    if ids == [] then None
    else if rows[ids[0]].value.item == item then Some(ids[0])
    else FindByItem(rows, ids[1..], item)
  }

  predicate LineMatched(rows: seq<Option<Reservation>>, ids: seq<nat>, line: DeliveryLine)
    requires RowsExist(rows, ids)
  {
    line.item.Some? && FindByItem(rows, ids, line.item.value).Some?
  }

  function LinkLine(rows: seq<Option<Reservation>>, ids: seq<nat>, line: DeliveryLine): DeliveryLine
    requires RowsExist(rows, ids) && LineMatched(rows, ids, line)
  {
    line.(reservation := FindByItem(rows, ids, line.item.value))
  }

  predicate AllMatched(rows: seq<Option<Reservation>>, ids: seq<nat>, lines: seq<DeliveryLine>)
    requires RowsExist(rows, ids)
  {
    forall n :: 0 <= n < |lines| ==> LineMatched(rows, ids, lines[n])
  }

  function LinkLines(rows: seq<Option<Reservation>>, ids: seq<nat>, lines: seq<DeliveryLine>): (r: seq<DeliveryLine>)
    requires RowsExist(rows, ids) && AllMatched(rows, ids, lines)
    ensures |r| == |lines| && AllLinked(r)
    ensures forall n :: 0 <= n < |r| ==> r[n] == LinkLine(rows, ids, lines[n])
  {
    if lines == [] then []
    else
      assert LineMatched(rows, ids, lines[0]);
      assert AllMatched(rows, ids, lines[1..]) by {
        forall n | 0 <= n < |lines| - 1 ensures LineMatched(rows, ids, lines[1..][n]) {
          assert LineMatched(rows, ids, lines[n + 1]);
        }
      }
      [LinkLine(rows, ids, lines[0])] + LinkLines(rows, ids, lines[1..])
  }

  predicate AllReserved(rows: seq<Option<Reservation>>, ids: seq<nat>)
    requires RowsExist(rows, ids)
  {
    forall a :: 0 <= a < |ids| ==> rows[ids[a]].value.status == RESERVED
  }

  /** The unique index on the row a line refers to: some other line of the tenant has this row. */
  predicate RowTaken(ds: seq<Delivery>, id: nat, n: nat, i: nat)
    requires id < |ds|
  {
    exists e, m :: 0 <= e < |ds| && 0 <= m < |ds[e].lines| && (e != id || m != n)
                   && ds[e].scope.tenant == ds[id].scope.tenant && ds[e].lines[m].reservation == Some(i)
  }

  ghost predicate AllLinked(lines: seq<DeliveryLine>) {
    forall n :: 0 <= n < |lines| ==> lines[n].reservation.Some?
  }

  function WithLine(ds: seq<Delivery>, id: nat, n: nat, line: DeliveryLine): seq<Delivery>
    requires id < |ds| && n < |ds[id].lines|
  {
    ds[id := ds[id].(lines := ds[id].lines[n := line])]
  }

  /** One update per line from line `n` on; the first that meets the index throws. */
  function Attach(ds: seq<Delivery>, id: nat, linked: seq<DeliveryLine>, n: nat): (r: Option<seq<Delivery>>)
    requires id < |ds| && |linked| == |ds[id].lines| && n <= |linked| && AllLinked(linked)
    ensures r.Some? ==> r.value == ds[id := ds[id].(lines := ds[id].lines[..n] + linked[n..])]
    decreases |linked| - n
  {
    if n == |linked| then
      assert ds[id].lines[..n] + linked[n..] == ds[id].lines;
      Some(ds)
    else if RowTaken(ds, id, n, linked[n].reservation.value) then None
    else
      assert ds[id].lines[n := linked[n]][..n + 1] + linked[n + 1..] == ds[id].lines[..n] + linked[n..];
      Attach(WithLine(ds, id, n, linked[n]), id, linked, n + 1)
  }

  /** The listing is of the order named in the call, also when the delivery found is an earlier one. */
  function CreateDelivery(w: World, scope: Scope, order: nat, key: string, allowReplay: bool): Change {
    var started := OpenDelivery(w, scope, order, key, allowReplay);
    if started.Refused? then started
    else
      var rows := w.tables.reservations;
      var ids := SourceRows(rows, OrderSource(scope, order));
      var d := started.world.deliveries[started.id];
      if ids == [] || !AllReserved(rows, ids) then Refused(NeedsActiveReservations)
      else if !AllMatched(rows, ids, d.lines) then Refused(NoMatchingReservation)
      else if d.status != DeliveryStatus.DRAFT then Refused(NotDraft)
      else
        var linked := LinkLines(rows, ids, d.lines);
        if Attach(started.world.deliveries, started.id, linked, 0).None? then Refused(RowReferredTo)
        else
          var d' := d.(lines := linked, version := d.version + 1);
          Made(started.world.(deliveries := started.world.deliveries[started.id := d']), started.id)
  }

  function MoveDelivery(w: World, scope: Scope, id: nat, to: DeliveryStatus, expected: int): Change {
    if expected < 1 then Refused(InvalidVersion)
    else if !DeliveryVisible(w, scope, id) then Refused(NotFound)
    else
      var d := w.deliveries[id];
      if !DeliveryMoves(d.status, to) then Refused(WrongTransition)
      else if to == COMPLETED then
        if d.lines == [] || exists n :: 0 <= n < |d.lines| && d.lines[n].reservation.None? then
          Refused(ReferencesRequired)
        else
          var r := FulfillBySource(w.tables, OrderSource(scope, d.order), DeliveryKey(id));
          if r.Failed? then Refused(FromInventory(r.error))
          else if d.version != expected then Refused(VersionConflict)
          else
            Made(w.(tables := r.tables,
              deliveries := w.deliveries[id := d.(status := to, version := d.version + 1)]), id)
      else if d.version != expected then Refused(VersionConflict)
      else Made(w.(deliveries := w.deliveries[id := d.(status := to, version := d.version + 1)]), id)
  }

  // -------------------------------------------------------------------- runs

  datatype Action =
    | NewOrder(scope: Scope, warehouse: Option<Uuid>, lines: seq<OrderLine>)
    | DropOrder(scope: Scope, order: nat)
    | ToOrderStatus(scope: Scope, order: nat, orderStatus: OrderStatus, expected: int)
    | ReserveFor(scope: Scope, order: nat)
    | NewDelivery(scope: Scope, order: nat, key: string, allowReplay: bool)
    | ToDeliveryStatus(scope: Scope, delivery: nat, deliveryStatus: DeliveryStatus, expected: int)
    | Direct(request: Request)
    | DirectFulfil(source: Source, operation: OperationKey)

  function Act(w: World, c: Catalogue, a: Action): World {
    match a
    case NewOrder(s, wh, lines) => Settle(w, CreateOrder(w, s, wh, lines))
    case DropOrder(s, o) => Settle(w, DeleteOrder(w, s, o))
    case ToOrderStatus(s, o, to, v) => Settle(w, MoveOrder(w, s, o, to, v))
    case ReserveFor(s, o) => Settle(w, ReserveOrder(w, c, s, o))
    case NewDelivery(s, o, key, replay) => Settle(w, CreateDelivery(w, s, o, key, replay))
    case ToDeliveryStatus(s, d, to, v) => Settle(w, MoveDelivery(w, s, d, to, v))
    case Direct(r) => w.(tables := Apply(w.tables, c, r))
    case DirectFulfil(source, key) => w.(tables := After(w.tables, FulfillBySource(w.tables, source, key)))
  }

  function Play(w: World, actions: seq<(Catalogue, Action)>): World
    decreases |actions|
  {
    if actions == [] then w else Play(Act(w, actions[0].0, actions[0].1), actions[1..])
  }
}
