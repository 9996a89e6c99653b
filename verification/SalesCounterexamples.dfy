/** Runs in which a delivery is COMPLETED although a row it refers to was never issued. */
module SalesCounterexamples {
  import opened Wrappers
  import opened InventoryTables
  import opened InventorySpec
  import opened InventoryBySource
  import opened SalesSpec
  import opened SalesDeliveries

  const HERE := Scope(0, 0, 0)
  const KEY := StockKey(0, 0, 0)
  const LINE := OrderLine(Some(0), 1)

  function Row(order: nat): Option<Reservation> {
    Some(Reservation(OrderSource(HERE, order), 0, 0, 1, RESERVED))
  }

  /** Two confirmed orders for one item, both reserved, and a draft delivery of the first. */
  function TwoOrders(): World {
    World(
      Tables(map[KEY := StockRow(2, 2)], [Row(0), Row(1)], [Movement(HERE, 0, 0, RECEIPT, 2, CallerKey("receipt"))]),
      [Order(HERE, Some(0), [LINE], CONFIRMED, true, false, 3),
        Order(HERE, Some(0), [LINE], CONFIRMED, true, false, 3)],
      [Delivery(HERE, 0, "key", [DeliveryLine(Some(0), Some(0))], DeliveryStatus.DRAFT, 2)])
  }

  lemma TwoOrdersIsHonest()
    ensures Honest(TwoOrders())
  {
    var w := TwoOrders();
    forall k ensures BalancedAt(w.tables, k) {
      assert [Row(0), Row(1)][..1] == [Row(0)];
      assert Claimed([Row(0), Row(1)], k) == Claimed([Row(0)], k) + Claim(Row(1), k);
      assert Claimed([Row(0)], k) == Claim(Row(0), k);
      assert Net(w.tables.movements, k) == Share(w.tables.movements[0], k);
    }
  }

  /** The listing of an order with one RESERVED row. */
  lemma OneRowListed(rows: seq<Option<Reservation>>, order: nat, i: nat, line: DeliveryLine)
    requires i < |rows| && rows[i] == Row(order) && line.item == Some(0)
    requires forall j :: 0 <= j < |rows| && OfSource(rows[j], OrderSource(HERE, order)) ==> j == i
    ensures var ids := SourceRows(rows, OrderSource(HERE, order));
            && ids != [] && AllReserved(rows, ids) && AllMatched(rows, ids, [line])
            && LinkLines(rows, ids, [line]) == [line.(reservation := Some(i))]
  {
    var ids := SourceRows(rows, OrderSource(HERE, order));
    assert OfSource(rows[i], OrderSource(HERE, order)) && i in ids;
    forall a | 0 <= a < |ids| ensures ids[a] == i {
      assert ids[a] in ids && OfSource(rows[ids[a]], OrderSource(HERE, order));
    }
    assert FindByItem(rows, ids, 0) == Some(i);
    assert LineMatched(rows, ids, line);
  }

  /** A delivery of one line, alone in the table, can be linked to any row. */
  lemma OnlyLineAttaches(d: Delivery, line: DeliveryLine)
    requires |d.lines| == 1 && line.reservation.Some?
    ensures Attach([d], 0, [line], 0) == Some([d.(lines := [line])])
  {
    var d' := d.(lines := d.lines[0 := line]);
    assert WithLine([d], 0, 0, line) == [d'] && d'.lines == [line];
    assert Attach([d'], 0, [line], 1) == Some([d']);
    assert !RowTaken([d], 0, 0, line.reservation.value);
  }

  /** A second creation with the first delivery's key and the other order's id goes through. */
  lemma SecondCreationIsMade()
    ensures var m := CreateDelivery(TwoOrders(), HERE, 1, "key", true);
            m.Made? && m.id == 0
  {
    var w := TwoOrders();
    assert FindDelivery(w.deliveries, HERE, "key", 1) == Some(0) by {
      assert SameRequest(w.deliveries[0], HERE, "key", 1);
    }
    OneRowListed(w.tables.reservations, 1, 1, w.deliveries[0].lines[0]);
    OnlyLineAttaches(w.deliveries[0], w.deliveries[0].lines[0].(reservation := Some(1)));
  }

  // ------------------------------------------- how that world comes about

  const CATALOGUE := Catalogue({(0, 0)}, {(0, 0)})
  const NEW_ORDER := Order(HERE, Some(0), [LINE], OrderStatus.DRAFT, false, false, 1)
  const CONFIRMED_ORDER := NEW_ORDER.(status := CONFIRMED, version := 2)
  const RESERVED_ORDER := CONFIRMED_ORDER.(reserved := true, version := 3)
  const RECEIVED := Movement(HERE, 0, 0, RECEIPT, 2, CallerKey("receipt"))

  function Stocked(reserved: Quantity, rows: seq<Option<Reservation>>): Tables {
    Tables(map[KEY := StockRow(2, reserved)], rows, [RECEIVED])
  }

  /** Some admissible run leads from the first world to the second. */
  ghost predicate Reaches(w: World, w': World) {
    exists actions :: AdmissibleRun(w, actions) && Play(w, actions) == w'
  }

  lemma StaysReached(w: World)
    ensures Reaches(w, w)
  {
    assert AdmissibleRun(w, []) && Play(w, []) == w;
  }

  lemma OneMore(w: World, a: Action, w1: World, w': World)
    requires Act(w, CATALOGUE, a) == w1 && Admissible(w, a) && Reaches(w1, w')
    ensures Reaches(w, w')
  {
    var actions :| AdmissibleRun(w1, actions) && Play(w1, actions) == w';
    var more := [(CATALOGUE, a)] + actions;
    assert more[1..] == actions;
    assert AdmissibleRun(w, more) && Play(w, more) == w';
  }

  lemma Received(a: Action)
    requires a == Direct(Receive(HERE, 0, 0, 2, CallerKey("receipt")))
    ensures Act(World(EMPTY, [], []), CATALOGUE, a) == World(Stocked(0, []), [], [])
    ensures Admissible(World(EMPTY, [], []), a)
  {
    assert Apply(EMPTY, CATALOGUE, a.request) == Stocked(0, []);
  }

  lemma OrderMade(w: World, a: Action)
    requires a == NewOrder(HERE, Some(0), [LINE])
    ensures Act(w, CATALOGUE, a) == w.(orders := w.orders + [NEW_ORDER]) && Admissible(w, a)
  {
  }

  lemma OrderConfirmed(w: World, a: Action, id: nat)
    requires id < |w.orders| && w.orders[id] == NEW_ORDER && a == ToOrderStatus(HERE, id, CONFIRMED, 1)
    ensures Act(w, CATALOGUE, a) == w.(orders := w.orders[id := CONFIRMED_ORDER]) && Admissible(w, a)
  {
  }

  /** Reserving the one line of a confirmed order without rows. */
  lemma OrderReserved(w: World, a: Action, id: nat, reserved: Quantity)
    requires a == ReserveFor(HERE, id)
    requires id < |w.orders| && w.orders[id] == CONFIRMED_ORDER
    requires w.tables == Stocked(reserved, w.tables.reservations) && reserved < 2
    requires forall i :: 0 <= i < |w.tables.reservations| ==>
      !Matches(w.tables.reservations[i], OrderSource(HERE, id), 0)
    ensures Admissible(w, a)
    ensures Act(w, CATALOGUE, a) ==
              World(Stocked(reserved + 1, w.tables.reservations + [Row(id)]), w.orders[id := RESERVED_ORDER],
                w.deliveries)
  {
    var r := LineRequest(HERE, id, 0, LINE);
    var t' := Stocked(reserved + 1, w.tables.reservations + [Row(id)]);
    assert FindReservation(w.tables.reservations, r.source, r.item).None?;
    assert ReserveStock(w.tables, CATALOGUE, r) == Done(t', |w.tables.reservations|);
    assert ReserveLines(t', CATALOGUE, HERE, id, 0, [LINE][1..]) == Done(t', ());
    assert ReserveLines(w.tables, CATALOGUE, HERE, id, 0, [LINE]) == Done(t', ());
  }

  lemma FirstOpened(w: World, d: Delivery)
    requires w.deliveries == [] && w.orders == [RESERVED_ORDER]
    requires d == Delivery(HERE, 0, "key", [DeliveryLine(Some(0), None)], DeliveryStatus.DRAFT, 1)
    ensures OpenDelivery(w, HERE, 0, "key", true) == Made(w.(deliveries := [d]), 0)
  {
    assert CopyLines([LINE]) == [DeliveryLine(Some(0), None)];
    assert w.deliveries + [d] == [d];
  }

  /** The delivery of one order, opened alone in the table, is linked to the order's one row. */
  lemma LinkedAlone(w: World, started: World, d: Delivery, line: DeliveryLine)
    requires w.tables.reservations == [Row(0)] && started == w.(deliveries := [d])
    requires OpenDelivery(w, HERE, 0, "key", true) == Made(started, 0)
    requires d.lines == [line] && line.item == Some(0) && d.status == DeliveryStatus.DRAFT
    ensures CreateDelivery(w, HERE, 0, "key", true) ==
              Made(w.(deliveries := [d.(lines := [line.(reservation := Some(0))], version := d.version + 1)]), 0)
  {
    hide OpenDelivery, SourceRows, RowTaken, AllReserved, AllMatched, LinkLines, Attach, FindByItem;
    var ids := SourceRows(w.tables.reservations, OrderSource(HERE, 0));
    OneRowListed(w.tables.reservations, 0, 0, line);
    OnlyLineAttaches(d, line.(reservation := Some(0)));
    var d' := d.(lines := [line.(reservation := Some(0))], version := d.version + 1);
    assert [d][0 := d'] == [d'];
  }

  lemma FirstCreationIsMade(w: World)
    requires w == World(Stocked(1, [Row(0)]), [RESERVED_ORDER], [])
    ensures CreateDelivery(w, HERE, 0, "key", true) == Made(w.(deliveries := TwoOrders().deliveries), 0)
  {
    var line := DeliveryLine(Some(0), None);
    var d := Delivery(HERE, 0, "key", [line], DeliveryStatus.DRAFT, 1);
    FirstOpened(w, d);
    LinkedAlone(w, w.(deliveries := [d]), d, line);
  }

  lemma DeliveryCreated(w: World, a: Action)
    requires w == World(Stocked(1, [Row(0)]), [RESERVED_ORDER], []) && a == NewDelivery(HERE, 0, "key", true)
    ensures Act(w, CATALOGUE, a) == w.(deliveries := TwoOrders().deliveries) && Admissible(w, a)
  {
    FirstCreationIsMade(w);
  }

  /** A new order, confirmed and reserved. */
  lemma OrderReaches(w: World, id: nat, reserved: Quantity)
    requires w.tables == Stocked(reserved, w.tables.reservations) && reserved < 2 && id == |w.orders|
    requires forall i :: 0 <= i < |w.tables.reservations| ==>
      !Matches(w.tables.reservations[i], OrderSource(HERE, id), 0)
    ensures var w' :=
      World(Stocked(reserved + 1, w.tables.reservations + [Row(id)]), w.orders + [RESERVED_ORDER], w.deliveries);
            forall end :: Reaches(w', end) ==> Reaches(w, end)
  {
    hide Act, Reaches, AdmissibleRun, Play;
    var w1 := w.(orders := w.orders + [NEW_ORDER]);
    var w2 := w.(orders := w.orders + [CONFIRMED_ORDER]);
    var w3 :=
      World(Stocked(reserved + 1, w.tables.reservations + [Row(id)]), w.orders + [RESERVED_ORDER], w.deliveries);
    var make, confirm,
      reserve := NewOrder(HERE, Some(0), [LINE]), ToOrderStatus(HERE, id, CONFIRMED, 1), ReserveFor(HERE, id);
    OrderMade(w, make);
    OrderConfirmed(w1, confirm, id);
    assert w1.orders[id := CONFIRMED_ORDER] == w2.orders;
    OrderReserved(w2, reserve, id, reserved);
    assert w2.orders[id := RESERVED_ORDER] == w3.orders;
    forall end | Reaches(w3, end) ensures Reaches(w, end) {
      OneMore(w2, reserve, w3, end);
      OneMore(w1, confirm, w2, end);
      OneMore(w, make, w1, end);
    }
  }

  /** Eight admissible actions from empty tables make the world of two orders. */
  lemma TwoOrdersIsReached()
    ensures Reaches(World(EMPTY, [], []), TwoOrders())
  {
    hide Act, Reaches, Admissible, AdmissibleRun, Play;
    var empty, w1 := World(EMPTY, [], []), World(Stocked(0, []), [], []);
    var w2 := World(Stocked(1, [Row(0)]), [RESERVED_ORDER], []);
    var w3 := w2.(deliveries := TwoOrders().deliveries);
    StaysReached(TwoOrders());
    OrderReaches(w3, 1, 1);
    assert [Row(0)] + [Row(1)] == [Row(0), Row(1)] && [RESERVED_ORDER] + [RESERVED_ORDER] == TwoOrders().orders;
    var create, receive := NewDelivery(HERE, 0, "key", true), Direct(Receive(HERE, 0, 0, 2, CallerKey("receipt")));
    DeliveryCreated(w2, create);
    OneMore(w2, create, w3, TwoOrders());
    OrderReaches(w1, 0, 0);
    assert [] + [Row(0)] == [Row(0)] && [] + [RESERVED_ORDER] == [RESERVED_ORDER];
    Received(receive);
    OneMore(empty, receive, w1, TwoOrders());
  }

  /** A step of a delivery that is not a completion. */
  lemma StepOn(w: World, c: Catalogue, scope: Scope, d: nat, to: DeliveryStatus)
    requires DeliveryVisible(w, scope, d) && DeliveryMoves(w.deliveries[d].status, to) && to != COMPLETED
    requires w.deliveries[d].version >= 1
    ensures var next := w.deliveries[d].(status := to, version := w.deliveries[d].version + 1);
            Act(w, c, ToDeliveryStatus(scope, d, to, w.deliveries[d].version)) ==
              w.(deliveries := w.deliveries[d := next])
  {
  }

  /**
    Whenever a creation falls on an earlier delivery of another order, that delivery can
    be dispatched, delivered and completed, and is then COMPLETED while every row it refers
    to is still RESERVED.
   */
  lemma RelinkedDeliveryCompletes(w: World, c: Catalogue, scope: Scope, order: nat, key: string)
    requires Balanced(w.tables)
    requires CreateDelivery(w, scope, order, key, true).Made? && !NamesOwnOrder(w, scope, order, key)
    requires var d := w.deliveries[FindDelivery(w.deliveries, scope, key, order).value];
             && d.lines != [] && HasRow(w.tables.reservations, OrderSource(scope, d.order))
             && !HasReleased(w.tables.reservations, OrderSource(scope, d.order))
    ensures var m := CreateDelivery(w, scope, order, key, true);
            && m.id < |w.deliveries|
            && var v := m.world.deliveries[m.id].version;
               var w2 := Act(m.world, c, ToDeliveryStatus(scope, m.id, DISPATCHED, v));
               var w3 := Act(w2, c, ToDeliveryStatus(scope, m.id, DELIVERED, v + 1));
               var w4 := Act(w3, c, ToDeliveryStatus(scope, m.id, COMPLETED, v + 2));
               && m.id < |w4.deliveries| && w4.deliveries[m.id].status == COMPLETED
               && w4.deliveries[m.id].lines != []
               && forall n :: 0 <= n < |w4.deliveries[m.id].lines| ==>
                    RefersToReserved(w4.tables.reservations, w4.deliveries[m.id].lines[n])
  {
    hide Balanced, HasRow, HasReleased, FulfillBySource, OpenDelivery, Attach, LinkLines, AllMatched, AllReserved;
    hide SourceRows, FindDelivery, RowTaken;
    var m := CreateDelivery(w, scope, order, key, true);
    OpenedDelivery(w, scope, order, key, true);
    CreatedReferences(w, scope, order, key, true);
    var d := m.world.deliveries[m.id];
    StepOn(m.world, c, scope, m.id, DISPATCHED);
    var w2 := Act(m.world, c, ToDeliveryStatus(scope, m.id, DISPATCHED, d.version));
    StepOn(w2, c, scope, m.id, DELIVERED);
    var w3 := Act(w2, c, ToDeliveryStatus(scope, m.id, DELIVERED, d.version + 1));
    CompletionExactly(w3, scope, m.id, d.version + 2);
    var w4 := Act(w3, c, ToDeliveryStatus(scope, m.id, COMPLETED, d.version + 2));
    assert w4.deliveries[m.id].lines == d.lines;
    forall n | 0 <= n < |d.lines| ensures RefersToReserved(w4.tables.reservations, d.lines[n]) {
      var i := d.lines[n].reservation.value;
      CreationNeedsReserved(w, scope, order, key, true, i);
      assert !RowOf(w3.tables.reservations, i, OrderSource(scope, d.order));
      assert w4.tables.reservations[i] == w.tables.reservations[i];
    }
  }

  predicate RefersToReserved(rows: seq<Option<Reservation>>, line: DeliveryLine) {
    && line.reservation.Some? && line.reservation.value < |rows|
    && rows[line.reservation.value].Some? && rows[line.reservation.value].value.status == RESERVED
  }

  /** The two-order world meets the conditions, so the property fails there. */
  lemma TwoOrdersFails()
    ensures Honest(TwoOrders())
    ensures CreateDelivery(TwoOrders(), HERE, 1, "key", true).Made? && !NamesOwnOrder(TwoOrders(), HERE, 1, "key")
    ensures TwoOrders().deliveries[0].lines != []
    ensures HasRow(TwoOrders().tables.reservations, OrderSource(HERE, 0))
    ensures !HasReleased(TwoOrders().tables.reservations, OrderSource(HERE, 0))
  {
    TwoOrdersIsHonest();
    SecondCreationIsMade();
    var w := TwoOrders();
    assert SameRequest(w.deliveries[0], HERE, "key", 1);
    assert OfSource(w.tables.reservations[0], OrderSource(HERE, 0));
  }

  /**
    The other condition: when a completion's key for a RESERVED row of the order is in the
    log already, the delivery still completes and that row stays RESERVED.
   */
  lemma TakenKeyLeavesRowReserved(w: World, scope: Scope, d: nat, expected: int, i: nat)
    requires Balanced(w.tables) && MoveDelivery(w, scope, d, COMPLETED, expected).Made?
    requires RowOf(w.tables.reservations, i, OrderSource(scope, w.deliveries[d].order))
    requires KeyTaken(w.tables, scope, DeliveryKey(d), i)
    ensures var w' := MoveDelivery(w, scope, d, COMPLETED, expected).world;
            w'.deliveries[d].status == COMPLETED && !Fulfilled(w'.tables.reservations, i)
  {
    CompletionExactly(w, scope, d, expected);
  }
}
