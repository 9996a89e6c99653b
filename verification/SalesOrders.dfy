/**
  What reserving and cancelling an order do to the inventory: which rows appear, how
  much is reserved, and that the second undoes the first.
 */
module SalesOrders {
  import opened Wrappers
  import opened InventoryTables
  import opened InventorySpec
  import opened InventoryBySource
  import opened SalesSpec

  ghost predicate ItemsKnown(lines: seq<OrderLine>) {
    forall n :: 0 <= n < |lines| ==> lines[n].item.Some?
  }

  /** Some row of the source holds this quantity of the item. */
  ghost predicate Holds(rows: seq<Option<Reservation>>, source: Source, line: OrderLine) {
    exists i :: 0 <= i < |rows| && line.item.Some? && Matches(rows[i], source, line.item.value)
                && rows[i].value.quantity == line.quantity
  }

  predicate NewRow(row: Option<Reservation>, source: Source, warehouse: Uuid) {
    row.Some? && row.value.source == source && row.value.warehouse == warehouse && row.value.status == RESERVED
  }

  // --------------------------------------------------------------- reserving

  lemma HoldsLater(rows: seq<Option<Reservation>>, rows': seq<Option<Reservation>>, source: Source, line: OrderLine)
    requires rows <= rows' && Holds(rows, source, line)
    ensures Holds(rows', source, line)
  {
    var i :| 0 <= i < |rows| && line.item.Some? && Matches(rows[i], source, line.item.value)
             && rows[i].value.quantity == line.quantity;
    assert rows'[i] == rows[i];
  }

  /** One reservation: the row it returns, and what the tables gain. */
  lemma ReserveOne(t: Tables, c: Catalogue, r: Request)
    requires Balanced(t) && OneRowPerSource(t.reservations)
    requires r.Reserve? && ReserveStock(t, c, r).Done?
    ensures var t' := ReserveStock(t, c, r).tables;
            && Balanced(t') && OneRowPerSource(t'.reservations)
            && t'.movements == t.movements && t.reservations <= t'.reservations
            && |t'.reservations| <= |t.reservations| + 1
            && (forall i :: |t.reservations| <= i < |t'.reservations| ==>
                NewRow(t'.reservations[i], r.source, r.warehouse))
            && Holds(t'.reservations, r.source, OrderLine(Some(r.item), r.quantity))
  {
    ReserveKeepsBalance(t, c, r);
    ApplyKeepsOneRowPerSource(t, c, r);
    var o := ReserveStock(t, c, r);
    assert Matches(o.tables.reservations[o.value], r.source, r.item);
  }

  /** A successful pass over the lines leaves a row for each of them and moves no goods. */
  lemma {:induction false} ReserveLinesEffect(
    t: Tables, c: Catalogue, scope: Scope, order: nat, warehouse: Uuid, lines: seq<OrderLine>)
    requires ItemsKnown(lines) && Balanced(t) && OneRowPerSource(t.reservations)
    requires ReserveLines(t, c, scope, order, warehouse, lines).Done?
    ensures var t' := ReserveLines(t, c, scope, order, warehouse, lines).tables;
            && Balanced(t') && OneRowPerSource(t'.reservations)
            && t'.movements == t.movements && t.reservations <= t'.reservations
            && (forall i :: |t.reservations| <= i < |t'.reservations| ==>
                  NewRow(t'.reservations[i], OrderSource(scope, order), warehouse))
            && (forall n :: 0 <= n < |lines| ==>
                  lines[n].quantity > 0 && Holds(t'.reservations, OrderSource(scope, order), lines[n]))
    decreases |lines|
  {
    if lines != [] {
      var r := LineRequest(scope, order, warehouse, lines[0]);
      ReserveOne(t, c, r);
      var t1 := ReserveStock(t, c, r).tables;
      ReserveLinesEffect(t1, c, scope, order, warehouse, lines[1..]);
      var t' := ReserveLines(t1, c, scope, order, warehouse, lines[1..]).tables;
      forall n | 0 <= n < |lines|
        ensures lines[n].quantity > 0 && Holds(t'.reservations, OrderSource(scope, order), lines[n])
      {
        if n == 0 {
          assert lines[0] == OrderLine(Some(r.item), r.quantity);
          HoldsLater(t1.reservations, t'.reservations, OrderSource(scope, order), lines[0]);
        } else {
          assert lines[1..][n - 1] == lines[n];
        }
      }
      forall i | |t.reservations| <= i < |t'.reservations|
        ensures NewRow(t'.reservations[i], OrderSource(scope, order), warehouse)
      {
        if i < |t1.reservations| {
          assert t'.reservations[i] == t1.reservations[i];
        }
      }
    }
  }

  /** Some row of the source is still RESERVED for the line. */
  ghost predicate HoldsReserved(rows: seq<Option<Reservation>>, source: Source, line: OrderLine) {
    exists i :: 0 <= i < |rows| && line.item.Some? && Matches(rows[i], source, line.item.value)
                && rows[i].value.quantity == line.quantity && rows[i].value.status == RESERVED
  }

  /** The source had a row for the item and gave it up or issued it. */
  ghost predicate SpentRow(rows: seq<Option<Reservation>>, source: Source, item: Uuid) {
    exists i :: 0 <= i < |rows| && Matches(rows[i], source, item) && rows[i].value.status != RESERVED
  }

  lemma ReservedUnlessSpent(
    rows: seq<Option<Reservation>>, rows': seq<Option<Reservation>>, source: Source, warehouse: Uuid, line: OrderLine)
    requires rows <= rows' && OneRowPerSource(rows') && line.item.Some? && Holds(rows', source, line)
    requires forall i :: |rows| <= i < |rows'| ==> NewRow(rows'[i], source, warehouse)
    ensures HoldsReserved(rows', source, line) <==> !SpentRow(rows, source, line.item.value)
  {
    var i :| 0 <= i < |rows'| && Matches(rows'[i], source, line.item.value) && rows'[i].value.quantity == line.quantity;
    if SpentRow(rows, source, line.item.value) {
      var j :| 0 <= j < |rows| && Matches(rows[j], source, line.item.value) && rows[j].value.status != RESERVED;
      assert rows'[j] == rows[j] && i == j;
    } else if i < |rows| {
      assert rows'[i] == rows[i];
    }
  }

  /**
    Every line of an order just reserved has a row of its own item and quantity.  The row is
    RESERVED exactly when the order had not already given up or issued one for that item:
    the lookup returns such a row whatever its status.
   */
  lemma ReservedOrderHoldsEveryLine(w: World, c: Catalogue, scope: Scope, id: nat)
    requires Balanced(w.tables) && OneRowPerSource(w.tables.reservations)
    requires ReserveOrder(w, c, scope, id).Made?
    ensures var w' := ReserveOrder(w, c, scope, id).world;
            && Balanced(w'.tables) && OneRowPerSource(w'.tables.reservations)
            && w'.tables.movements == w.tables.movements && w'.orders[id].reserved
            && forall n :: 0 <= n < |w.orders[id].lines| ==>
                 var line := w.orders[id].lines[n];
                 && line.item.Some? && Holds(w'.tables.reservations, OrderSource(scope, id), line)
                 && (HoldsReserved(w'.tables.reservations, OrderSource(scope, id), line) <==>
                       !SpentRow(w.tables.reservations, OrderSource(scope, id), line.item.value))
  {
    var o := w.orders[id];
    ReserveLinesEffect(w.tables, c, scope, id, o.warehouse.value, o.lines);
    var rows' := ReserveOrder(w, c, scope, id).world.tables.reservations;
    forall n | 0 <= n < |o.lines|
      ensures HoldsReserved(rows', OrderSource(scope, id), o.lines[n]) <==>
                !SpentRow(w.tables.reservations, OrderSource(scope, id), o.lines[n].item.value)
    {
      ReservedUnlessSpent(w.tables.reservations, rows', OrderSource(scope, id), o.warehouse.value, o.lines[n]);
    }
  }

  // ------------------------------------------------- how much gets reserved

  function FirstQuantity(lines: seq<OrderLine>, item: Uuid): Quantity {
    if lines == [] then 0
    else if lines[0].item == Some(item) then lines[0].quantity
    else FirstQuantity(lines[1..], item)
  }

  function Ordered(lines: seq<OrderLine>, item: Uuid): Quantity {
    if lines == [] then 0
    else (if lines[0].item == Some(item) then lines[0].quantity else 0) + Ordered(lines[1..], item)
  }

  function Occurrences(lines: seq<OrderLine>, item: Uuid): nat {
    if lines == [] then 0
    else (if lines[0].item == Some(item) then 1 else 0) + Occurrences(lines[1..], item)
  }

  ghost predicate HasItem(rows: seq<Option<Reservation>>, source: Source, item: Uuid) {
    exists i :: 0 <= i < |rows| && Matches(rows[i], source, item)
  }

  lemma ItemImpliesRow(rows: seq<Option<Reservation>>, source: Source, item: Uuid)
    ensures HasItem(rows, source, item) ==> HasRow(rows, source)
  {
    if HasItem(rows, source, item) {
      var i :| 0 <= i < |rows| && Matches(rows[i], source, item);
      assert OfSource(rows[i], source);
    }
  }

  lemma HasItemAppend(rows: seq<Option<Reservation>>, row: Reservation, source: Source, item: Uuid)
    requires row.source == source
    ensures HasItem(rows + [Some(row)], source, item) <==> HasItem(rows, source, item) || row.item == item
  {
    var rows' := rows + [Some(row)];
    if HasItem(rows, source, item) {
      var i :| 0 <= i < |rows| && Matches(rows[i], source, item);
      assert Matches(rows'[i], source, item);
    }
    if row.item == item {
      assert Matches(rows'[|rows|], source, item);
    }
  }

  /** One reservation adds its quantity to its own stock row, unless the item had a row already. */
  lemma ReserveOneClaims(t: Tables, c: Catalogue, r: Request, item: Uuid)
    requires r.Reserve? && ReserveStock(t, c, r).Done?
    ensures var t' := ReserveStock(t, c, r).tables;
            var k := StockKey(r.source.scope.tenant, r.warehouse, item);
            && Claimed(t'.reservations, k) - Claimed(t.reservations, k)
               == (if item == r.item && !HasItem(t.reservations, r.source, item) then r.quantity else 0)
            && (HasItem(t'.reservations, r.source, item) <==> HasItem(t.reservations, r.source, item) || item == r.item)
  {
    var prior := FindReservation(t.reservations, r.source, r.item);
    if prior.None? {
      var row := Reservation(r.source, r.warehouse, r.item, r.quantity, RESERVED);
      HasItemAppend(t.reservations, row, r.source, item);
      ClaimedAppend(t.reservations, Some(row), StockKey(r.source.scope.tenant, r.warehouse, item));
    } else {
      assert Matches(t.reservations[prior.value], r.source, r.item);
    }
  }

  lemma {:induction false} ReserveLinesClaims(
    t: Tables, c: Catalogue, scope: Scope, order: nat, warehouse: Uuid, lines: seq<OrderLine>, item: Uuid)
    requires ItemsKnown(lines) && ReserveLines(t, c, scope, order, warehouse, lines).Done?
    ensures var t' := ReserveLines(t, c, scope, order, warehouse, lines).tables;
            var k := StockKey(scope.tenant, warehouse, item);
            Claimed(t'.reservations, k) - Claimed(t.reservations, k)
            == (if HasItem(t.reservations, OrderSource(scope, order), item) then 0 else FirstQuantity(lines, item))
    decreases |lines|
  {
    if lines != [] {
      var r := LineRequest(scope, order, warehouse, lines[0]);
      ReserveOneClaims(t, c, r, item);
      ReserveLinesClaims(ReserveStock(t, c, r).tables, c, scope, order, warehouse, lines[1..], item);
    }
  }

  lemma {:induction false} OrderedAtLeastFirst(lines: seq<OrderLine>, item: Uuid)
    requires forall n :: 0 <= n < |lines| ==> lines[n].quantity > 0
    ensures Ordered(lines, item) >= FirstQuantity(lines, item) >= 0
    ensures Occurrences(lines, item) == 0 <==> Ordered(lines, item) == 0
    ensures Ordered(lines, item) == FirstQuantity(lines, item) <==> Occurrences(lines, item) <= 1
  {
    if lines != [] {
      OrderedAtLeastFirst(lines[1..], item);
    }
  }

  /**
    How much an order without earlier rows reserves of each item: the quantity of the
    first line naming it.  That is what was ordered exactly when no second line names it.
   */
  lemma ReservesEachItemOnce(w: World, c: Catalogue, scope: Scope, id: nat, item: Uuid)
    requires Balanced(w.tables) && OneRowPerSource(w.tables.reservations)
    requires !HasRow(w.tables.reservations, OrderSource(scope, id))
    requires ReserveOrder(w, c, scope, id).Made?
    ensures var w' := ReserveOrder(w, c, scope, id).world;
            var o := w.orders[id];
            var k := StockKey(scope.tenant, o.warehouse.value, item);
            var gained := StockAt(w'.tables.stock, k).reserved - StockAt(w.tables.stock, k).reserved;
            && gained == FirstQuantity(o.lines, item)
            && (gained == Ordered(o.lines, item) <==> Occurrences(o.lines, item) <= 1)
            && StockAt(w'.tables.stock, k).onHand == StockAt(w.tables.stock, k).onHand
  {
    var o := w.orders[id];
    var source := OrderSource(scope, id);
    ReserveLinesEffect(w.tables, c, scope, id, o.warehouse.value, o.lines);
    ReserveLinesClaims(w.tables, c, scope, id, o.warehouse.value, o.lines, item);
    ItemImpliesRow(w.tables.reservations, source, item);
    OrderedAtLeastFirst(o.lines, item);
    var k := StockKey(scope.tenant, o.warehouse.value, item);
    assert BalancedAt(w.tables, k) && BalancedAt(ReserveOrder(w, c, scope, id).world.tables, k);
  }

  /** Two lines for one item can only both pass with the same quantity. */
  lemma RepeatedItemsAgree(w: World, c: Catalogue, scope: Scope, id: nat, m: nat, n: nat)
    requires Balanced(w.tables) && OneRowPerSource(w.tables.reservations)
    requires ReserveOrder(w, c, scope, id).Made?
    requires m < |w.orders[id].lines| && n < |w.orders[id].lines|
    requires w.orders[id].lines[m].item == w.orders[id].lines[n].item
    ensures w.orders[id].lines[m].quantity == w.orders[id].lines[n].quantity
  {
    ReservedOrderHoldsEveryLine(w, c, scope, id);
    var rows := ReserveOrder(w, c, scope, id).world.tables.reservations;
    var source, a, b := OrderSource(scope, id), w.orders[id].lines[m], w.orders[id].lines[n];
    assert Holds(rows, source, a) && Holds(rows, source, b);
    var i :| 0 <= i < |rows| && Matches(rows[i], source, a.item.value) && rows[i].value.quantity == a.quantity;
    var j :| 0 <= j < |rows| && Matches(rows[j], source, b.item.value) && rows[j].value.quantity == b.quantity;
    assert i == j;
  }

  // ------------------------------------------- when a reservation succeeds

  /** A line that can be reserved by itself. */
  predicate Reservable(t: Tables, c: Catalogue, tenant: Uuid, warehouse: Uuid, line: OrderLine) {
    && line.item.Some? && line.quantity > 0
    && (tenant, warehouse) in c.warehouses && (tenant, line.item.value) in c.items
    && var row := StockAt(t.stock, StockKey(tenant, warehouse, line.item.value));
       line.quantity <= row.onHand - row.reserved
  }

  /**
    What a line needs: when the order has a row of its item, that row's quantity; otherwise the
    quantity of the first line of the item, and to be reservable by itself.
   */
  predicate LineFits(t: Tables, c: Catalogue, source: Source, warehouse: Uuid, lines: seq<OrderLine>, line: OrderLine)
    requires line.item.Some?
  {
    && line.quantity > 0
    && var prior := FindReservation(t.reservations, source, line.item.value);
       if prior.Some? then t.reservations[prior.value].value.quantity == line.quantity
       else
         && line.quantity == FirstQuantity(lines, line.item.value)
         && Reservable(t, c, source.scope.tenant, warehouse, line)
  }

  ghost predicate AllFit(t: Tables, c: Catalogue, source: Source, warehouse: Uuid, lines: seq<OrderLine>)
    requires ItemsKnown(lines)
  {
    forall n :: 0 <= n < |lines| ==> LineFits(t, c, source, warehouse, lines, lines[n])
  }

  lemma FindAppended(rows: seq<Option<Reservation>>, row: Option<Reservation>, source: Source, item: Uuid)
    ensures FindReservation(rows + [row], source, item) ==
              if FindReservation(rows, source, item).Some? then FindReservation(rows, source, item)
              else if Matches(row, source, item) then Some(|rows|) else None
  {
    assert (rows + [row])[..|rows|] == rows;
  }

  /** Reserving the first line leaves every other line's needs as they were. */
  lemma FirstLeavesFits(
    t: Tables, c: Catalogue, source: Source, warehouse: Uuid, lines: seq<OrderLine>, line: OrderLine)
    requires lines != [] && ItemsKnown(lines) && line.item.Some?
    requires LineFits(t, c, source, warehouse, lines, lines[0])
    requires ReserveStock(t, c, Reserve(source, warehouse, lines[0].item.value, lines[0].quantity)).Done?
    ensures var t1 := ReserveStock(t, c, Reserve(source, warehouse, lines[0].item.value, lines[0].quantity)).tables;
            LineFits(t1, c, source, warehouse, lines[1..], line) <==> LineFits(t, c, source, warehouse, lines, line)
  {
    var r := Reserve(source, warehouse, lines[0].item.value, lines[0].quantity);
    if FindReservation(t.reservations, source, r.item).None? {
      FindAppended(t.reservations, Some(Reservation(source, warehouse, r.item, r.quantity, RESERVED)), source,
        line.item.value);
    }
  }

  lemma FirstReserves(t: Tables, c: Catalogue, source: Source, warehouse: Uuid, lines: seq<OrderLine>)
    requires lines != [] && ItemsKnown(lines)
    ensures ReserveStock(t, c, Reserve(source, warehouse, lines[0].item.value, lines[0].quantity)).Done? <==>
              LineFits(t, c, source, warehouse, lines, lines[0])
  {
  }

  /**
    All lines can be reserved exactly when each of them fits, for every list of lines,
    repeated items and earlier rows included.
   */
  lemma {:induction false} ReserveLinesSucceeds(
    t: Tables, c: Catalogue, scope: Scope, order: nat, warehouse: Uuid, lines: seq<OrderLine>)
    requires ItemsKnown(lines)
    ensures ReserveLines(t, c, scope, order, warehouse, lines).Done? <==>
              AllFit(t, c, OrderSource(scope, order), warehouse, lines)
    decreases |lines|
  {
    if lines != [] {
      var source := OrderSource(scope, order);
      FirstReserves(t, c, source, warehouse, lines);
      if LineFits(t, c, source, warehouse, lines, lines[0]) {
        var t1 := ReserveStock(t, c, LineRequest(scope, order, warehouse, lines[0])).tables;
        ReserveLinesSucceeds(t1, c, scope, order, warehouse, lines[1..]);
        RestFits(t, t1, c, source, warehouse, lines);
      }
    }
  }

  lemma RestFits(t: Tables, t1: Tables, c: Catalogue, source: Source, warehouse: Uuid, lines: seq<OrderLine>)
    requires lines != [] && ItemsKnown(lines) && LineFits(t, c, source, warehouse, lines, lines[0])
    requires ReserveStock(t, c, Reserve(source, warehouse, lines[0].item.value, lines[0].quantity)).Done?
    requires t1 == ReserveStock(t, c, Reserve(source, warehouse, lines[0].item.value, lines[0].quantity)).tables
    ensures AllFit(t1, c, source, warehouse, lines[1..]) <==> AllFit(t, c, source, warehouse, lines)
  {
    var rest := lines[1..];
    forall n | 0 <= n < |rest|
      ensures rest[n] == lines[n + 1]
      ensures LineFits(t1, c, source, warehouse, rest, rest[n]) <==>
        LineFits(t, c, source, warehouse, lines, lines[n + 1])
    {
      FirstLeavesFits(t, c, source, warehouse, lines, lines[n + 1]);
    }
    if AllFit(t1, c, source, warehouse, rest) {
      forall n | 0 <= n < |lines| ensures LineFits(t, c, source, warehouse, lines, lines[n]) {
        assert n > 0 ==> LineFits(t1, c, source, warehouse, rest, rest[n - 1]);
      }
    }
    if AllFit(t, c, source, warehouse, lines) {
      forall n | 0 <= n < |rest| ensures LineFits(t1, c, source, warehouse, rest, rest[n]) {
        assert LineFits(t, c, source, warehouse, lines, lines[n + 1]);
      }
    }
  }

  /** When an order can be reserved. */
  lemma ReserveOrderSucceeds(w: World, c: Catalogue, scope: Scope, id: nat)
    ensures ReserveOrder(w, c, scope, id).Made? <==>
              && OrderVisible(w, scope, id) && w.orders[id].status == CONFIRMED && w.orders[id].warehouse.Some?
              && w.orders[id].lines != [] && ItemsKnown(w.orders[id].lines)
              && AllFit(w.tables, c, OrderSource(scope, id), w.orders[id].warehouse.value, w.orders[id].lines)
  {
    if OrderVisible(w, scope, id) && w.orders[id].warehouse.Some? && ItemsKnown(w.orders[id].lines) {
      ReserveLinesSucceeds(w.tables, c, scope, id, w.orders[id].warehouse.value, w.orders[id].lines);
    }
  }

  // --------------------------------------------------------------- releasing

  /** The row a cancellation leaves in place of a row of its order. */
  function Freed(row: Option<Reservation>): Option<Reservation> {
    if row.Some? && row.value.status == RESERVED then Some(row.value.(status := RELEASED)) else row
  }

  /** The loop: rows still listed are as listed, or were released on the way. */
  lemma {:induction false} ReleaseListedEffect(t: Tables, scope: Scope, listed: seq<Option<Reservation>>, ids: seq<nat>)
    requires RowsExist(listed, ids) && Balanced(t) && |listed| == |t.reservations|
    requires forall i :: i in ids ==>
      Visible(t, scope, i) && (t.reservations[i] == listed[i] || t.reservations[i] == Freed(listed[i]))
    ensures var o := ReleaseListed(t, scope, listed, ids);
            && o.Done? && Balanced(o.tables) && o.tables.movements == t.movements
            && |o.tables.reservations| == |t.reservations|
            && forall i :: 0 <= i < |listed| ==>
                 o.tables.reservations[i] == if i in ids then Freed(listed[i]) else t.reservations[i]
    decreases |ids|
  {
    if ids != [] {
      var i := ids[0];
      assert i in ids && (forall j :: j in ids <==> j == i || j in ids[1..]);
      if listed[i].value.status != RESERVED {
        ReleaseListedEffect(t, scope, listed, ids[1..]);
      } else {
        ReleaseKeepsBalance(t, Release(scope, i));
        var first := ReleaseReservation(t, Release(scope, i));
        assert first.Done?;
        assert first.tables.reservations[i] == Freed(listed[i]);
        forall j | j in ids[1..]
          ensures Visible(first.tables, scope, j)
          ensures first.tables.reservations[j] == listed[j] || first.tables.reservations[j] == Freed(listed[j])
        {
          if j != i {
            assert first.tables.reservations[j] == t.reservations[j];
          }
        }
        ReleaseListedEffect(first.tables, scope, listed, ids[1..]);
      }
    }
  }

  /** Cancelling frees every RESERVED row of the order, touches no other row and cannot fail. */
  lemma ReleaseOrderEffect(t: Tables, scope: Scope, id: nat)
    requires Balanced(t)
    ensures var o := ReleaseOrder(t, scope, id);
            && o.Done? && Balanced(o.tables) && o.tables.movements == t.movements
            && |o.tables.reservations| == |t.reservations|
            && forall i :: 0 <= i < |t.reservations| ==>
                 o.tables.reservations[i] ==
                 if OfSource(t.reservations[i], OrderSource(scope, id)) then
                   Freed(t.reservations[i]) else t.reservations[i]
  {
    var ids := SourceRows(t.reservations, OrderSource(scope, id));
    ReleaseListedEffect(t, scope, t.reservations, ids);
    assert forall i :: 0 <= i < |t.reservations| ==>
      (i in ids <==> OfSource(t.reservations[i], OrderSource(scope, id)));
  }

  lemma {:induction false} LaterRowsClaimNothing(
    rows: seq<Option<Reservation>>, more: seq<Option<Reservation>>, k: StockKey)
    requires forall i :: 0 <= i < |more| ==> more[i].None? || more[i].value.status != RESERVED
    ensures Claimed(rows + more, k) == Claimed(rows, k)
  {
    if more == [] {
      assert rows + more == rows;
    } else {
      var n := |more| - 1;
      assert (rows + more)[..|rows + more| - 1] == rows + more[..n];
      LaterRowsClaimNothing(rows, more[..n], k);
    }
  }

  /** Rows a source gained and then freed leave every claim as it was. */
  lemma FreedRowsClaimNothing(
    rows: seq<Option<Reservation>>, rows1: seq<Option<Reservation>>, rows2: seq<Option<Reservation>>, source: Source,
      k: StockKey)
    requires rows <= rows1 && |rows2| == |rows1| && !HasRow(rows, source)
    requires forall i :: |rows| <= i < |rows1| ==> OfSource(rows1[i], source)
    requires forall i :: 0 <= i < |rows1| ==>
      rows2[i] == if OfSource(rows1[i], source) then Freed(rows1[i]) else rows1[i]
    ensures Claimed(rows2, k) == Claimed(rows, k)
  {
    var more := rows2[|rows|..];
    forall i | 0 <= i < |rows| ensures rows2[i] == rows[i] {
      assert rows1[i] == rows[i] && !OfSource(rows[i], source);
    }
    assert rows2 == rows + more;
    forall i | 0 <= i < |more| ensures more[i].None? || more[i].value.status != RESERVED {
      assert more[i] == Freed(rows1[|rows| + i]);
    }
    LaterRowsClaimNothing(rows, more, k);
  }

  /** Reserving lines and releasing the order's rows, seen on the tables alone. */
  lemma ReserveThenReleaseRestores(
    t: Tables, c: Catalogue, scope: Scope, order: nat, warehouse: Uuid, lines: seq<OrderLine>, k: StockKey)
    requires ItemsKnown(lines) && Balanced(t) && OneRowPerSource(t.reservations)
    requires !HasRow(t.reservations, OrderSource(scope, order))
    requires ReserveLines(t, c, scope, order, warehouse, lines).Done?
    ensures var o := ReleaseOrder(ReserveLines(t, c, scope, order, warehouse, lines).tables, scope, order);
            o.Done? && StockAt(o.tables.stock, k) == StockAt(t.stock, k)
  {
    ReserveLinesEffect(t, c, scope, order, warehouse, lines);
    var t1 := ReserveLines(t, c, scope, order, warehouse, lines).tables;
    ReleaseOrderEffect(t1, scope, order);
    var t2 := ReleaseOrder(t1, scope, order).tables;
    FreedRowsClaimNothing(t.reservations, t1.reservations, t2.reservations, OrderSource(scope, order), k);
    assert BalancedAt(t, k) && BalancedAt(t2, k);
  }

  /**
    Reserve then cancel, for an order that had no rows: the cancellation goes through and
    every stock row is back at its on-hand and reserved quantities, also for an order
    that repeats an item.
   */
  lemma ReserveThenCancelRestores(w: World, c: Catalogue, scope: Scope, id: nat)
    requires Balanced(w.tables) && OneRowPerSource(w.tables.reservations)
    requires !HasRow(w.tables.reservations, OrderSource(scope, id))
    requires ReserveOrder(w, c, scope, id).Made?
    ensures var w1 := ReserveOrder(w, c, scope, id).world;
            var end := MoveOrder(w1, scope, id, OrderStatus.CANCELLED, w1.orders[id].version);
            && end.Made?
            && end.world.orders[id] == w.orders[id].(status := OrderStatus.CANCELLED, reserved := false,
                                                     version := w.orders[id].version + 3)
            && forall k :: StockAt(end.world.tables.stock, k) == StockAt(w.tables.stock, k)
  {
    var o := w.orders[id];
    forall k
      ensures ReleaseOrder(ReserveOrder(w, c, scope, id).world.tables, scope, id).Done?
      ensures StockAt(ReleaseOrder(ReserveOrder(w, c, scope, id).world.tables, scope, id).tables.stock, k)
           == StockAt(w.tables.stock, k)
    {
      ReserveThenReleaseRestores(w.tables, c, scope, id, o.warehouse.value, o.lines, k);
    }
    assert ReserveOrder(w, c, scope, id).world.orders[id] == o.(reserved := true, version := o.version + 1);
  }

  /**
    After any successful cancellation of an order marked reserved, whatever happened in
    between, the order claims nothing: none of its rows is RESERVED.
   */
  lemma CancelledOrderClaimsNothing(w: World, scope: Scope, id: nat, expected: int)
    requires Balanced(w.tables) && OrderVisible(w, scope, id) && w.orders[id].reserved
    requires MoveOrder(w, scope, id, OrderStatus.CANCELLED, expected).Made?
    ensures var rows := MoveOrder(w, scope, id, OrderStatus.CANCELLED, expected).world.tables.reservations;
            && |rows| == |w.tables.reservations|
            && forall i :: 0 <= i < |rows| ==>
                 && (OfSource(rows[i], OrderSource(scope, id)) ==> rows[i].value.status != RESERVED)
                 && (!OfSource(rows[i], OrderSource(scope, id)) ==> rows[i] == w.tables.reservations[i])
  {
    ReleaseOrderEffect(w.tables, scope, id);
    var rows := MoveOrder(w, scope, id, OrderStatus.CANCELLED, expected).world.tables.reservations;
    forall i | 0 <= i < |rows|
      ensures OfSource(rows[i], OrderSource(scope, id)) <==> OfSource(w.tables.reservations[i], OrderSource(scope, id))
    {
    }
  }
}
