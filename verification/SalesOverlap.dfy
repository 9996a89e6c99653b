/**
  Sales calls that do harm: exactly when their last update does, and runs in which it does.  Of the
  three conditions on orders' runs each is broken by one such run, which keeps to the other two.
 */
module SalesOverlap {
  import opened Wrappers
  import opened InventoryTables
  import opened InventorySpec
  import opened InventoryBySource
  import opened SalesSpec
  import opened SalesDeliveries
  import opened SalesRows
  import opened SalesConcurrency
  import opened SalesSafety
  import opened SalesOrdersSafety
  import opened SalesInterleaving
  import opened SalesRuns
  import opened InventorySolo
  import I = InventoryConcurrency

  // --------------------------------------------------- exactly when they do harm

  /**
    A delivery's last update that finds the version it asks for changes the row whatever its
    status has become.  The change is legal exactly when the transitions allow it from that
    status; when the row has changed at all, the version asked for was above the one read.
   */
  lemma LateDeliveryExactly(s: Sales, t: TxId, seen: Delivery)
    requires t in s.txs && t in s.inventory.txs && s.inventory.txs[t].calls == [] && s.txs[t].call.MovingDelivery?
    requires (s.txs[t].stage == LinesSeen(seen) && s.txs[t].call.to != COMPLETED)
          || (s.txs[t].stage.Issuing? && s.txs[t].stage.seen == seen)
    requires Read(s, s.txs[t].call, seen, false) && Checked(s.txs[t].call, seen)
    requires FreeIn(s.deliveryLocks, t, s.txs[t].call.delivery)
    requires s.deliveries[s.txs[t].call.delivery].value.version == s.txs[t].call.expected
    ensures var c, now := s.txs[t].call, s.deliveries[s.txs[t].call.delivery].value;
            && Twice(s, t).deliveries
               == s.deliveries[c.delivery := Some(now.(status := c.to, version := now.version + 1))]
            && (LegalChange(now, Twice(s, t).deliveries[c.delivery].value) <==> DeliveryMoves(now.status, c.to))
            && (now != seen ==> c.expected > seen.version)
  {
    var c, now := s.txs[t].call, s.deliveries[s.txs[t].call.delivery].value;
    var s1 := Happen(s, Advance(t));
    assert s1 == WriteDelivery(s, t, c.delivery, now.(status := c.to, version := now.version + 1));
    assert Happen(s1, Advance(t)) == CommitStep(s1, t);
  }

  /**
    The same of an order's transition that releases nothing.  A cancellation leaves the order right
    exactly when the order is not marked reserved by then; and when the order has changed at all,
    the version asked for was above the one read.
   */
  lemma LateOrderExactly(s: Sales, t: TxId, o: Order)
    requires t in s.txs && t in s.inventory.txs && s.inventory.txs[t].calls == [] && s.inventory.txs[t].rows == map[]
    requires s.txs[t].call.MovingOrder? && s.txs[t].stage == OrderSeen(o) && s.txs[t].order.None?
    requires s.txs[t].delivery.None?
    requires !(s.txs[t].call.orderTo == OrderStatus.CANCELLED && o.reserved)
    requires s.txs[t].call.order < |s.orders| && LaterOrder(o, s.orders[s.txs[t].call.order])
    requires FreeIn(s.orderLocks, t, s.txs[t].call.order) && !s.orders[s.txs[t].call.order].deleted
    requires s.orders[s.txs[t].call.order].version == s.txs[t].call.expected
    requires OrderOk(Committed(s), s.orders[s.txs[t].call.order], s.txs[t].call.order)
    ensures var c, now, s2 := s.txs[t].call, s.orders[s.txs[t].call.order], Twice(s, t);
            && s2.orders == s.orders[c.order := now.(status := c.orderTo, version := now.version + 1)]
            && Committed(s2) == Committed(s)
            && (c.orderTo == OrderStatus.CANCELLED ==>
                  (OrderOk(Committed(s2), s2.orders[c.order], c.order) <==> !now.reserved))
            && (now != o ==> c.expected > o.version)
  {
    var c, now := s.txs[t].call, s.orders[s.txs[t].call.order];
    var row := now.(status := c.orderTo, version := now.version + 1);
    var s1 := Happen(s, Advance(t));
    assert s1 == WriteOrder(s, t, c.order, row, Written);
    assert Happen(s1, Advance(t)) == CommitStep(s1, t);
    assert Committed(Twice(s, t)) == Committed(s);
  }

  /** In the view that gets committed the source claims nothing exactly when all it claimed has been freed. */
  lemma ClaimlessExactly(s: Sales, t: TxId, source: Source)
    requires t in s.txs && t in s.inventory.txs && s.txs[t].call.MovingOrder? && source == SourceOf(s.txs[t].call)
    requires Owns(s, t) && OnlyStatusMoves(Committed(s), RowsSeen(s, t)) && s.inventory.txs[t].calls == []
    ensures Claimless(RowsSeen(s, t), source) <==> FreeableNow(s, t)
  {
    if FreeableNow(s, t) {
      CancelledClaimless(s, t, source);
    }
    if Claimless(RowsSeen(s, t), source) {
      forall i | 0 <= i < |Committed(s)| && Claims(Committed(s)[i], source) ensures NotReserved(RowsSeen(s, t), i) {
        assert !Claims(RowsSeen(s, t)[i], source);
      }
    }
  }

  /**
    A cancellation that has released what it listed, at its last update.  It leaves the order right
    exactly when every row the order claims by then is among those it freed; and when the order
    has changed since it was read, the version asked for was above the one read.
   */
  lemma LateReleaseExactly(s: Sales, t: TxId, o: Order)
    requires t in s.txs && t in s.inventory.txs && s.inventory.txs[t].calls == [] && s.txs[t].call.MovingOrder?
    requires s.txs[t].stage == Freed(o) && s.txs[t].call.orderTo == OrderStatus.CANCELLED && s.txs[t].delivery.None?
    requires s.txs[t].call.order < |s.orders| && LaterOrder(o, s.orders[s.txs[t].call.order])
    requires var now := s.orders[s.txs[t].call.order];
             && s.txs[t].order == Some(now.(reserved := false, version := now.version + 1)) && !now.deleted
             && now.version == s.txs[t].call.expected && now.scope == s.txs[t].call.scope
    requires HoldsIn(s.orderLocks, t, s.txs[t].call.order)
    requires Owns(s, t) && OnlyStatusMoves(Committed(s), RowsSeen(s, t))
    ensures var c, now, s2 := s.txs[t].call, s.orders[s.txs[t].call.order], Twice(s, t);
            && s2.orders == s.orders[c.order :=
                 now.(reserved := false, status := OrderStatus.CANCELLED, version := now.version + 2)]
            && Committed(s2) == RowsSeen(s, t)
            && (OrderOk(Committed(s2), s2.orders[c.order], c.order) <==> FreeableNow(s, t))
            && (now != o ==> c.expected > o.version)
  {
    hide FreeableNow, Owns, OnlyStatusMoves;
    var c, now := s.txs[t].call, s.orders[s.txs[t].call.order];
    ClaimlessExactly(s, t, SourceOf(c));
    var row := s.txs[t].order.value.(status := OrderStatus.CANCELLED, version := now.version + 2);
    var s1 := Happen(s, Advance(t));
    assert s1 == WriteOrder(s, t, c.order, row, Written);
    assert Happen(s1, Advance(t)) == CommitStep(s1, t);
  }

  /**
    A reserve marks whatever the order has become: it leaves a CANCELLED order marked reserved
    exactly when it was cancelled by then.
   */
  lemma LateMarkExactly(s: Sales, t: TxId)
    requires t in s.txs && t in s.inventory.txs && s.inventory.txs[t].calls == []
    requires s.txs[t].call.Reserving? && s.txs[t].stage.OrderSeen? && s.txs[t].order.None? && s.txs[t].delivery.None?
    requires s.txs[t].call.order < |s.orders| && !s.orders[s.txs[t].call.order].deleted
    requires FreeIn(s.orderLocks, t, s.txs[t].call.order)
    ensures var id, s2 := s.txs[t].call.order, Twice(s, t);
            && s2.orders == s.orders[id := s.orders[id].(reserved := true, version := s.orders[id].version + 1)]
            && Committed(s2) == RowsSeen(s, t)
            && (OrderOk(Committed(s2), s2.orders[id], id) <==> s.orders[id].status != OrderStatus.CANCELLED)
  {
    var id := s.txs[t].call.order;
    var row := s.orders[id].(reserved := true, version := s.orders[id].version + 1);
    var s1 := Happen(s, Advance(t));
    assert s1 == WriteOrder(s, t, id, row, Written);
    assert Happen(s1, Advance(t)) == CommitStep(s1, t);
  }

  // ------------------------------------------------------------- runs that do

  /** After the catalogue has become this one, the first transaction begins. */
  lemma SceneStarts(w: World, rule: Rule, c: TxId, u: TxId, call: Call, cat: Catalogue) returns (a: Scene, s: Sales)
    requires Honest(w) && c != u && !call.Creating?
    ensures a == Scene(From(w), rule, c, Fresh(call), u, cat)
    ensures Sound(a) && Rests(a, s, w.tables) && s.orders == w.orders
  {
    hide SalesInv, Leads, Honest;
    a := Scene(From(w), rule, c, Fresh(call), u, cat);
    FromHonest(w, ANYONE);
    LeadsNowhere(From(w), rule);
    var e := Inventory(I.Recatalogue(cat));
    var s0 := From(w).(inventory := I.System(w.tables, cat, map[], map[]));
    LeadsOn(From(w), rule, From(w), e, s0);
    s := Happen(s0, Start(c, call));
    LeadsOn(From(w), rule, s0, Start(c, call), s);
  }

  /** The one line of the order can be reserved, and the order has no row of its item. */
  ghost predicate OneLineFits(k: Tables, cat: Catalogue, r: Request) {
    && r.Reserve? && r.quantity > 0 && FindReservation(k.reservations, r.source, r.item).None?
    && CheckCatalogue(cat, r.source.scope.tenant, r.warehouse, r.item).None?
    && I.CallKey(r) in k.stock && k.stock[I.CallKey(r)].onHand - k.stock[I.CallKey(r)].reserved >= r.quantity
  }

  function Made(r: Request): Reservation
    requires r.Reserve?
  {
    Reservation(r.source, r.warehouse, r.item, r.quantity, RESERVED)
  }

  /** The seven statements of a reservation that goes through. */
  lemma ReserveStatements(a: Scene, s: Sales, utx: SalesTx, k: Tables, r: Request) returns (s': Sales, tx': I.Tx)
    requires Sound(a) && !utx.stage.Begun? && Runs(a, s, utx, k, NOTHING.(calls := [r]))
    requires OneLineFits(k, a.catalogue, r)
    ensures Runs(a, s', utx, k.(reservations := k.reservations + [None]), tx')
    ensures s'.orders == s.orders && s'.deliveries == s.deliveries && tx'.calls == []
    ensures tx'.rows == map[|k.reservations| := Made(r)]
  {
    hide Sound, Leads, Pair, At;
    var row := k.stock[I.CallKey(r)];
    var tx := NOTHING.(calls := [r]);
    ViewOfNothing(k, tx);
    InnerAt(a, s, utx, k, tx);
    ReserveLooks(s.inventory, a.runner, k, a.catalogue, tx);
    var s1 := Inner(a, s, utx, k, tx, k, tx.(pc := I.Looked));
    InnerAt(a, s1, utx, k, tx.(pc := I.Looked));
    Admits(s1.inventory, a.runner, k, a.catalogue, tx.(pc := I.Looked));
    var s2 := Inner(a, s1, utx, k, tx.(pc := I.Looked), k, tx.(pc := I.Admitted));
    ViewOfNothing(k, tx.(pc := I.Admitted));
    InnerAt(a, s2, utx, k, tx.(pc := I.Admitted));
    Ensures(s2.inventory, a.runner, k, a.catalogue, tx.(pc := I.Admitted));
    var s3 := Inner(a, s2, utx, k, tx.(pc := I.Admitted), k, tx.(pc := I.Ensured));
    ViewOfNothing(k, tx.(pc := I.Ensured));
    InnerAt(a, s3, utx, k, tx.(pc := I.Ensured));
    ReserveLocks(s3.inventory, a.runner, k, a.catalogue, tx.(pc := I.Ensured));
    var s4 := Inner(a, s3, utx, k, tx.(pc := I.Ensured), k, tx.(pc := I.StockLocked(row)));
    s', tx' := ReserveSecondHalf(a, s4, utx, k, r);
  }

  lemma ReserveSecondHalf(a: Scene, s: Sales, utx: SalesTx, k: Tables, r: Request) returns (s': Sales, tx': I.Tx)
    requires Sound(a) && !utx.stage.Begun? && OneLineFits(k, a.catalogue, r)
    requires Runs(a, s, utx, k, NOTHING.(calls := [r], pc := I.StockLocked(k.stock[I.CallKey(r)])))
    ensures Runs(a, s', utx, k.(reservations := k.reservations + [None]), tx')
    ensures s'.orders == s.orders && s'.deliveries == s.deliveries && tx'.calls == []
    ensures tx'.rows == map[|k.reservations| := Made(r)]
  {
    hide Sound, Leads, Pair, At;
    var key, row := I.CallKey(r), k.stock[I.CallKey(r)];
    var row' := StockRow(row.onHand, row.reserved + r.quantity);
    var tx := NOTHING.(calls := [r], pc := I.StockLocked(row));
    ViewOfNothing(k, tx);
    InnerAt(a, s, utx, k, tx);
    ReserveLooksAgain(s.inventory, a.runner, k, a.catalogue, tx, row);
    var tx1 := tx.(pc := I.LookedAgain(row));
    var s1 := Inner(a, s, utx, k, tx, k, tx1);
    ViewOfNothing(k, tx1);
    InnerAt(a, s1, utx, k, tx1);
    ReserveCounts(s1.inventory, a.runner, k, a.catalogue, tx1, key, row, row');
    var tx2 := tx1.(pc := I.Counted, stock := tx1.stock[key := row']);
    var s2 := Inner(a, s1, utx, k, tx1, k, tx2);
    InnerAt(a, s2, utx, k, tx2);
    ReserveInserts(s2.inventory, a.runner, k, a.catalogue, tx2);
    tx' := I.Finished(tx2.(rows := tx2.rows[|k.reservations| := Made(r)]));
    s' := Inner(a, s2, utx, k, tx2, k.(reservations := k.reservations + [None]), tx');
  }

  /** A confirmed order of one line, not marked reserved, that can be reserved now. */
  ghost predicate OneLineOrder(w: World, scope: Scope, id: nat, cat: Catalogue) {
    && OrderVisible(w, scope, id) && w.orders[id].version >= 1 && !w.orders[id].reserved && CanReserve(w.orders[id])
    && |w.orders[id].lines| == 1
    && OneLineFits(w.tables, cat, LineRequest(scope, id, w.orders[id].warehouse.value, w.orders[id].lines[0]))
  }

  function ReserveSeen(scope: Scope, id: nat, o: Order): SalesTx {
    SalesTx(Reserving(scope, id), OrderSeen(o), None, None)
  }

  /** A reserve of such an order, up to the point where its calls are done. */
  lemma ReserveUpToMark(a: Scene, s: Sales, w: World, scope: Scope, id: nat) returns (s': Sales, k': Tables, tx': I.Tx)
    requires Sound(a) && Rests(a, s, w.tables) && s.orders == w.orders && OneLineOrder(w, scope, id, a.catalogue)
    ensures Runs(a, s', ReserveSeen(scope, id, w.orders[id]), k', tx') && s'.orders == s.orders && tx'.calls == []
    ensures |k'.reservations| == |w.tables.reservations| + 1 && |w.tables.reservations| in tx'.rows
    ensures Claims(Some(tx'.rows[|w.tables.reservations|]), OrderSource(scope, id))
  {
    hide Sound, Runs, Rests, OneLineFits;
    var o, k := w.orders[id], w.tables;
    var r := LineRequest(scope, id, o.warehouse.value, o.lines[0]);
    var s2 := ReserveReads(a, s, scope, id, o, k, r);
    k' := k.(reservations := k.reservations + [None]);
    s', tx' := ReserveStatements(a, s2, ReserveSeen(scope, id, o), k, r);
  }

  /** A reserve that has read an order of one line. */
  lemma ReserveReads(a: Scene, s: Sales, scope: Scope, id: nat, o: Order, k: Tables, r: Request) returns (s': Sales)
    requires Sound(a) && Rests(a, s, k) && OrderShown(s, scope, id)
    requires s.orders[id] == o && CanReserve(o) && |o.lines| == 1
    requires r == LineRequest(scope, id, o.warehouse.value, o.lines[0])
    ensures Runs(a, s', ReserveSeen(scope, id, o), k, NOTHING.(calls := [r])) && s'.orders == s.orders
  {
    hide SalesInv, Leads;
    var s1 := RunnerStarts(a, s, Reserving(scope, id), k);
    var calls := LineRequests(scope, id, o.warehouse.value, o.lines);
    assert calls == [r];
    s' := To(s1, a.runner, OrderSeen(o)).(inventory := WithCalls(s1.inventory, a.runner, calls));
    assert s' == Happen(s1, Advance(a.runner));
    LeadsOn(a.from, a.rule, s1, Advance(a.runner), s');
  }

  /** The mark and the commit of a reserve whose calls are done. */
  lemma MarkAndCommit(a: Scene, s: Sales, scope: Scope, id: nat, o: Order, k: Tables, tx: I.Tx)
    requires Sound(a) && Runs(a, s, ReserveSeen(scope, id, o), k, tx) && tx.calls == []
    requires id < |s.orders| && !s.orders[id].deleted && s.orders[id].status != OrderStatus.CANCELLED
    ensures Rests(a, Twice(s, a.runner), I.View(k, tx))
    ensures Twice(s, a.runner).orders
         == s.orders[id := s.orders[id].(reserved := true, version := s.orders[id].version + 1)]
  {
    hide SalesInv, Leads;
    var u := a.runner;
    var s1 := WriteOrder(s, u, id, s.orders[id].(reserved := true, version := s.orders[id].version + 1), Written);
    assert s1 == Happen(s, Advance(u));
    LeadsOn(a.from, a.rule, s, Advance(u), s1);
    LeadsOn(a.from, a.rule, s1, Advance(u), Happen(s1, Advance(u)));
    assert Happen(s1, Advance(u)) == CommitStep(s1, u);
    CommitLeavesWaiting(s1.inventory, a.waiting, u, k, a.catalogue, tx);
    assert s1.txs - {u} == map[a.waiting := a.waits];
  }

  ghost predicate CancelledWithRow(s: Sales, scope: Scope, id: nat) {
    && id < |s.orders| && s.orders[id].status == OrderStatus.CANCELLED && s.orders[id].reserved
    && exists i :: 0 <= i < |Committed(s)| && Claims(Committed(s)[i], OrderSource(scope, id))
  }

  lemma RowCommitted(k: Tables, tx: I.Tx, i: nat, source: Source)
    requires i < |k.reservations| && i in tx.rows && Claims(Some(tx.rows[i]), source)
    ensures i < |I.View(k, tx).reservations| && Claims(I.View(k, tx).reservations[i], source)
  {
  }

  function CancelSeen(scope: Scope, id: nat, expected: int, o: Order): SalesTx {
    SalesTx(MovingOrder(scope, id, OrderStatus.CANCELLED, expected), OrderSeen(o), None, None)
  }

  /** The cancellation reads the order and waits. */
  lemma CancelReads(a: Scene, s: Sales, scope: Scope, id: nat, expected: int, k: Tables) returns (b: Scene, s': Sales)
    requires Sound(a) && Rests(a, s, k) && expected >= 1 && OrderShown(s, scope, id) && s.orders[id].status == CONFIRMED
    requires a.waits == Fresh(MovingOrder(scope, id, OrderStatus.CANCELLED, expected))
    requires a.waiting in a.rule.late || expected <= s.orders[id].version
    ensures b == a.(waits := CancelSeen(scope, id, expected, s.orders[id])) && Sound(b) && Rests(b, s', k)
    ensures s'.orders == s.orders
  {
    hide SalesInv, Leads;
    b := a.(waits := CancelSeen(scope, id, expected, s.orders[id]));
    s' := Happen(s, Advance(a.waiting));
    LeadsOn(a.from, a.rule, s, Advance(a.waiting), s');
  }

  /** The waiting cancellation finds the version it asks for, whatever has become of the order. */
  lemma CancelGoesThrough(a: Scene, s: Sales, scope: Scope, id: nat, o: Order, k: Tables, i: nat)
    requires Sound(a) && Rests(a, s, k) && a.waits == CancelSeen(scope, id, o.version + 1, o)
    requires id < |s.orders| && s.orders[id] == o.(reserved := true, version := o.version + 1)
    requires o.status == CONFIRMED && !o.reserved && !o.deleted
    requires i < |k.reservations| && Claims(k.reservations[i], OrderSource(scope, id))
    ensures Leads(a.from, a.rule, Twice(s, a.waiting)) && CancelledWithRow(Twice(s, a.waiting), scope, id)
  {
    hide SalesInv, Leads;
    var c := a.waiting;
    LateOrderExactly(s, c, o);
    LeadsOn(a.from, a.rule, s, Advance(c), Happen(s, Advance(c)));
    assert Happen(s, Advance(c)).txs[c].call == a.waits.call && Happen(s, Advance(c)).txs[c].stage.Written?;
    LeadsOn(a.from, a.rule, Happen(s, Advance(c)), Advance(c), Twice(s, c));
    assert Claims(Committed(Twice(s, c))[i], OrderSource(scope, id));
  }

  /**
    In every honest world with a confirmed order of one line that can be reserved: a cancellation
    that asks for the next version and reads first goes through after the reserve, and leaves
    a CANCELLED order with a RESERVED row.  The run breaks no other condition.
   */
  lemma CancelOverridesReserve(w: World, c: TxId, scope: Scope, id: nat, cat: Catalogue) returns (end: Sales)
    requires Honest(w) && OneLineOrder(w, scope, id, cat)
    ensures Leads(From(w), Rule(iset{c}, true, true), end) && CancelledWithRow(end, scope, id)
  {
    hide Sound, Leads, Waits, Runs, Happen, OneLineFits, CancelledWithRow;
    var rule, o, i := Rule(iset{c}, true, true), w.orders[id], |w.tables.reservations|;
    var call := MovingOrder(scope, id, OrderStatus.CANCELLED, o.version + 1);
    var b, s0 := SceneStarts(w, rule, c, c + 1, call, cat);
    var a, s1 := CancelReads(b, s0, scope, id, o.version + 1, w.tables);
    var s2, k, tx := ReserveUpToMark(a, s1, w, scope, id);
    RowCommitted(k, tx, i, OrderSource(scope, id));
    MarkAndCommit(a, s2, scope, id, o, k, tx);
    CancelGoesThrough(a, Twice(s2, a.runner), scope, id, o, I.View(k, tx), i);
    end := Twice(Twice(s2, a.runner), c);
  }

  /** A whole cancellation of an unreserved order, while a reserve of it is at work. */
  lemma CancelInBetween(a: Scene, s: Sales, scope: Scope, id: nat, o: Order, k: Tables, tx: I.Tx) returns (s': Sales)
    requires Sound(a) && Runs(a, s, ReserveSeen(scope, id, o), k, tx) && OrderShown(s, scope, id) && s.orders[id] == o
    requires o.status == CONFIRMED && !o.reserved && o.version >= 1
    requires a.waits == Fresh(MovingOrder(scope, id, OrderStatus.CANCELLED, o.version))
    ensures Leads(a.from, a.rule, s')
    ensures s' == s.(orders := s.orders[id := o.(status := OrderStatus.CANCELLED, version := o.version + 1)],
                     txs := map[a.runner := ReserveSeen(scope, id, o)],
                     inventory := s.inventory.(txs := map[a.runner := tx]))
  {
    hide SalesInv, Leads;
    var c := a.waiting;
    var s1 := To(s, c, OrderSeen(o));
    assert s1 == Happen(s, Advance(c));
    LeadsOn(a.from, a.rule, s, Advance(c), s1);
    var row := o.(status := OrderStatus.CANCELLED, version := o.version + 1);
    var s2 := WriteOrder(s1, c, id, row, Written);
    assert s2 == Happen(s1, Advance(c));
    assert s1.txs[c].stage.OrderSeen? && s1.txs[c].call.MovingOrder?;
    LeadsOn(a.from, a.rule, s1, Advance(c), s2);
    s' := CancelCommits(a, s1, s2, scope, id, o, k, tx);
  }

  lemma CancelCommits(a: Scene, s1: Sales, s2: Sales, scope: Scope, id: nat, o: Order, k: Tables, tx: I.Tx)
    returns (s': Sales)
    requires a.waiting != a.runner && Leads(a.from, a.rule, s2) && id < |s1.orders|
    requires s1.txs == map[a.waiting := CancelSeen(scope, id, o.version, o), a.runner := ReserveSeen(scope, id, o)]
    requires s1.inventory.txs == map[a.waiting := NOTHING, a.runner := tx]
    requires At(s1.inventory, a.runner, k, a.catalogue, tx)
    requires s1.orderLocks == map[] && s1.deliveryLocks == map[]
    requires var row := o.(status := OrderStatus.CANCELLED, version := o.version + 1);
             s2 == WriteOrder(s1, a.waiting, id, row, Written)
    ensures Leads(a.from, a.rule, s')
    ensures s' == s1.(orders := s1.orders[id := o.(status := OrderStatus.CANCELLED, version := o.version + 1)],
                      txs := map[a.runner := ReserveSeen(scope, id, o)],
                      inventory := s1.inventory.(txs := map[a.runner := tx]))
  {
    hide Leads, At;
    var c := a.waiting;
    s' := CommitStep(s2, c);
    assert s' == Happen(s2, Advance(c));
    LeadsOn(a.from, a.rule, s2, Advance(c), s');
    NothingCommitted(s2.inventory, c, a.runner, k, a.catalogue, tx);
    assert s2.txs - {c} == map[a.runner := ReserveSeen(scope, id, o)];
  }

  lemma NothingCommitted(v: I.System, c: TxId, u: TxId, k: Tables, cat: Catalogue, tx: I.Tx)
    requires c != u && v.txs == map[c := NOTHING, u := tx] && At(v, u, k, cat, tx)
    ensures I.Commit(v, c) == v.(txs := map[u := tx])
  {
    ViewOfNothing(k, NOTHING);
    assert v.txs - {c} == map[u := tx];
    assert (map l | l in v.locks && v.locks[l] != c :: v.locks[l]) == v.locks;
  }

  /** The mark of an order that is CANCELLED by then, and the commit. */
  lemma MarkAfterCancel(from: Sales, rule: Rule, s: Sales, u: TxId, scope: Scope, id: nat, o: Order, tx: I.Tx, i: nat)
    requires Leads(from, rule, s) && !rule.freshMarks
    requires s.txs == map[u := ReserveSeen(scope, id, o)] && s.inventory.txs == map[u := tx] && tx.calls == []
    requires s.orderLocks == map[] && s.deliveryLocks == map[]
    requires id < |s.orders| && !s.orders[id].deleted && s.orders[id].status == OrderStatus.CANCELLED
    requires i < |Committed(s)| && i in tx.rows && Claims(Some(tx.rows[i]), OrderSource(scope, id))
    ensures Leads(from, rule, Twice(s, u)) && CancelledWithRow(Twice(s, u), scope, id)
  {
    hide Leads;
    LateMarkExactly(s, u);
    RowCommitted(s.inventory.committed, tx, i, OrderSource(scope, id));
    LeadsOn(from, rule, s, Advance(u), Happen(s, Advance(u)));
    assert Happen(s, Advance(u)).txs[u].call == Reserving(scope, id) && Happen(s, Advance(u)).txs[u].stage.Written?;
    LeadsOn(from, rule, Happen(s, Advance(u)), Advance(u), Twice(s, u));
    assert Claims(Committed(Twice(s, u))[i], OrderSource(scope, id));
  }

  /**
    With every expected version honest: in the same worlds a reserve that has read the order
    before a cancellation commits marks it afterwards, and leaves a CANCELLED order with a
    RESERVED row.
   */
  lemma ReserveOverridesCancel(w: World, scope: Scope, id: nat, cat: Catalogue) returns (end: Sales)
    requires Honest(w) && OneLineOrder(w, scope, id, cat)
    ensures Leads(From(w), Rule(NO_ONE, false, true), end) && CancelledWithRow(end, scope, id)
  {
    hide Sound, Leads, Waits, Happen, OneLineFits, CancelledWithRow;
    var rule, o, i := Rule(NO_ONE, false, true), w.orders[id], |w.tables.reservations|;
    var call := MovingOrder(scope, id, OrderStatus.CANCELLED, o.version);
    var a, s1 := SceneStarts(w, rule, 0, 1, call, cat);
    var s2, k, tx := ReserveUpToMark(a, s1, w, scope, id);
    var s3 := CancelInBetween(a, s2, scope, id, o, k, tx);
    MarkAfterCancel(From(w), rule, s3, a.runner, scope, id, o, tx, i);
    end := Twice(s3, a.runner);
  }
}
