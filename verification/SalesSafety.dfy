/**
  Every interleaving keeps deliveries honest: a COMPLETED delivery's rows are FULFILLED.

  A completion reads a delivery that is a draft no more, so its lines stay; they refer to
  rows that were committed before, so the listing has them; and each listed row is issued
  in the completion's own view before the delivery's last update.
 */
module SalesSafety {
  import opened Wrappers
  import opened InventoryTables
  import opened InventorySpec
  import opened InventoryBySource
  import opened SalesSpec
  import opened SalesDeliveries
  import opened SalesRows
  import opened SalesConcurrency
  import I = InventoryConcurrency
  import Safety = InventorySafety
  import Interleaving = InventoryInterleaving

  // -------------------------------------------------------------- invariant

  /** A delivery's row never goes back: versions grow, and what is a draft no more keeps its lines. */
  predicate Later(a: Delivery, b: Delivery) {
    && a.version <= b.version && (a.version == b.version ==> b == a)
    && b.scope == a.scope && b.order == a.order
    && (a.status != DeliveryStatus.DRAFT ==> b.status != DeliveryStatus.DRAFT && b.lines == a.lines)
  }

  /** What a row may be replaced by: a draft by a draft, and otherwise as the transitions allow. */
  predicate Legal(from: DeliveryStatus, to: DeliveryStatus) {
    (from == DeliveryStatus.DRAFT && to == from) || DeliveryMoves(from, to)
  }

  function Committed(s: Sales): seq<Option<Reservation>> { s.inventory.committed.reservations }

  predicate Past(d: Option<Delivery>) { d.Some? && d.value.status != DeliveryStatus.DRAFT }

  /** A row this transaction has written: locked, and fit to be committed with its view. */
  ghost predicate OwnDelivery(s: Sales, t: TxId, timely: bool)
    requires t in s.txs && t in s.inventory.txs
  {
    s.txs[t].delivery.Some? ==>
      var (d, row) := s.txs[t].delivery.value;
      && d < |s.deliveries| && HoldsIn(s.deliveryLocks, t, d)
      && OwnReferences(Committed(s), row)
      && (row.status == COMPLETED ==>
            IssuedReferences(RowsSeen(s, t), row) && AllRefer(row.lines) && Past(s.deliveries[d]))
      && (s.deliveries[d].Some? ==>
            && Later(s.deliveries[d].value, row) && row.version == s.deliveries[d].value.version + 1
            && (timely ==> Legal(s.deliveries[d].value.status, row.status)))
  }

  /** The delivery opened is of the order named; an own row is a new one. */
  predicate Names(s: Sales, tx: SalesTx, d: nat, scope: Scope, order: nat) {
    var now := DeliveryNow(s, tx, d);
    && (tx.delivery.Some? ==> tx.delivery.value.0 < |s.deliveries| && s.deliveries[tx.delivery.value.0].None?)
    && d < |s.deliveries| && now.Some? && now.value.scope == scope && now.value.order == order
  }

  ghost predicate AllOf(rows: seq<Option<Reservation>>, lines: seq<DeliveryLine>, source: Source) {
    forall n :: 0 <= n < |lines| ==> lines[n].reservation.Some? && RowOf(rows, lines[n].reservation.value, source)
  }

  /** What was read of a delivery, against the committed row now. */
  predicate Read(s: Sales, c: Call, seen: Delivery, timely: bool)
    requires c.MovingDelivery?
  {
    && c.delivery < |s.deliveries| && s.deliveries[c.delivery].Some? && Later(seen, s.deliveries[c.delivery].value)
    && seen.scope == c.scope && (timely ==> c.expected <= seen.version)
  }

  predicate Checked(c: Call, seen: Delivery)
    requires c.MovingDelivery?
  {
    DeliveryMoves(seen.status, c.to) && (c.to == COMPLETED ==> AllRefer(seen.lines))
  }

  ghost predicate Covered(lines: seq<DeliveryLine>, ids: seq<nat>) {
    forall n :: 0 <= n < |lines| ==> lines[n].reservation.Some? && lines[n].reservation.value in ids
  }

  function IssueCall(c: Call, i: nat): Request
    requires c.MovingDelivery?
  {
    Fulfil(c.scope, i, RowKey(DeliveryKey(c.delivery), i))
  }

  /** Each listed row is FULFILLED in the view or its call is still to come. */
  ghost predicate Progress(rows: seq<Option<Reservation>>, calls: seq<Request>, c: Call, ids: seq<nat>)
    requires c.MovingDelivery?
  {
    forall i :: i in ids ==> Fulfilled(rows, i) || IssueCall(c, i) in calls
  }

  ghost predicate MovingKnows(s: Sales, t: TxId, timely: bool)
    requires t in s.txs && t in s.inventory.txs && s.txs[t].call.MovingDelivery?
  {
    var c := s.txs[t].call;
    && (!s.txs[t].stage.Written? ==> s.txs[t].delivery.None?)
    && match s.txs[t].stage
       case HeadSeen(head) => Read(s, c, head, timely)
       case LinesSeen(seen) => Read(s, c, seen, timely) && Checked(c, seen)
       case Locking(seen, ids, _) =>
         && c.to == COMPLETED && Read(s, c, seen, timely) && Checked(c, seen) && Covered(seen.lines, ids)
         && forall i :: i in ids ==> i < |Committed(s)|
       case Issuing(seen, ids) =>
         && c.to == COMPLETED && Read(s, c, seen, timely) && Checked(c, seen) && Covered(seen.lines, ids)
         && Progress(RowsSeen(s, t), s.inventory.txs[t].calls, c, ids)
       case _ => true
  }

  ghost predicate CreatingKnows(s: Sales, t: TxId)
    requires t in s.txs && t in s.inventory.txs && s.txs[t].call.Creating?
  {
    var tx, c := s.txs[t], s.txs[t].call;
    && s.inventory.txs[t].calls == [] && s.inventory.txs[t].rows == map[]
    && match tx.stage
       case Begun => tx.delivery.None?
       case Opened(d, _) => Names(s, tx, d, c.scope, c.order)
       case Linking(d, linked) =>
         Names(s, tx, d, c.scope, c.order) && AllOf(Committed(s), linked, OrderSource(c.scope, c.order))
       case _ => true
  }

  ghost predicate Knows(s: Sales, t: TxId, timely: bool)
    requires t in s.txs && t in s.inventory.txs
  {
    && OwnDelivery(s, t, timely)
    && (s.txs[t].call.MovingDelivery? ==> MovingKnows(s, t, timely))
    && (s.txs[t].call.Creating? ==> CreatingKnows(s, t))
    && (s.txs[t].call.Reserving? || s.txs[t].call.MovingOrder? ==> s.txs[t].delivery.None?)
  }

  ghost predicate OnTime(t: TxId, late: iset<TxId>) { t !in late }

  ghost predicate DeliveriesOk(rows: seq<Option<Reservation>>, ds: seq<Option<Delivery>>) {
    forall d :: 0 <= d < |ds| && ds[d].Some? ==> DeliveryOk(rows, ds[d].value)
  }

  ghost predicate SalesInv(s: Sales, late: iset<TxId>) {
    && RowsInv(s.inventory)
    && DeliveriesOk(Committed(s), s.deliveries)
    && (forall d: nat :: d in s.deliveryLocks ==> d < |s.deliveries|)
    && forall t :: t in s.txs ==> t in s.inventory.txs && Knows(s, t, OnTime(t, late))
  }

  // ------------------------------------------------------ steps of the frame

  ghost predicate DeliveriesLater(ds: seq<Option<Delivery>>, ds': seq<Option<Delivery>>) {
    && |ds| <= |ds'|
    && forall d :: 0 <= d < |ds| && ds[d].Some? ==> ds'[d].Some? && Later(ds[d].value, ds'[d].value)
  }

  /** The calls to come are the same, or the first of them has done its part. */
  ghost predicate Continues(s: Sales, s': Sales, t: TxId)
    requires t in s.inventory.txs && t in s'.inventory.txs
  {
    var calls, calls' := s.inventory.txs[t].calls, s'.inventory.txs[t].calls;
    || calls' == calls
    || (calls != [] && calls' == calls[1..]
        && (calls[0].Fulfil? && CompletionKey(calls[0].key) ==> Fulfilled(RowsSeen(s', t), calls[0].reservation)))
  }

  /** What holds for a transaction after a step of another, or of an inventory call of its own. */
  ghost predicate Kept(s: Sales, s': Sales, t: TxId) {
    && t in s.txs && t in s'.txs && s'.txs[t] == s.txs[t]
    && t in s.inventory.txs && t in s'.inventory.txs && Continues(s, s', t)
    && (s.inventory.txs[t].calls == [] ==> s'.inventory.txs[t] == s.inventory.txs[t])
    && OnlyStatusMoves(Committed(s), Committed(s')) && OnlyStatusMoves(RowsSeen(s, t), RowsSeen(s', t))
    && DeliveriesLater(s.deliveries, s'.deliveries)
    && forall d: nat :: HoldsIn(s.deliveryLocks, t, d) ==>
         HoldsIn(s'.deliveryLocks, t, d) && (d < |s.deliveries| ==> s'.deliveries[d] == s.deliveries[d])
  }

  lemma MovesKeepOwn(rows: seq<Option<Reservation>>, rows': seq<Option<Reservation>>, d: Delivery)
    requires OnlyStatusMoves(rows, rows') && OwnReferences(rows, d)
    ensures OwnReferences(rows', d)
  {
    forall n | 0 <= n < |d.lines| ensures OwnReference(rows', d, d.lines[n]) {
      assert OwnReference(rows, d, d.lines[n]);
    }
  }

  lemma MovesKeepIssued(rows: seq<Option<Reservation>>, rows': seq<Option<Reservation>>, d: Delivery)
    requires OnlyStatusMoves(rows, rows') && IssuedReferences(rows, d)
    ensures IssuedReferences(rows', d)
  {
    forall n | 0 <= n < |d.lines| ensures IssuedReference(rows', d.lines[n]) {
      assert IssuedReference(rows, d.lines[n]);
    }
  }

  lemma MovesKeepAllOf(
    rows: seq<Option<Reservation>>, rows': seq<Option<Reservation>>, lines: seq<DeliveryLine>, source: Source)
    requires OnlyStatusMoves(rows, rows') && AllOf(rows, lines, source)
    ensures AllOf(rows', lines, source)
  {
  }

  lemma ProgressGoesOn(
    rows: seq<Option<Reservation>>, rows': seq<Option<Reservation>>, calls: seq<Request>, calls': seq<Request>, c: Call,
      ids: seq<nat>)
    requires c.MovingDelivery? && OnlyStatusMoves(rows, rows') && Progress(rows, calls, c, ids)
    requires calls' == calls
          || (calls != [] && calls' == calls[1..]
              && (calls[0].Fulfil? && CompletionKey(calls[0].key) ==> Fulfilled(rows', calls[0].reservation)))
    ensures Progress(rows', calls', c, ids)
  {
    forall i | i in ids ensures Fulfilled(rows', i) || IssueCall(c, i) in calls' {
      if !Fulfilled(rows, i) && calls' != calls && calls[0] != IssueCall(c, i) {
        var n :| 0 <= n < |calls| && calls[n] == IssueCall(c, i);
        assert calls[1..][n - 1] == IssueCall(c, i);
      }
    }
  }

  lemma LaterTransitive(a: Delivery, b: Delivery, c: Delivery)
    requires Later(a, b) && Later(b, c)
    ensures Later(a, c)
  {
  }

  lemma KeptOwn(s: Sales, s': Sales, t: TxId, timely: bool)
    requires Kept(s, s', t) && OwnDelivery(s, t, timely)
    ensures OwnDelivery(s', t, timely)
  {
    if s.txs[t].delivery.Some? {
      var row := s.txs[t].delivery.value.1;
      MovesKeepOwn(Committed(s), Committed(s'), row);
      if row.status == COMPLETED {
        MovesKeepIssued(RowsSeen(s, t), RowsSeen(s', t), row);
      }
    }
  }

  lemma KeptRead(s: Sales, s': Sales, c: Call, seen: Delivery, timely: bool)
    requires c.MovingDelivery? && DeliveriesLater(s.deliveries, s'.deliveries) && Read(s, c, seen, timely)
    ensures Read(s', c, seen, timely)
  {
    LaterTransitive(seen, s.deliveries[c.delivery].value, s'.deliveries[c.delivery].value);
  }

  lemma KeptMoving(s: Sales, s': Sales, t: TxId, timely: bool)
    requires Kept(s, s', t) && s.txs[t].call.MovingDelivery? && MovingKnows(s, t, timely)
    ensures MovingKnows(s', t, timely)
  {
    var c := s.txs[t].call;
    match s.txs[t].stage
    case HeadSeen(head) => KeptRead(s, s', c, head, timely);
    case LinesSeen(seen) => KeptRead(s, s', c, seen, timely);
    case Locking(seen, ids, _) => KeptRead(s, s', c, seen, timely);
    case Issuing(seen, ids) =>
      KeptRead(s, s', c, seen, timely);
      ProgressGoesOn(
        RowsSeen(s, t), RowsSeen(s', t), s.inventory.txs[t].calls, s'.inventory.txs[t].calls, c, ids);
    case _ =>
  }

  lemma KeptCreating(s: Sales, s': Sales, t: TxId)
    requires Kept(s, s', t) && s.txs[t].call.Creating? && CreatingKnows(s, t)
    requires s.txs[t].delivery.Some? ==> HoldsIn(s.deliveryLocks, t, s.txs[t].delivery.value.0)
    ensures CreatingKnows(s', t)
  {
    match s.txs[t].stage
    case Linking(d, linked) =>
      MovesKeepAllOf(Committed(s), Committed(s'), linked, OrderSource(s.txs[t].call.scope, s.txs[t].call.order));
    case _ =>
  }

  lemma KeptKnows(s: Sales, s': Sales, t: TxId, timely: bool)
    requires Kept(s, s', t) && Knows(s, t, timely)
    ensures Knows(s', t, timely)
  {
    KeptOwn(s, s', t, timely);
    if s.txs[t].call.MovingDelivery? {
      KeptMoving(s, s', t, timely);
    }
    if s.txs[t].call.Creating? {
      KeptCreating(s, s', t);
    }
  }

  /** Other transactions' own parts are as they were. */
  ghost predicate OthersSame(s: Sales, s': Sales, t: TxId) {
    && (forall u :: u in s'.txs && u != t ==> u in s.txs && s'.txs[u] == s.txs[u])
    && (forall u :: u in s.inventory.txs && u != t ==>
          u in s'.inventory.txs && s'.inventory.txs[u] == s.inventory.txs[u])
    && (forall u, d: nat :: u != t && HoldsIn(s.deliveryLocks, u, d) ==>
          HoldsIn(s'.deliveryLocks, u, d) && (d < |s.deliveries| ==>
            d < |s'.deliveries| && s'.deliveries[d] == s.deliveries[d]))
  }

  lemma OthersKnow(s: Sales, s': Sales, t: TxId, late: iset<TxId>)
    requires SalesInv(s, late) && OthersSame(s, s', t)
    requires ViewsMove(s.inventory, s'.inventory) && DeliveriesLater(s.deliveries, s'.deliveries)
    ensures forall u :: u in s'.txs && u != t ==> u in s'.inventory.txs && Knows(s', u, OnTime(u, late))
  {
    forall u | u in s'.txs && u != t ensures u in s'.inventory.txs && Knows(s', u, OnTime(u, late)) {
      KeptKnows(s, s', u, OnTime(u, late));
    }
  }

  lemma MovesKeepDeliveries(rows: seq<Option<Reservation>>, rows': seq<Option<Reservation>>, ds: seq<Option<Delivery>>)
    requires OnlyStatusMoves(rows, rows') && DeliveriesOk(rows, ds)
    ensures DeliveriesOk(rows', ds)
  {
    forall d | 0 <= d < |ds| && ds[d].Some? ensures DeliveryOk(rows', ds[d].value) {
      MovesKeepDelivery(rows, rows', ds[d].value);
    }
  }

  lemma SameViews(v: I.System, v': I.System)
    requires v'.committed == v.committed
    requires forall u :: u in v.txs && u in v'.txs ==> v'.txs[u].rows == v.txs[u].rows
    ensures ViewsMove(v, v')
  {
  }

  lemma StepInv(s: Sales, s': Sales, t: TxId, late: iset<TxId>)
    requires SalesInv(s, late) && OthersSame(s, s', t) && RowsInv(s'.inventory)
    requires ViewsMove(s.inventory, s'.inventory)
    requires DeliveriesLater(s.deliveries, s'.deliveries) && DeliveriesOk(Committed(s'), s'.deliveries)
    requires forall d: nat :: d in s'.deliveryLocks ==> d < |s'.deliveries|
    requires t in s'.txs ==> t in s'.inventory.txs && Knows(s', t, OnTime(t, late))
    ensures SalesInv(s', late)
  {
    hide RowsInv, Knows;
    OthersKnow(s, s', t, late);
  }

  lemma EndOthers(s: Sales, t: TxId)
    ensures OthersSame(s, End(s, t), t)
  {
  }

  lemma EndKeepsSales(s: Sales, t: TxId, late: iset<TxId>)
    requires SalesInv(s, late)
    ensures SalesInv(End(s, t), late)
  {
    hide RowsInv, Knows, OthersSame, ViewsMove;
    EndRows(s.inventory, t);
    EndOthers(s, t);
    StepInv(s, End(s, t), t, late);
  }

  ghost predicate OthersInventory(v: I.System, v': I.System, t: TxId) {
    forall u :: u in v.txs && u != t ==> u in v'.txs && v'.txs[u] == v.txs[u]
  }

  function Locked(locks: map<nat, TxId>, d: Option<nat>, t: TxId): map<nat, TxId> {
    if d.Some? then locks[d.value := t] else locks
  }

  lemma LockedOthers(s: Sales, s': Sales, t: TxId, d: Option<nat>)
    requires t in s.txs && t in s'.txs && s'.txs == s.txs[t := s'.txs[t]] && s'.deliveries == s.deliveries
    requires s'.deliveryLocks == Locked(s.deliveryLocks, d, t) && (d.Some? ==> FreeIn(s.deliveryLocks, t, d.value))
    requires OthersInventory(s.inventory, s'.inventory, t)
    ensures OthersSame(s, s', t)
  {
  }

  lemma SameDeliveries(ds: seq<Option<Delivery>>)
    ensures DeliveriesLater(ds, ds)
  {
  }

  /** A step after which the transaction goes on, with at most one more delivery locked. */
  lemma GoesOn(s: Sales, s': Sales, t: TxId, d: Option<nat>, late: iset<TxId>)
    requires SalesInv(s, late) && t in s.txs && t in s'.txs && s'.txs == s.txs[t := s'.txs[t]]
    requires s'.deliveries == s.deliveries && s'.deliveryLocks == Locked(s.deliveryLocks, d, t)
    requires d.Some? ==> d.value < |s.deliveries| && FreeIn(s.deliveryLocks, t, d.value)
    requires RowsInv(s'.inventory) && ViewsMove(s.inventory, s'.inventory)
    requires OthersInventory(s.inventory, s'.inventory, t)
    requires t in s'.inventory.txs && Knows(s', t, OnTime(t, late))
    ensures SalesInv(s', late)
  {
    hide RowsInv, Knows;
    LockedOthers(s, s', t, d);
    SameDeliveries(s.deliveries);
    MovesKeepDeliveries(Committed(s), Committed(s'), s.deliveries);
    StepInv(s, s', t, late);
  }

  /** A step of the sales side that writes no row. */
  lemma ToKeeps(s: Sales, t: TxId, stage: Stage, late: iset<TxId>)
    requires SalesInv(s, late) && t in s.txs && Knows(To(s, t, stage), t, OnTime(t, late))
    ensures SalesInv(To(s, t, stage), late)
  {
    SameViews(s.inventory, s.inventory);
    GoesOn(s, To(s, t, stage), t, None, late);
  }

  // ---------------------------------------------- the inventory's part moves

  lemma WithCallsInv(v: I.System, t: TxId, calls: seq<Request>)
    requires Interleaving.Inv(v) && t in v.txs && v.txs[t].calls == []
    ensures Interleaving.Inv(WithCalls(v, t, calls))
  {
    var tx' := v.txs[t].(calls := calls);
    assert Interleaving.TxOk(v.committed, v.locks, t, v.txs[t]);
    Safety.MovePc(v.committed, v.locks, v.locks, t, v.txs[t], tx');
    Interleaving.GotoKeeps(v, t, tx');
  }

  lemma CallsOk(c: Tables, tx: I.Tx, calls: seq<Request>)
    requires RowsOk(c, tx) && KeysMatch(calls) && !tx.pc.IssueLogged?
    ensures RowsOk(c, tx.(calls := calls))
  {
    var tx' := tx.(calls := calls);
    forall j | 0 <= j < |tx'.log| ensures HonestKey(Rows(c, tx'), tx'.log[j]) {
      assert HonestKey(Rows(c, tx), tx.log[j]) || BeingIssued(tx, tx.log[j]);
    }
  }

  lemma ReadyWhenDone(v: I.System, t: TxId)
    requires Interleaving.Inv(v) && t in v.txs && v.txs[t].calls == []
    ensures v.txs[t].pc == I.Ready
  {
    assert Interleaving.TxOk(v.committed, v.locks, t, v.txs[t]);
  }

  lemma WithCallsRows(v: I.System, t: TxId, calls: seq<Request>)
    requires RowsInv(v) && t in v.txs && v.txs[t].calls == [] && KeysMatch(calls)
    ensures RowsInv(WithCalls(v, t, calls)) && ViewsMove(v, WithCalls(v, t, calls))
  {
    hide Interleaving.Inv, RowsOk;
    ReadyWhenDone(v, t);
    WithCallsInv(v, t, calls);
    CallsOk(v.committed, v.txs[t], calls);
    SameViews(v, WithCalls(v, t, calls));
  }

  lemma LockRowInv(v: I.System, t: TxId, i: nat)
    requires Interleaving.Inv(v) && t in v.txs && I.Free(v.locks, t, I.RowLock(i)) && i < |v.committed.reservations|
    ensures Interleaving.Inv(LockRow(v, t, i))
  {
    var l := I.RowLock(i);
    Interleaving.OthersKeepLocks(v.committed, v.locks, v.locks[l := t], t, v.txs[t]);
    Interleaving.TakeKeeps(v, t, l, v.txs[t]);
  }

  lemma LockRowRows(v: I.System, t: TxId, i: nat)
    requires RowsInv(v) && t in v.txs && I.Free(v.locks, t, I.RowLock(i)) && i < |v.committed.reservations|
    ensures RowsInv(LockRow(v, t, i)) && ViewsMove(v, LockRow(v, t, i))
  {
    hide Interleaving.Inv, RowsOk;
    LockRowInv(v, t, i);
    SameViews(v, LockRow(v, t, i));
  }

  lemma InnerOthers(s: Sales, t: TxId)
    requires t in s.txs && t in s.inventory.txs && s.inventory.txs[t].calls != []
    requires Advanced(s.inventory, I.Step(s.inventory, t), t)
    ensures OthersSame(s, AdvanceStep(s, t), t)
  {
    hide AdvancedTx, RowsOk;
  }

  lemma InnerGoesOn(s: Sales, s': Sales, t: TxId, timely: bool)
    requires t in s.txs && t in s.inventory.txs && s.inventory.txs[t].calls != [] && Knows(s, t, timely)
    requires s' == s.(inventory := s'.inventory) && t in s'.inventory.txs
    requires ViewsMove(s.inventory, s'.inventory) && Advanced(s.inventory, s'.inventory, t)
    ensures Knows(s', t, timely)
  {
    SameDeliveries(s.deliveries);
    assert Kept(s, s', t) by { hide Knows, RowsOk; }
    hide *;
    KeptKnows(s, s', t, timely);
  }

  /** One inventory statement of a sales transaction, which may end it. */
  lemma InnerKeeps(s: Sales, t: TxId, late: iset<TxId>)
    requires SalesInv(s, late) && t in s.txs && t in s.inventory.txs && s.inventory.txs[t].calls != []
    ensures SalesInv(AdvanceStep(s, t), late)
  {
    hide RowsInv, Knows, Advanced, ViewsMove, OthersSame;
    var v := I.Step(s.inventory, t);
    StepRows(s.inventory, t);
    var s' := AdvanceStep(s, t);
    InnerOthers(s, t);
    SameDeliveries(s.deliveries);
    StepMoves(s.inventory, v);
    MovesKeepDeliveries(Committed(s), Committed(s'), s.deliveries);
    if t in v.txs {
      InnerGoesOn(s, s', t, OnTime(t, late));
    }
    StepInv(s, s', t, late);
  }

  lemma StepMoves(v: I.System, v': I.System)
    requires ViewsMove(v, v')
    ensures OnlyStatusMoves(v.committed.reservations, v'.committed.reservations)
  {
  }

  /** What an event of another transaction does to the inventory's open transactions. */
  lemma InventoryLeavesOthers(v: I.System, e: I.Event, u: TxId)
    requires RowsInv(v) && u in v.txs && (!e.Recatalogue? ==> e.tx != u)
    ensures u in I.Happen(v, e).txs && I.Happen(v, e).txs[u] == v.txs[u]
  {
    if e.Statement? && e.tx in v.txs && v.txs[e.tx].calls != [] {
      StepAdvances(v, e.tx);
    }
  }

  lemma DirectLeaves(s: Sales, s': Sales, e: I.Event, u: TxId, timely: bool)
    requires RowsInv(s.inventory) && !OfSales(s, e) && u in s.txs && u in s.inventory.txs && Knows(s, u, timely)
    requires s' == s.(inventory := I.Happen(s.inventory, e)) && ViewsMove(s.inventory, s'.inventory)
    ensures u in s'.inventory.txs && Knows(s', u, timely)
  {
    hide RowsInv, Knows;
    InventoryLeavesOthers(s.inventory, e, u);
    SameDeliveries(s.deliveries);
    KeptKnows(s, s', u, timely);
  }

  lemma DirectKeeps(s: Sales, e: I.Event, late: iset<TxId>)
    requires SalesInv(s, late) && !OfSales(s, e) && (e.Begin? ==> KeysMatch(e.calls))
    ensures SalesInv(s.(inventory := I.Happen(s.inventory, e)), late)
  {
    hide RowsInv, Knows, ViewsMove;
    var s' := s.(inventory := I.Happen(s.inventory, e));
    HappenRows(s.inventory, e);
    StepMoves(s.inventory, s'.inventory);
    MovesKeepDeliveries(Committed(s), Committed(s'), s.deliveries);
    forall u | u in s'.txs ensures u in s'.inventory.txs && Knows(s', u, OnTime(u, late)) {
      DirectLeaves(s, s', e, u, OnTime(u, late));
    }
  }

  // --------------------------------------------------------- orders' own steps

  predicate OfOrder(c: Call) { c.Reserving? || c.MovingOrder? }

  /** A step of an order's call, which touches no delivery. */
  lemma OrderStepKeeps(s: Sales, s': Sales, t: TxId, late: iset<TxId>)
    requires SalesInv(s, late) && t in s.txs && t in s'.txs && s'.txs == s.txs[t := s'.txs[t]]
    requires OfOrder(s'.txs[t].call) && s'.txs[t].delivery.None?
    requires s'.deliveries == s.deliveries && s'.deliveryLocks == s.deliveryLocks
    requires RowsInv(s'.inventory) && ViewsMove(s.inventory, s'.inventory)
    requires OthersInventory(s.inventory, s'.inventory, t)
    requires t in s'.inventory.txs
    ensures SalesInv(s', late)
  {
    assert Knows(s', t, OnTime(t, late));
    GoesOn(s, s', t, None, late);
  }

  lemma WriteOrderKeeps(s: Sales, t: TxId, id: nat, o: Order, stage: Stage, late: iset<TxId>)
    requires SalesInv(s, late) && t in s.txs && OfOrder(s.txs[t].call)
    ensures SalesInv(WriteOrder(s, t, id, o, stage), late)
  {
    SameViews(s.inventory, s.inventory);
    assert Knows(s, t, OnTime(t, late));
    OrderStepKeeps(s, WriteOrder(s, t, id, o, stage), t, late);
  }

  lemma MarkOrderKeeps(s: Sales, t: TxId, id: nat, reserved: bool, stage: Stage, late: iset<TxId>)
    requires SalesInv(s, late) && t in s.txs && OfOrder(s.txs[t].call) && id < |s.orders|
    ensures SalesInv(MarkOrder(s, t, id, reserved, stage), late)
  {
    hide SalesInv, Knows, RowsInv;
    var now := OrderNow(s, s.txs[t], id);
    if FreeIn(s.orderLocks, t, id) {
      if now.deleted {
        EndKeepsSales(s, t, late);
      } else {
        WriteOrderKeeps(s, t, id, now.(reserved := reserved, version := now.version + 1), stage, late);
      }
    }
  }

  lemma UpdateOrderKeeps(s: Sales, t: TxId, id: nat, to: OrderStatus, version: int, late: iset<TxId>)
    requires SalesInv(s, late) && t in s.txs && OfOrder(s.txs[t].call) && id < |s.orders|
    ensures SalesInv(UpdateOrder(s, t, id, to, version), late)
  {
    hide SalesInv, Knows, RowsInv;
    var now := OrderNow(s, s.txs[t], id);
    if FreeIn(s.orderLocks, t, id) {
      if now.deleted || now.version != version {
        EndKeepsSales(s, t, late);
      } else {
        WriteOrderKeeps(s, t, id, now.(status := to, version := now.version + 1), Written, late);
      }
    }
  }

  lemma OrderCallsKeep(s: Sales, t: TxId, stage: Stage, calls: seq<Request>, late: iset<TxId>)
    requires SalesInv(s, late) && t in s.txs && OfOrder(s.txs[t].call)
    requires s.inventory.txs[t].calls == [] && KeysMatch(calls)
    ensures SalesInv(To(s, t, stage).(inventory := WithCalls(s.inventory, t, calls)), late)
  {
    hide RowsInv;
    WithCallsRows(s.inventory, t, calls);
    assert Knows(s, t, OnTime(t, late));
    OrderStepKeeps(s, To(s, t, stage).(inventory := WithCalls(s.inventory, t, calls)), t, late);
  }

  lemma OrderRead(s: Sales, t: TxId, stage: Stage, late: iset<TxId>)
    requires SalesInv(s, late) && t in s.txs && OfOrder(s.txs[t].call)
    ensures SalesInv(To(s, t, stage), late)
  {
    hide RowsInv;
    assert Knows(s, t, OnTime(t, late));
    ToKeeps(s, t, stage, late);
  }

  lemma ReservingKeeps(s: Sales, t: TxId, late: iset<TxId>)
    requires SalesInv(s, late) && t in s.txs && t in s.inventory.txs && s.txs[t].call.Reserving?
    requires s.inventory.txs[t].calls == []
    ensures SalesInv(ReservingStep(s, t), late)
  {
    hide SalesInv, Knows, RowsInv;
    var id := s.txs[t].call.order;
    match s.txs[t].stage
    case Begun =>
      if OrderShown(s, s.txs[t].call.scope, id) && CanReserve(s.orders[id]) {
        var o := s.orders[id];
        OrderCallsKeep(s, t, OrderSeen(o), LineRequests(s.txs[t].call.scope, id, o.warehouse.value, o.lines), late);
      } else {
        EndKeepsSales(s, t, late);
      }
    case OrderSeen(_) => if id < |s.orders| { MarkOrderKeeps(s, t, id, true, Written, late); }
    case _ =>
  }

  lemma MovingOrderKeeps(s: Sales, t: TxId, late: iset<TxId>)
    requires SalesInv(s, late) && t in s.txs && t in s.inventory.txs && s.txs[t].call.MovingOrder?
    requires s.inventory.txs[t].calls == []
    ensures SalesInv(MovingOrderStep(s, t), late)
  {
    hide SalesInv, Knows, RowsInv;
    var c := s.txs[t].call;
    match s.txs[t].stage
    case Begun =>
      if OrderShown(s, c.scope, c.order) {
        OrderRead(s, t, OrderSeen(s.orders[c.order]), late);
      }
      EndKeepsSales(s, t, late);
    case OrderSeen(o) =>
      if c.order < |s.orders| {
        if c.orderTo == OrderStatus.CANCELLED && o.reserved {
          ListForRelease(s, t, o, late);
        } else {
          UpdateOrderKeeps(s, t, c.order, c.orderTo, c.expected, late);
        }
      }
    case Freeing(o) => if c.order < |s.orders| { MarkOrderKeeps(s, t, c.order, false, Freed(o), late); }
    case Freed(_) => if c.order < |s.orders| { UpdateOrderKeeps(s, t, c.order, c.orderTo, c.expected + 1, late); }
    case _ =>
  }

  lemma ListForRelease(s: Sales, t: TxId, o: Order, late: iset<TxId>)
    requires SalesInv(s, late) && t in s.txs && t in s.inventory.txs && s.txs[t].call.MovingOrder?
    requires s.inventory.txs[t].calls == []
    ensures var c, rows := s.txs[t].call, RowsSeen(s, t);
            var calls := Releases(c.scope, rows, SourceRows(rows, OrderSource(c.scope, c.order)));
            SalesInv(To(s, t, Freeing(o)).(inventory := WithCalls(s.inventory, t, calls)), late)
  {
    hide SalesInv, Knows, RowsInv;
    var c, rows := s.txs[t].call, RowsSeen(s, t);
    OrderCallsKeep(s, t, Freeing(o), Releases(c.scope, rows, SourceRows(rows, OrderSource(c.scope, c.order))), late);
  }

  // ----------------------------------------------------- deliveries' own steps

  lemma WriteDeliveryKeeps(s: Sales, t: TxId, d: nat, row: Delivery, late: iset<TxId>)
    requires SalesInv(s, late) && t in s.txs && FreeIn(s.deliveryLocks, t, d) && d < |s.deliveries|
    requires s.txs[t].call.MovingDelivery? || s.txs[t].call.Creating?
    requires OwnReferences(Committed(s), row)
    requires row.status == COMPLETED ==>
      IssuedReferences(RowsSeen(s, t), row) && AllRefer(row.lines) && Past(s.deliveries[d])
    requires s.deliveries[d].Some? ==>
      && Later(s.deliveries[d].value, row) && row.version == s.deliveries[d].value.version + 1
      && (t !in late ==> Legal(s.deliveries[d].value.status, row.status))
    ensures SalesInv(WriteDelivery(s, t, d, row), late)
  {
    hide RowsInv;
    SameViews(s.inventory, s.inventory);
    var s' := WriteDelivery(s, t, d, row);
    assert Knows(s, t, OnTime(t, late));
    assert OwnDelivery(s', t, OnTime(t, late));
    GoesOn(s, s', t, Some(d), late);
  }

  /** The committed row's references are rows of its order's source, also after the update. */
  lemma CommittedOwn(s: Sales, d: nat, row: Delivery, late: iset<TxId>)
    requires SalesInv(s, late) && d < |s.deliveries| && s.deliveries[d].Some?
    requires row.scope == s.deliveries[d].value.scope && row.order == s.deliveries[d].value.order
    requires row.lines == s.deliveries[d].value.lines
    ensures OwnReferences(Committed(s), row)
  {
    assert DeliveryOk(Committed(s), s.deliveries[d].value);
    forall n | 0 <= n < |row.lines| ensures OwnReference(Committed(s), row, row.lines[n]) {
      assert OwnReference(Committed(s), s.deliveries[d].value, s.deliveries[d].value.lines[n]);
    }
  }

  lemma AllIssued(rows: seq<Option<Reservation>>, c: Call, seen: Delivery, row: Delivery, ids: seq<nat>)
    requires c.MovingDelivery? && Covered(seen.lines, ids) && Progress(rows, [], c, ids) && row.lines == seen.lines
    ensures IssuedReferences(rows, row)
  {
    forall n | 0 <= n < |row.lines| ensures IssuedReference(rows, row.lines[n]) {
      assert seen.lines[n].reservation.value in ids;
    }
  }

  lemma UpdateWrites(s: Sales, t: TxId, seen: Delivery, ids: seq<nat>, row: Delivery, late: iset<TxId>)
    requires SalesInv(s, late) && t in s.txs && s.txs[t].call.MovingDelivery?
    requires Read(s, s.txs[t].call, seen, OnTime(t, late)) && Checked(s.txs[t].call, seen)
    requires s.txs[t].call.to == COMPLETED ==>
      Covered(seen.lines, ids) && Progress(RowsSeen(s, t), [], s.txs[t].call, ids)
    requires FreeIn(s.deliveryLocks, t, s.txs[t].call.delivery)
    requires var now := s.deliveries[s.txs[t].call.delivery].value;
             now.version == s.txs[t].call.expected
               && row == now.(status := s.txs[t].call.to, version := now.version + 1)
    ensures SalesInv(WriteDelivery(s, t, s.txs[t].call.delivery, row), late)
  {
    hide RowsInv;
    var c := s.txs[t].call;
    CommittedOwn(s, c.delivery, row, late);
    if c.to == COMPLETED {
      AllIssued(RowsSeen(s, t), c, seen, row, ids);
    }
    WriteDeliveryKeeps(s, t, c.delivery, row, late);
  }

  /**
    The last update: the version asked for is the row's, and if it is not above the one read, the row
    is the one read.
   */
  lemma UpdateKeeps(s: Sales, t: TxId, seen: Delivery, ids: seq<nat>, late: iset<TxId>)
    requires SalesInv(s, late) && t in s.txs && t in s.inventory.txs && s.txs[t].call.MovingDelivery?
    requires Read(s, s.txs[t].call, seen, OnTime(t, late)) && Checked(s.txs[t].call, seen)
    requires s.txs[t].call.to == COMPLETED ==>
      Covered(seen.lines, ids) && Progress(RowsSeen(s, t), [], s.txs[t].call, ids)
    ensures SalesInv(UpdateDelivery(s, t, s.txs[t].call.delivery, s.txs[t].call.to, s.txs[t].call.expected), late)
  {
    hide SalesInv, Knows, RowsInv, Covered, Progress;
    var c := s.txs[t].call;
    var d, now := c.delivery, s.deliveries[c.delivery].value;
    if FreeIn(s.deliveryLocks, t, d) {
      if now.version == c.expected {
        UpdateWrites(s, t, seen, ids, now.(status := c.to, version := now.version + 1), late);
      } else {
        EndKeepsSales(s, t, late);
      }
    }
  }

  /** The listing has every row the delivery refers to: those rows were committed before. */
  lemma ListingCovers(s: Sales, t: TxId, seen: Delivery, late: iset<TxId>)
    requires SalesInv(s, late) && t in s.txs && s.txs[t].call.MovingDelivery? && s.txs[t].call.to == COMPLETED
    requires Read(s, s.txs[t].call, seen, OnTime(t, late)) && Checked(s.txs[t].call, seen)
    ensures Covered(seen.lines, SourceRows(RowsSeen(s, t), OrderSource(s.txs[t].call.scope, seen.order)))
  {
    var c := s.txs[t].call;
    var now := s.deliveries[c.delivery].value;
    var ids := SourceRows(RowsSeen(s, t), OrderSource(c.scope, seen.order));
    assert DeliveryOk(Committed(s), now) && RowsOk(s.inventory.committed, s.inventory.txs[t]);
    forall n | 0 <= n < |seen.lines| ensures seen.lines[n].reservation.value in ids {
      assert OwnReference(Committed(s), now, now.lines[n]);
    }
  }

  lemma AllToCome(rows: seq<Option<Reservation>>, c: Call, ids: seq<nat>)
    requires c.MovingDelivery?
    ensures Progress(rows, IssueCalls(c.scope, ids, c.delivery), c, ids)
    ensures KeysMatch(IssueCalls(c.scope, ids, c.delivery))
  {
    var calls := IssueCalls(c.scope, ids, c.delivery);
    forall i | i in ids ensures IssueCall(c, i) in calls {
      var m :| 0 <= m < |ids| && ids[m] == i;
      assert calls[m] == IssueCall(c, i);
    }
  }

  /** The next stage of a completion, when nothing else that it knows of has changed. */
  lemma NextStageKnown(s: Sales, s': Sales, t: TxId, timely: bool)
    requires t in s.txs && t in s.inventory.txs && Knows(s, t, timely) && s.txs[t].call.MovingDelivery?
    requires s.txs[t].stage.Locking?
    requires t in s'.txs && t in s'.inventory.txs && s'.deliveries == s.deliveries
    requires s'.deliveryLocks == s.deliveryLocks
    requires Committed(s') == Committed(s)
    requires var st := s.txs[t].stage;
             || (s'.txs[t] == s.txs[t].(stage := Locking(st.seen, st.ids, st.locked + 1)))
             || (s'.txs[t] == s.txs[t].(stage := Issuing(st.seen, st.ids))
                 && Progress(RowsSeen(s', t), s'.inventory.txs[t].calls, s.txs[t].call, st.ids))
    ensures Knows(s', t, timely)
  {
    hide Progress, Covered;
  }

  lemma KnowsTx(s: Sales, t: TxId, late: iset<TxId>)
    requires SalesInv(s, late) && t in s.txs
    ensures t in s.inventory.txs && Knows(s, t, OnTime(t, late)) && RowsInv(s.inventory)
  {
    hide RowsInv, Knows;
  }

  lemma IssueStarts(s: Sales, t: TxId, seen: Delivery, ids: seq<nat>, late: iset<TxId>)
    requires SalesInv(s, late) && t in s.txs && t in s.inventory.txs && s.txs[t].call.MovingDelivery?
    requires s.txs[t].stage.Locking?
    requires seen == s.txs[t].stage.seen && ids == s.txs[t].stage.ids && s.inventory.txs[t].calls == []
    ensures var c := s.txs[t].call;
            var calls := IssueCalls(c.scope, ids, c.delivery);
            SalesInv(To(s, t, Issuing(seen, ids)).(inventory := WithCalls(s.inventory, t, calls)), late)
  {
    hide RowsInv, Knows, SalesInv, ViewsMove, Progress, KeysMatch;
    var c := s.txs[t].call;
    var calls := IssueCalls(c.scope, ids, c.delivery);
    var s' := To(s, t, Issuing(seen, ids)).(inventory := WithCalls(s.inventory, t, calls));
    KnowsTx(s, t, late);
    AllToCome(RowsSeen(s', t), c, ids);
    WithCallsRows(s.inventory, t, calls);
    NextStageKnown(s, s', t, OnTime(t, late));
    GoesOn(s, s', t, None, late);
  }

  lemma IdsInRange(s: Sales, t: TxId, n: nat, late: iset<TxId>)
    requires SalesInv(s, late) && t in s.txs && s.txs[t].call.MovingDelivery? && s.txs[t].stage.Locking?
    requires n < |s.txs[t].stage.ids|
    ensures s.txs[t].stage.ids[n] < |Committed(s)|
  {
    hide RowsInv, Covered;
    assert Knows(s, t, OnTime(t, late));
    assert s.txs[t].stage.ids[n] in s.txs[t].stage.ids;
  }

  lemma RowLocks(s: Sales, t: TxId, seen: Delivery, ids: seq<nat>, n: nat, late: iset<TxId>)
    requires SalesInv(s, late) && t in s.txs && t in s.inventory.txs && s.txs[t].call.MovingDelivery?
    requires s.txs[t].stage == Locking(seen, ids, n)
    requires n < |ids| && I.Free(s.inventory.locks, t, I.RowLock(ids[n]))
    ensures SalesInv(To(s, t, Locking(seen, ids, n + 1)).(inventory := LockRow(s.inventory, t, ids[n])), late)
  {
    hide RowsInv, Knows, SalesInv, ViewsMove;
    var s' := To(s, t, Locking(seen, ids, n + 1)).(inventory := LockRow(s.inventory, t, ids[n]));
    KnowsTx(s, t, late);
    IdsInRange(s, t, n, late);
    LockRowRows(s.inventory, t, ids[n]);
    NextStageKnown(s, s', t, OnTime(t, late));
    GoesOn(s, s', t, None, late);
  }

  lemma LockStepKeeps(s: Sales, t: TxId, seen: Delivery, ids: seq<nat>, n: nat, late: iset<TxId>)
    requires SalesInv(s, late) && t in s.txs && t in s.inventory.txs && s.txs[t].call.MovingDelivery?
    requires s.txs[t].stage == Locking(seen, ids, n) && s.inventory.txs[t].calls == []
    ensures SalesInv(LockStep(s, t, seen, ids, n), late)
  {
    hide SalesInv, Knows, RowsInv;
    if n >= |ids| {
      IssueStarts(s, t, seen, ids, late);
    } else if I.Free(s.inventory.locks, t, I.RowLock(ids[n])) {
      RowLocks(s, t, seen, ids, n, late);
    }
  }

  lemma HeadRead(s: Sales, t: TxId, late: iset<TxId>)
    requires SalesInv(s, late) && t in s.txs && s.txs[t].call.MovingDelivery? && s.txs[t].stage.Begun?
    requires DeliveryShown(s, s.txs[t].call.scope, s.txs[t].call.delivery)
    requires t !in late ==> s.txs[t].call.expected <= s.deliveries[s.txs[t].call.delivery].value.version
    ensures SalesInv(To(s, t, HeadSeen(s.deliveries[s.txs[t].call.delivery].value)), late)
  {
    hide RowsInv;
    assert Knows(s, t, OnTime(t, late));
    ToKeeps(s, t, HeadSeen(s.deliveries[s.txs[t].call.delivery].value), late);
  }

  lemma LinesRead(s: Sales, t: TxId, head: Delivery, late: iset<TxId>)
    requires SalesInv(s, late) && t in s.txs && s.txs[t].call.MovingDelivery? && s.txs[t].stage == HeadSeen(head)
    ensures SalesInv(LinesStep(s, t, head), late)
  {
    hide RowsInv;
    var c := s.txs[t].call;
    assert Knows(s, t, OnTime(t, late));
    var seen := head.(lines := s.deliveries[c.delivery].value.lines);
    if Checked(c, seen) {
      assert Read(s, c, seen, OnTime(t, late));
      ToKeeps(s, t, LinesSeen(seen), late);
    } else {
      EndKeepsSales(s, t, late);
    }
  }

  lemma RowsListed(s: Sales, t: TxId, seen: Delivery, late: iset<TxId>)
    requires SalesInv(s, late) && t in s.txs && s.txs[t].call.MovingDelivery? && s.txs[t].call.to == COMPLETED
    requires s.txs[t].stage == LinesSeen(seen)
    ensures SalesInv(
      To(s, t, Locking(seen, SourceRows(RowsSeen(s, t), OrderSource(s.txs[t].call.scope, seen.order)), 0)), late)
  {
    hide RowsInv;
    assert Knows(s, t, OnTime(t, late));
    ListingCovers(s, t, seen, late);
    ToKeeps(s, t, Locking(seen, SourceRows(RowsSeen(s, t), OrderSource(s.txs[t].call.scope, seen.order)), 0), late);
  }

  /** What the invariant says of a transaction about to make its last update. */
  lemma KnowsMoving(s: Sales, t: TxId, late: iset<TxId>)
    requires SalesInv(s, late) && t in s.txs && s.txs[t].call.MovingDelivery?
    ensures t in s.inventory.txs && MovingKnows(s, t, OnTime(t, late))
  {
    hide RowsInv;
    assert Knows(s, t, OnTime(t, late));
  }

  lemma MovingDeliveryKeeps(s: Sales, t: TxId, late: iset<TxId>)
    requires SalesInv(s, late) && t in s.txs && t in s.inventory.txs && s.txs[t].call.MovingDelivery?
    requires s.inventory.txs[t].calls == []
    requires t !in late && s.txs[t].stage.Begun? && DeliveryShown(s, s.txs[t].call.scope, s.txs[t].call.delivery) ==>
      s.txs[t].call.expected <= s.deliveries[s.txs[t].call.delivery].value.version
    ensures SalesInv(MovingDeliveryStep(s, t), late)
  {
    hide SalesInv, Knows, RowsInv, Covered, Progress;
    var c := s.txs[t].call;
    KnowsMoving(s, t, late);
    match s.txs[t].stage
    case Begun =>
      if c.expected < 1 || !DeliveryShown(s, c.scope, c.delivery) {
        EndKeepsSales(s, t, late);
      } else {
        HeadRead(s, t, late);
      }
    case HeadSeen(head) => LinesRead(s, t, head, late);
    case LinesSeen(seen) =>
      if c.to != COMPLETED {
        UpdateKeeps(s, t, seen, [], late);
      } else if SourceRows(RowsSeen(s, t), OrderSource(c.scope, seen.order)) == [] {
        EndKeepsSales(s, t, late);
      } else {
        RowsListed(s, t, seen, late);
      }
    case Locking(seen, ids, n) => LockStepKeeps(s, t, seen, ids, n, late);
    case Issuing(seen, ids) => UpdateKeeps(s, t, seen, ids, late);
    case _ =>
  }

  // ---------------------------------------------------------------- creation

  lemma CreatingGoesOn(s: Sales, t: TxId, stage: Stage, late: iset<TxId>)
    requires SalesInv(s, late) && t in s.txs && s.txs[t].call.Creating?
    requires stage.NoneFound? || stage.OrderSeen?
      || (stage.Opened? && Names(s, s.txs[t], stage.opening, s.txs[t].call.scope, s.txs[t].call.order))
    ensures SalesInv(To(s, t, stage), late)
  {
    hide RowsInv;
    assert Knows(s, t, OnTime(t, late));
    ToKeeps(s, t, stage, late);
  }

  lemma OpenKeeps(s: Sales, t: TxId, late: iset<TxId>)
    requires SalesInv(s, late) && t in s.txs && s.txs[t].call.Creating? && s.txs[t].delivery.None?
    requires var c := s.txs[t].call;
             var found := FindRow(s.deliveries, c.scope, c.key, c.order);
             found.Some? ==> s.deliveries[found.value].value.order == c.order
    ensures SalesInv(OpenStep(s, t), late)
  {
    hide SalesInv, RowsInv, Knows;
    var c := s.txs[t].call;
    var found := FindRow(s.deliveries, c.scope, c.key, c.order);
    if found.None? {
      CreatingGoesOn(s, t, NoneFound, late);
    } else if !c.allowReplay {
      EndKeepsSales(s, t, late);
    } else {
      CreatingGoesOn(s, t, Opened(found.value, s.deliveries[found.value].value.lines), late);
    }
  }

  lemma NewReferences(rows: seq<Option<Reservation>>, scope: Scope, order: nat, key: string, lines: seq<OrderLine>)
    ensures OwnReferences(rows, Delivery(scope, order, key, CopyLines(lines), DeliveryStatus.DRAFT, 1))
  {
  }

  lemma InsertOthers(s: Sales, t: TxId, o: Order)
    requires t in s.txs && s.txs[t].call.Creating? && (forall d: nat :: d in s.deliveryLocks ==> d < |s.deliveries|)
    ensures OthersSame(s, InsertStep(s, t, o), t)
    ensures DeliveriesLater(s.deliveries, InsertStep(s, t, o).deliveries)
  {
  }

  lemma InsertKnown(s: Sales, t: TxId, o: Order, timely: bool)
    requires t in s.txs && t in s.inventory.txs && s.txs[t].call.Creating? && Knows(s, t, timely)
    ensures Knows(InsertStep(s, t, o), t, timely)
  {
    NewReferences(Committed(s), s.txs[t].call.scope, s.txs[t].call.order, s.txs[t].call.key, o.lines);
  }

  lemma EmptySlotOk(rows: seq<Option<Reservation>>, ds: seq<Option<Delivery>>)
    requires DeliveriesOk(rows, ds)
    ensures DeliveriesOk(rows, ds + [None])
  {
  }

  lemma InsertKeeps(s: Sales, t: TxId, o: Order, late: iset<TxId>)
    requires SalesInv(s, late) && t in s.txs && s.txs[t].call.Creating?
    ensures SalesInv(InsertStep(s, t, o), late)
  {
    hide RowsInv, Knows, OthersSame, DeliveriesLater, DeliveriesOk, ViewsMove;
    var s' := InsertStep(s, t, o);
    SameViews(s.inventory, s.inventory);
    InsertOthers(s, t, o);
    InsertKnown(s, t, o, OnTime(t, late));
    EmptySlotOk(Committed(s), s.deliveries);
    StepInv(s, s', t, late);
  }

  lemma ListedAreOf(s: Sales, t: TxId, ids: seq<nat>, lines: seq<DeliveryLine>)
    requires t in s.txs && t in s.inventory.txs && s.inventory.txs[t].rows == map[] && s.txs[t].call.Creating?
    requires ids == SourceRows(RowsSeen(s, t), OrderSource(s.txs[t].call.scope, s.txs[t].call.order))
    requires AllMatched(RowsSeen(s, t), ids, lines)
    ensures AllOf(Committed(s), LinkLines(RowsSeen(s, t), ids, lines),
      OrderSource(s.txs[t].call.scope, s.txs[t].call.order))
  {
    var rows := RowsSeen(s, t);
    assert rows == Committed(s);
    var linked := LinkLines(rows, ids, lines);
    forall n | 0 <= n < |linked|
      ensures linked[n].reservation.Some?
           && RowOf(rows, linked[n].reservation.value, OrderSource(s.txs[t].call.scope, s.txs[t].call.order))
    {
      assert LineMatched(rows, ids, lines[n]) && linked[n] == LinkLine(rows, ids, lines[n]);
    }
  }

  lemma ListKnown(s: Sales, t: TxId, d: nat, linked: seq<DeliveryLine>, timely: bool)
    requires t in s.txs && t in s.inventory.txs && s.txs[t].call.Creating? && Knows(s, t, timely)
    requires Names(s, s.txs[t], d, s.txs[t].call.scope, s.txs[t].call.order)
    requires AllOf(Committed(s), linked, OrderSource(s.txs[t].call.scope, s.txs[t].call.order))
    ensures Knows(To(s, t, Linking(d, linked)), t, timely)
  {
    hide AllOf;
  }

  lemma KnowsCreating(s: Sales, t: TxId, late: iset<TxId>)
    requires SalesInv(s, late) && t in s.txs && s.txs[t].call.Creating?
    ensures t in s.inventory.txs && CreatingKnows(s, t) && OwnDelivery(s, t, OnTime(t, late))
  {
    hide RowsInv;
    assert Knows(s, t, OnTime(t, late));
  }

  lemma ListKeeps(s: Sales, t: TxId, d: nat, lines: seq<DeliveryLine>, late: iset<TxId>)
    requires SalesInv(s, late) && t in s.txs && t in s.inventory.txs && s.txs[t].call.Creating?
    requires s.txs[t].stage == Opened(d, lines)
    ensures SalesInv(ListStep(s, t, d, lines), late)
  {
    hide SalesInv, Knows, RowsInv, AllOf;
    var c, rows := s.txs[t].call, RowsSeen(s, t);
    var ids := SourceRows(rows, OrderSource(c.scope, c.order));
    if ids == [] || !AllReserved(rows, ids) || !AllMatched(rows, ids, lines) {
      EndKeepsSales(s, t, late);
    } else {
      KnowsTx(s, t, late);
      KnowsCreating(s, t, late);
      ListedAreOf(s, t, ids, lines);
      ListKnown(s, t, d, LinkLines(rows, ids, lines), OnTime(t, late));
      ToKeeps(s, t, Linking(d, LinkLines(rows, ids, lines)), late);
    }
  }

  lemma LinkedOwn(rows: seq<Option<Reservation>>, row: Delivery, scope: Scope, order: nat)
    requires AllOf(rows, row.lines, OrderSource(scope, order)) && row.scope == scope && row.order == order
    ensures OwnReferences(rows, row)
  {
  }

  /** Linking: the row, its own or the committed one, is a draft of the order named. */
  lemma LinkKeeps(s: Sales, t: TxId, d: nat, linked: seq<DeliveryLine>, late: iset<TxId>)
    requires SalesInv(s, late) && t in s.txs && t in s.inventory.txs && s.txs[t].call.Creating?
    requires s.txs[t].stage == Linking(d, linked)
    ensures SalesInv(LinkStep(s, t, d, linked), late)
  {
    hide SalesInv, Knows, RowsInv, AllOf, OwnReferences, IssuedReferences;
    var c := s.txs[t].call;
    KnowsCreating(s, t, late);
    var now := DeliveryNow(s, s.txs[t], d).value;
    if FreeIn(s.deliveryLocks, t, d) {
      if now.status != DeliveryStatus.DRAFT {
        EndKeepsSales(s, t, late);
      } else {
        var row := now.(lines := linked, version := now.version + 1);
        LinkedOwn(Committed(s), row, c.scope, c.order);
        WriteDeliveryKeeps(s, t, d, row, late);
      }
    }
  }

  lemma CreatingKeeps(s: Sales, t: TxId, late: iset<TxId>)
    requires SalesInv(s, late) && t in s.txs && t in s.inventory.txs && s.txs[t].call.Creating?
    requires s.txs[t].stage.Begun? ==>
      var c := s.txs[t].call;
      var found := FindRow(s.deliveries, c.scope, c.key, c.order);
      found.Some? ==> s.deliveries[found.value].value.order == c.order
    ensures SalesInv(CreatingStep(s, t), late)
  {
    hide SalesInv, Knows, RowsInv;
    var c := s.txs[t].call;
    match s.txs[t].stage
    case Begun =>
      KnowsCreating(s, t, late);
      OpenKeeps(s, t, late);
    case NoneFound =>
      if !OrderShown(s, c.scope, c.order) || s.orders[c.order].status != CONFIRMED
        || s.orders[c.order].warehouse.None? {
        EndKeepsSales(s, t, late);
      } else {
        CreatingGoesOn(s, t, OrderSeen(s.orders[c.order]), late);
      }
    case OrderSeen(o) => InsertKeeps(s, t, o, late);
    case Opened(d, lines) => ListKeeps(s, t, d, lines, late);
    case Linking(d, linked) => LinkKeeps(s, t, d, linked, late);
    case _ =>
  }

  // ------------------------------------------------------------------ commit

  lemma CommitOthers(s: Sales, t: TxId, timely: bool)
    requires t in s.txs && t in s.inventory.txs && OwnDelivery(s, t, timely)
    ensures OthersSame(s, CommitStep(s, t), t) && DeliveriesLater(s.deliveries, CommitStep(s, t).deliveries)
  {
    hide OwnReferences, IssuedReferences;
  }

  lemma CommitDeliveries(s: Sales, t: TxId, timely: bool)
    requires t in s.txs && t in s.inventory.txs && OwnDelivery(s, t, timely)
    requires DeliveriesOk(Committed(s), s.deliveries) && OnlyStatusMoves(Committed(s), RowsSeen(s, t))
    ensures DeliveriesOk(RowsSeen(s, t), CommitStep(s, t).deliveries)
  {
    var rows, ds' := RowsSeen(s, t), CommitStep(s, t).deliveries;
    forall d | 0 <= d < |ds'| && ds'[d].Some? ensures DeliveryOk(rows, ds'[d].value) {
      if s.txs[t].delivery.Some? && s.txs[t].delivery.value.0 == d {
        MovesKeepOwn(Committed(s), rows, ds'[d].value);
      } else {
        MovesKeepDelivery(Committed(s), rows, ds'[d].value);
      }
    }
  }

  lemma KnowsOwn(s: Sales, t: TxId, late: iset<TxId>)
    requires SalesInv(s, late) && t in s.txs
    ensures t in s.inventory.txs && OwnDelivery(s, t, OnTime(t, late)) && OnlyStatusMoves(Committed(s), RowsSeen(s, t))
  {
    assert Knows(s, t, OnTime(t, late)) && RowsOk(s.inventory.committed, s.inventory.txs[t]);
  }

  lemma CommitKeepsSales(s: Sales, t: TxId, late: iset<TxId>)
    requires SalesInv(s, late) && t in s.txs && t in s.inventory.txs && s.inventory.txs[t].calls == []
    ensures SalesInv(CommitStep(s, t), late)
  {
    hide RowsInv, Knows, ViewsMove, OthersSame, OwnDelivery, DeliveriesOk, DeliveriesLater;
    KnowsOwn(s, t, late);
    CommitRows(s.inventory, t);
    CommitOthers(s, t, OnTime(t, late));
    CommitDeliveries(s, t, OnTime(t, late));
    StepInv(s, CommitStep(s, t), t, late);
  }

  // ------------------------------------------------------------- every event

  /** Who may expect a version above the one read: anyone, or no one. */
  ghost const ANYONE: iset<TxId> := iset t: TxId | true
  ghost const NO_ONE: iset<TxId> := iset{}

  /** Unless it is one of the late ones, a delivery's call expects at most the version it reads. */
  ghost predicate Timely(s: Sales, e: Event, late: iset<TxId>) {
    e.Advance? && e.t !in late && e.t in s.txs && s.txs[e.t].stage.Begun? && s.txs[e.t].call.MovingDelivery?
    && DeliveryShown(s, s.txs[e.t].call.scope, s.txs[e.t].call.delivery) ==>
      s.txs[e.t].call.expected <= s.deliveries[s.txs[e.t].call.delivery].value.version
  }

  /**
    A repeated creation names the order of the delivery it finds, and a completion's keys are used for
    its rows only.
   */
  ghost predicate Admissible(s: Sales, e: Event) {
    && (e.Inventory? && e.event.Begin? ==> KeysMatch(e.event.calls))
    && (e.Advance? && e.t in s.txs && s.txs[e.t].stage.Begun? && s.txs[e.t].call.Creating? ==>
          var c := s.txs[e.t].call;
          var found := FindRow(s.deliveries, c.scope, c.key, c.order);
          found.Some? ==> s.deliveries[found.value].value.order == c.order)
  }

  ghost predicate AdmissibleRun(s: Sales, events: seq<Event>, late: iset<TxId>)
    decreases |events|
  {
    events != [] ==>
      && Admissible(s, events[0]) && Timely(s, events[0], late)
      && AdmissibleRun(Happen(s, events[0]), events[1..], late)
  }

  lemma AdvanceKeeps(s: Sales, t: TxId, late: iset<TxId>)
    requires SalesInv(s, late) && t in s.txs && t in s.inventory.txs
    requires Admissible(s, Advance(t)) && Timely(s, Advance(t), late)
    ensures SalesInv(AdvanceStep(s, t), late)
  {
    hide SalesInv, Knows, RowsInv;
    if s.inventory.txs[t].calls != [] {
      InnerKeeps(s, t, late);
    } else if s.txs[t].stage.Written? {
      CommitKeepsSales(s, t, late);
    } else {
      match s.txs[t].call
      case Reserving(_, _) => ReservingKeeps(s, t, late);
      case MovingOrder(_, _, _, _) => MovingOrderKeeps(s, t, late);
      case Creating(_, _, _, _) => CreatingKeeps(s, t, late);
      case MovingDelivery(_, _, _, _) => MovingDeliveryKeeps(s, t, late);
    }
  }

  lemma StartOthers(s: Sales, t: TxId, call: Call)
    requires t !in s.txs && t !in s.inventory.txs
    ensures OthersSame(s, Happen(s, Start(t, call)), t)
  {
  }

  lemma StartKeeps(s: Sales, t: TxId, call: Call, late: iset<TxId>)
    requires SalesInv(s, late) && t !in s.txs && t !in s.inventory.txs
    ensures SalesInv(Happen(s, Start(t, call)), late)
  {
    hide RowsInv, ViewsMove, OthersSame;
    var s' := Happen(s, Start(t, call));
    BeginRows(s.inventory, t, []);
    StartOthers(s, t, call);
    SameDeliveries(s.deliveries);
    assert s'.inventory.committed == s.inventory.committed;
    assert Knows(s', t, OnTime(t, late));
    StepInv(s, s', t, late);
  }

  /** Events on orders alone. */
  lemma OrdersAlone(s: Sales, s': Sales, late: iset<TxId>)
    requires SalesInv(s, late) && s' == s.(orders := s'.orders)
    ensures SalesInv(s', late)
  {
    hide RowsInv;
    forall t | t in s'.txs ensures t in s'.inventory.txs && Knows(s', t, OnTime(t, late)) {
      assert Knows(s, t, OnTime(t, late));
    }
  }

  lemma EditKept(s: Sales, s': Sales, d: nat, t: TxId)
    requires d < |s.deliveries| && s.deliveries[d].Some? && s.deliveries[d].value.status == DeliveryStatus.DRAFT
    requires d !in s.deliveryLocks && t in s.txs && t in s.inventory.txs
    requires var now := s.deliveries[d].value;
             s' == s.(deliveries := s.deliveries[d := Some(now.(version := now.version + 1))])
    ensures Kept(s, s', t)
  {
  }

  lemma EditKeeps(s: Sales, s': Sales, d: nat, late: iset<TxId>)
    requires SalesInv(s, late)
    requires d < |s.deliveries| && s.deliveries[d].Some? && s.deliveries[d].value.status == DeliveryStatus.DRAFT
    requires d !in s.deliveryLocks
    requires var now := s.deliveries[d].value;
             s' == s.(deliveries := s.deliveries[d := Some(now.(version := now.version + 1))])
    ensures SalesInv(s', late)
  {
    hide RowsInv, Knows, Kept;
    forall t | t in s'.txs ensures t in s'.inventory.txs && Knows(s', t, OnTime(t, late)) {
      EditKept(s, s', d, t);
      KeptKnows(s, s', t, OnTime(t, late));
    }
    forall n | 0 <= n < |s'.deliveries| && s'.deliveries[n].Some?
      ensures DeliveryOk(Committed(s'), s'.deliveries[n].value)
    {
      assert DeliveryOk(Committed(s), s.deliveries[n].value);
      if n == d {
        CommittedOwn(s, d, s'.deliveries[d].value, late);
      }
    }
  }

  lemma HappenKeeps(s: Sales, e: Event, late: iset<TxId>)
    requires SalesInv(s, late) && Admissible(s, e) && Timely(s, e, late)
    ensures SalesInv(Happen(s, e), late)
  {
    hide SalesInv, Knows, RowsInv;
    match e
    case Inventory(i) => if !OfSales(s, i) { DirectKeeps(s, i, late); }
    case Start(t, call) => if t !in s.txs && t !in s.inventory.txs { StartKeeps(s, t, call, late); }
    case Advance(t) => if t in s.txs && t in s.inventory.txs { AdvanceKeeps(s, t, late); }
    case Abort(t) => EndKeepsSales(s, t, late);
    case NewOrder(_, _, _) => OrdersAlone(s, Happen(s, e), late);
    case DropOrder(_, _) => OrdersAlone(s, Happen(s, e), late);
    case EditOrder(_, _, _) => OrdersAlone(s, Happen(s, e), late);
    case EditDelivery(scope, d, v) =>
      if DeliveryShown(s, scope, d) && s.deliveries[d].value.status == DeliveryStatus.DRAFT && d !in s.deliveryLocks {
        var now := s.deliveries[d].value;
        EditKeeps(s, s.(deliveries := s.deliveries[d := Some(now.(version := now.version + 1))]), d, late);
      }
  }

  lemma {:induction false} ExecKeeps(s: Sales, events: seq<Event>, late: iset<TxId>)
    requires SalesInv(s, late) && AdmissibleRun(s, events, late)
    ensures SalesInv(Exec(s, events), late)
    decreases |events|
  {
    hide SalesInv, Admissible, Timely;
    if events != [] {
      HappenKeeps(s, events[0], late);
      ExecKeeps(Happen(s, events[0]), events[1..], late);
    }
  }

  lemma FromHonest(w: World, late: iset<TxId>)
    requires Honest(w)
    ensures SalesInv(From(w), late)
  {
    var s := From(w);
    forall d | 0 <= d < |s.deliveries| && s.deliveries[d].Some?
      ensures DeliveryOk(Committed(s), s.deliveries[d].value)
    {
      assert DeliveryOk(w.tables.reservations, w.deliveries[d]);
    }
  }
}
