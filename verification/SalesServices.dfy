/**
  The order and delivery services as they work: loops over lines and rows, calling the
  inventory repository in place, with everything undone when a transaction throws.
 */
module SalesServices {
  import opened Wrappers
  import opened InventoryTables
  import opened InventorySpec
  import opened InventoryBySource
  import opened InventoryRepository
  import opened SalesSpec

  class Services {
    const inventory: Repository
    var orders: seq<Order>
    var deliveries: seq<Delivery>

    constructor (inventory: Repository)
      ensures this.inventory == inventory && orders == [] && deliveries == []
    {
      this.inventory := inventory;
      orders, deliveries := [], [];
    }

    function Now(): World
      reads this, inventory
    {
      World(inventory.Now(), orders, deliveries)
    }

    /** ROLLBACK of the outermost transaction. */
    method Rollback(w: World)
      modifies this, inventory
      ensures Now() == w && inventory.catalogue == old(inventory.catalogue)
    {
      inventory.Restore(w.tables);
      orders, deliveries := w.orders, w.deliveries;
    }

    method Reserve(scope: Scope, id: nat) returns (answer: Result<nat, SalesError>)
      modifies this, inventory
      ensures var c := ReserveOrder(old(Now()), inventory.catalogue, scope, id);
              Now() == Settle(old(Now()), c) && answer == Reply(c)
      ensures inventory.catalogue == old(inventory.catalogue)
    {
      var begun := Now();
      if !OrderVisible(begun, scope, id) {
        return Err(NotFound);
      }
      var o := orders[id];
      if o.status != CONFIRMED {
        return Err(NotConfirmed);
      }
      if o.warehouse.None? {
        return Err(NoWarehouse);
      }
      if o.lines == [] || exists n :: 0 <= n < |o.lines| && o.lines[n].item.None? {
        return Err(LineWithoutItem);
      }
      ghost var catalogue := inventory.catalogue;
      var n := 0;
      assert o.lines[0..] == o.lines;
      while n < |o.lines|
        invariant 0 <= n <= |o.lines| && inventory.catalogue == catalogue
        invariant orders == begun.orders && deliveries == begun.deliveries
        invariant ReserveLines(begun.tables, catalogue, scope, id, o.warehouse.value, o.lines)
               == ReserveLines(inventory.Now(), catalogue, scope, id, o.warehouse.value, o.lines[n..])
      {
        assert o.lines[n..][0] == o.lines[n] && o.lines[n..][1..] == o.lines[n + 1..];
        var one := inventory.ReserveStock(LineRequest(scope, id, o.warehouse.value, o.lines[n]));
        if one.Err? {
          Rollback(begun);
          return Err(FromInventory(one.error));
        }
        n := n + 1;
      }
      orders := orders[id := o.(reserved := true, version := o.version + 1)];
      return Ok(id);
    }

    /** The loop of a cancellation: stops at the first release that throws. */
    method ReleaseAll(scope: Scope, id: nat) returns (answer: Result<(), InventoryError>)
      modifies inventory
      ensures answer == Answer(ReleaseOrder(old(inventory.Now()), scope, id))
      ensures answer.Ok? ==> inventory.Now() == ReleaseOrder(old(inventory.Now()), scope, id).tables
      ensures inventory.catalogue == old(inventory.catalogue)
    {
      ghost var begun := inventory.Now();
      var listed := inventory.reservations;
      var ids := SourceRows(listed, OrderSource(scope, id));
      var n := 0;
      assert ids[0..] == ids;
      while n < |ids|
        invariant 0 <= n <= |ids| && inventory.catalogue == old(inventory.catalogue)
        invariant RowsExist(listed, ids) && RowsExist(listed, ids[n..])
        invariant ReleaseListed(begun, scope, listed, ids) == ReleaseListed(inventory.Now(), scope, listed, ids[n..])
      {
        assert ids[n..][0] == ids[n] && ids[n..][1..] == ids[n + 1..];
        if listed[ids[n]].value.status == RESERVED {
          var one := inventory.ReleaseReservation(Release(scope, ids[n]));
          if one.Err? {
            return Err(one.error);
          }
        }
        n := n + 1;
      }
      return Ok(());
    }

    method TransitionOrder(scope: Scope, id: nat, to: OrderStatus, expected: int)
      returns (answer: Result<nat, SalesError>)
      modifies this, inventory
      ensures var c := MoveOrder(old(Now()), scope, id, to, expected);
              Now() == Settle(old(Now()), c) && answer == Reply(c)
      ensures inventory.catalogue == old(inventory.catalogue)
    {
      var begun := Now();
      if expected < 1 {
        return Err(InvalidVersion);
      }
      if !OrderVisible(begun, scope, id) {
        return Err(NotFound);
      }
      if !OrderMoves(orders[id].status, to) {
        return Err(WrongTransition);
      }
      var transitionVersion := expected;
      if to == OrderStatus.CANCELLED && orders[id].reserved {
        var released := ReleaseAll(scope, id);
        if released.Err? {
          Rollback(begun);
          return Err(FromInventory(released.error));
        }
        orders := orders[id := orders[id].(reserved := false, version := orders[id].version + 1)];
        transitionVersion := transitionVersion + 1;
      }
      if orders[id].version != transitionVersion {
        Rollback(begun);
        return Err(VersionConflict);
      }
      orders := orders[id := orders[id].(status := to, version := orders[id].version + 1)];
      return Ok(id);
    }

    method CreateDelivery(scope: Scope, order: nat, key: string, allowReplay: bool)
      returns (answer: Result<nat, SalesError>)
      modifies this, inventory
      ensures var c := SalesSpec.CreateDelivery(old(Now()), scope, order, key, allowReplay);
              Now() == Settle(old(Now()), c) && answer == Reply(c)
      ensures inventory.catalogue == old(inventory.catalogue)
    {
      var begun := Now();
      var started := OpenDelivery(begun, scope, order, key, allowReplay);
      if started.Refused? {
        return Err(started.error);
      }
      deliveries := started.world.deliveries;
      var rows := inventory.reservations;
      var ids := SourceRows(rows, OrderSource(scope, order));
      if ids == [] || !AllReserved(rows, ids) {
        Rollback(begun);
        return Err(NeedsActiveReservations);
      }
      var references := MatchLines(rows, ids, deliveries[started.id].lines);
      if references.None? {
        Rollback(begun);
        return Err(NoMatchingReservation);
      }
      if deliveries[started.id].status != DeliveryStatus.DRAFT {
        Rollback(begun);
        return Err(NotDraft);
      }
      var attached := AttachReservationReferences(started.id, references.value);
      if !attached {
        Rollback(begun);
        return Err(RowReferredTo);
      }
      return Ok(started.id);
    }

    /** Each line's first listed row of the same item; the first line without one throws. */
    method MatchLines(rows: seq<Option<Reservation>>, ids: seq<nat>, lines: seq<DeliveryLine>)
      returns (references: Option<seq<DeliveryLine>>)
      requires RowsExist(rows, ids)
      ensures references.Some? <==> AllMatched(rows, ids, lines)
      ensures references.Some? ==> references.value == LinkLines(rows, ids, lines)
    {
      var linked: seq<DeliveryLine> := [];
      for n := 0 to |lines|
        invariant |linked| == n
        invariant forall m :: 0 <= m < n ==>
          LineMatched(rows, ids, lines[m]) && linked[m] == LinkLine(rows, ids, lines[m])
      {
        if !LineMatched(rows, ids, lines[n]) {
          return None;
        }
        linked := linked + [LinkLine(rows, ids, lines[n])];
      }
      assert linked == LinkLines(rows, ids, lines);
      return Some(linked);
    }

    /** The update of the delivery's own row, then of its lines. */
    method AttachReservationReferences(id: nat, references: seq<DeliveryLine>) returns (attached: bool)
      requires id < |deliveries| && |references| == |deliveries[id].lines| && AllLinked(references)
      modifies this`deliveries
      ensures attached == Attach(old(deliveries), id, references, 0).Some?
      ensures attached ==>
        var d := old(deliveries)[id];
        deliveries == old(deliveries)[id := d.(lines := references, version := d.version + 1)]
    {
      var d := deliveries[id];
      Attachments(deliveries, id, references, d.version + 1, 0);
      deliveries := AtVersion(deliveries, id, d.version + 1);
      attached := AttachReferences(id, references);
      if attached {
        assert d.lines[..0] + references[0..] == references;
        assert deliveries == old(deliveries)[id := d.(lines := references, version := d.version + 1)];
      }
    }

    /** The loop of line updates, each subject to the unique index. */
    method AttachReferences(id: nat, references: seq<DeliveryLine>) returns (attached: bool)
      requires id < |deliveries| && |references| == |deliveries[id].lines| && AllLinked(references)
      modifies this`deliveries
      ensures var r := Attach(old(deliveries), id, references, 0);
              attached == r.Some? && (attached ==> deliveries == r.value)
    {
      var n := 0;
      while n < |references|
        invariant |deliveries| == |old(deliveries)| && 0 <= n <= |references| == |deliveries[id].lines|
        invariant Attach(old(deliveries), id, references, 0) == Attach(deliveries, id, references, n)
      {
        if RowTaken(deliveries, id, n, references[n].reservation.value) {
          return false;
        }
        deliveries := WithLine(deliveries, id, n, references[n]);
        n := n + 1;
      }
      return true;
    }

    method TransitionDelivery(scope: Scope, id: nat, to: DeliveryStatus, expected: int)
      returns (answer: Result<nat, SalesError>)
      modifies this, inventory
      ensures var c := MoveDelivery(old(Now()), scope, id, to, expected);
              Now() == Settle(old(Now()), c) && answer == Reply(c)
      ensures inventory.catalogue == old(inventory.catalogue)
    {
      var begun := Now();
      if expected < 1 {
        return Err(InvalidVersion);
      }
      if !DeliveryVisible(begun, scope, id) {
        return Err(NotFound);
      }
      var d := deliveries[id];
      if !DeliveryMoves(d.status, to) {
        return Err(WrongTransition);
      }
      if to == COMPLETED {
        if d.lines == [] || exists n :: 0 <= n < |d.lines| && d.lines[n].reservation.None? {
          return Err(ReferencesRequired);
        }
        var all := inventory.FulfillReservationsBySource(OrderSource(scope, d.order), DeliveryKey(id));
        if all.Err? {
          return Err(FromInventory(all.error));
        }
      }
      if d.version != expected {
        Rollback(begun);
        return Err(VersionConflict);
      }
      deliveries := deliveries[id := d.(status := to, version := d.version + 1)];
      return Ok(id);
    }
  }

  function AtVersion(ds: seq<Delivery>, id: nat, version: nat): seq<Delivery>
    requires id < |ds|
  {
    ds[id := ds[id].(version := version)]
  }

  /** The index looks at lines only, so the version written first does not matter to it. */
  lemma {:induction false} Attachments(ds: seq<Delivery>, id: nat, linked: seq<DeliveryLine>, version: nat, n: nat)
    requires id < |ds| && |linked| == |ds[id].lines| && n <= |linked| && AllLinked(linked)
    ensures Attach(AtVersion(ds, id, version), id, linked, n).Some? <==> Attach(ds, id, linked, n).Some?
    decreases |linked| - n
  {
    if n < |linked| {
      var i := linked[n].reservation.value;
      var ds' := AtVersion(ds, id, version);
      assert forall e :: 0 <= e < |ds| ==> ds'[e].lines == ds[e].lines && ds'[e].scope == ds[e].scope;
      assert RowTaken(ds', id, n, i) <==> RowTaken(ds, id, n, i);
      assert WithLine(ds', id, n, linked[n]) == AtVersion(WithLine(ds, id, n, linked[n]), id, version);
      Attachments(WithLine(ds, id, n, linked[n]), id, linked, version, n + 1);
    }
  }

  function Reply(c: Change): Result<nat, SalesError> {
    if c.Made? then Ok(c.id) else Err(c.error)
  }
}
