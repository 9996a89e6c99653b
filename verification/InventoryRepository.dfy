/**
  The repository as it works on its tables: statement by statement, in place, with
  the rollback of whatever was written when a call throws.
 */
module InventoryRepository {
  import opened Wrappers
  import opened InventoryTables
  import opened InventorySpec
  import opened InventoryBySource

  class Repository {
    var stock: map<StockKey, StockRow>
    var reservations: seq<Option<Reservation>>
    var movements: seq<Movement>
    var catalogue: Catalogue

    constructor (catalogue: Catalogue)
      ensures Now() == EMPTY && this.catalogue == catalogue
    {
      stock, reservations, movements := map[], [], [];
      this.catalogue := catalogue;
    }

    function Now(): Tables
      reads this
    {
      Tables(stock, reservations, movements)
    }

    /** ROLLBACK to the tables the transaction began with. */
    method Restore(t: Tables)
      modifies this
      ensures Now() == t && catalogue == old(catalogue)
    {
      stock, reservations, movements := t.stock, t.reservations, t.movements;
    }

    method ReceiveStock(r: Request) returns (answer: Result<StockRow, InventoryError>)
      requires r.Receive?
      modifies this
      ensures var o := InventorySpec.ReceiveStock(old(Now()), catalogue, r);
              Now() == After(old(Now()), o) && answer == Answer(o)
      ensures catalogue == old(catalogue)
      ensures old(Balanced(Now())) ==> Balanced(Now())
    {
      var begun := Now();
      var k := StockKey(r.scope.tenant, r.warehouse, r.item);
      if r.quantity <= 0 {
        return Err(InvalidQuantity);
      }
      var existing := FindMovement(movements, r.scope, r.key);
      if existing.Some? {
        if k !in stock {
          return Err(StockRowMissing);
        }
        return Ok(stock[k]);
      }
      var refused := CheckCatalogue(catalogue, r.scope.tenant, r.warehouse, r.item);
      if refused.Some? {
        return Err(refused.value);
      }
      stock := EnsureStock(stock, k);
      stock := stock[k := stock[k].(onHand := stock[k].onHand + r.quantity)];
      movements := movements + [Movement(r.scope, r.warehouse, r.item, RECEIPT, r.quantity, r.key)];
      if Balanced(begun) {
        DepositKeepsBalance(begun, Movement(r.scope, r.warehouse, r.item, RECEIPT, r.quantity, r.key));
      }
      return Ok(stock[k]);
    }

    method ReturnStock(r: Request) returns (answer: Result<Movement, InventoryError>)
      requires r.Return?
      modifies this
      ensures var o := InventorySpec.ReturnStock(old(Now()), catalogue, r);
              Now() == After(old(Now()), o) && answer == Answer(o)
      ensures catalogue == old(catalogue)
      ensures old(Balanced(Now())) ==> Balanced(Now())
    {
      var begun := Now();
      var k := StockKey(r.scope.tenant, r.warehouse, r.item);
      if r.quantity <= 0 {
        return Err(InvalidQuantity);
      }
      var prior := FindMovement(movements, r.scope, r.key);
      if prior.Some? {
        return Ok(prior.value);
      }
      var refused := CheckCatalogue(catalogue, r.scope.tenant, r.warehouse, r.item);
      if refused.Some? {
        return Err(refused.value);
      }
      stock := EnsureStock(stock, k);
      stock := stock[k := stock[k].(onHand := stock[k].onHand + r.quantity)];
      var m := Movement(r.scope, r.warehouse, r.item, RETURN, r.quantity, r.key);
      movements := movements + [m];
      if Balanced(begun) {
        DepositKeepsBalance(begun, m);
      }
      return Ok(m);
    }

    method ReserveStock(r: Request) returns (answer: Result<nat, InventoryError>)
      requires r.Reserve?
      modifies this
      ensures var o := InventorySpec.ReserveStock(old(Now()), catalogue, r);
              Now() == After(old(Now()), o) && answer == Answer(o)
      ensures catalogue == old(catalogue)
      ensures old(Balanced(Now())) ==> Balanced(Now())
    {
      var begun := Now();
      var k := StockKey(r.source.scope.tenant, r.warehouse, r.item);
      if r.quantity <= 0 {
        return Err(InvalidQuantity);
      }
      var prior := FindReservation(reservations, r.source, r.item);
      if prior.Some? {
        if reservations[prior.value].value.quantity != r.quantity {
          return Err(QuantityMismatch);
        }
        return Ok(prior.value);
      }
      var refused := CheckCatalogue(catalogue, r.source.scope.tenant, r.warehouse, r.item);
      if refused.Some? {
        return Err(refused.value);
      }
      stock := EnsureStock(stock, k);
      var row := stock[k];
      if row.onHand - row.reserved < r.quantity {
        Restore(begun);
        return Err(InsufficientAvailable);
      }
      stock := stock[k := row.(reserved := row.reserved + r.quantity)];
      reservations := reservations + [Some(Reservation(r.source, r.warehouse, r.item, r.quantity, RESERVED))];
      if Balanced(begun) {
        ReserveKeepsBalance(begun, catalogue, r);
      }
      return Ok(|reservations| - 1);
    }

    method ReleaseReservation(r: Request) returns (answer: Result<nat, InventoryError>)
      requires r.Release?
      modifies this
      ensures var o := InventorySpec.ReleaseReservation(old(Now()), r);
              Now() == After(old(Now()), o) && answer == Answer(o)
      ensures catalogue == old(catalogue)
      ensures old(Balanced(Now())) ==> Balanced(Now())
    {
      var begun := Now();
      if !Visible(begun, r.scope, r.reservation) {
        return Err(ReservationNotFound);
      }
      var row := reservations[r.reservation].value;
      if row.status == RELEASED {
        return Ok(r.reservation);
      }
      if row.status == FULFILLED {
        return Err(AlreadyFulfilled);
      }
      var k := row.Key();
      if k in stock {
        stock := stock[k := stock[k].(reserved := stock[k].reserved - row.quantity)];
      }
      reservations := reservations[r.reservation := Some(row.(status := RELEASED))];
      if Balanced(begun) {
        ReleaseKeepsBalance(begun, r);
      }
      return Ok(r.reservation);
    }

    /** With balanced tables the last throw is never reached. */
    method FulfillReservation(r: Request) returns (answer: Result<nat, InventoryError>)
      requires r.Fulfil?
      modifies this
      ensures var o := InventorySpec.FulfillReservation(old(Now()), r);
              Now() == After(old(Now()), o) && answer == Answer(o)
      ensures catalogue == old(catalogue)
      ensures old(Balanced(Now())) ==> Balanced(Now()) && answer != Err(InsufficientReserved)
    {
      var begun := Now();
      if !Visible(begun, r.scope, r.reservation) {
        return Err(ReservationNotFound);
      }
      var row := reservations[r.reservation].value;
      if row.status == FULFILLED {
        return Ok(r.reservation);
      }
      if row.status == RELEASED {
        return Err(AlreadyReleased);
      }
      if FindMovement(movements, r.scope, r.key).Some? {
        return Ok(r.reservation);
      }
      if Balanced(begun) {
        ReservedIsCovered(begun, r.reservation);
        FulfilKeepsBalance(begun, r);
      }
      var k := row.Key();
      if k !in stock || stock[k].onHand < row.quantity || stock[k].reserved < row.quantity {
        return Err(InsufficientReserved);
      }
      stock := stock[k := StockRow(stock[k].onHand - row.quantity, stock[k].reserved - row.quantity)];
      movements := movements + [Movement(r.scope, row.warehouse, row.item, ISSUE, row.quantity, r.key)];
      reservations := reservations[r.reservation := Some(row.(status := FULFILLED))];
      return Ok(r.reservation);
    }

    method FulfillReservationsBySource(source: Source, operation: OperationKey)
      returns (answer: Result<seq<nat>, InventoryError>)
      modifies this
      ensures var o := FulfillBySource(old(Now()), source, operation);
              Now() == After(old(Now()), o) && answer == Answer(o)
      ensures catalogue == old(catalogue)
    {
      var begun := Now();
      var ids := SourceRows(reservations, source);
      if ids == [] {
        return Err(NoReservations);
      }
      ghost var whole := FulfillRows(begun, source.scope, ids, operation);
      var results: seq<nat> := [];
      var n := 0;
      ExtendsStart(begun, source.scope, ids, operation);
      while n < |ids|
        invariant 0 <= n <= |ids| && catalogue == old(catalogue)
        invariant Extends(whole, results, FulfillRows(Now(), source.scope, ids[n..], operation))
      {
        ExtendsStep(whole, results, Now(), source.scope, ids, n, operation);
        var one := FulfillReservation(Fulfil(source.scope, ids[n], RowKey(operation, ids[n])));
        if one.Err? {
          Restore(begun);
          return Err(one.error);
        }
        results := results + [one.value];
        n := n + 1;
      }
      ExtendsEnd(whole, results, Now(), source.scope, ids, operation);
      return Ok(results);
    }
  }

  lemma ExtendsStart(t: Tables, scope: Scope, ids: seq<nat>, base: OperationKey)
    ensures Extends(FulfillRows(t, scope, ids, base), [], FulfillRows(t, scope, ids[0..], base))
  {
    var whole := FulfillRows(t, scope, ids, base);
    assert ids[0..] == ids && (whole.Done? ==> [] + whole.value == whole.value);
  }

  lemma ExtendsEnd(
    whole: Outcome<seq<nat>>, results: seq<nat>, t: Tables, scope: Scope, ids: seq<nat>, base: OperationKey)
    requires Extends(whole, results, FulfillRows(t, scope, ids[|ids|..], base))
    ensures whole == Done(t, results)
  {
    assert ids[|ids|..] == [] && results + [] == results;
  }

  lemma ExtendsStep(
    whole: Outcome<seq<nat>>, results: seq<nat>, t: Tables, scope: Scope, ids: seq<nat>, n: nat, base: OperationKey)
    requires n < |ids| && Extends(whole, results, FulfillRows(t, scope, ids[n..], base))
    ensures var one := InventorySpec.FulfillReservation(t, Fulfil(scope, ids[n], RowKey(base, ids[n])));
            if one.Failed? then whole == Failed(one.error)
            else Extends(whole, results + [one.value], FulfillRows(one.tables, scope, ids[n + 1..], base))
  {
    var one := InventorySpec.FulfillReservation(t, Fulfil(scope, ids[n], RowKey(base, ids[n])));
    assert ids[n..][1..] == ids[n + 1..];
    if one.Done? {
      var rest := FulfillRows(one.tables, scope, ids[n + 1..], base);
      if rest.Done? {
        assert results + [one.value] + rest.value == results + ([one.value] + rest.value);
      }
    }
  }

  /** The outcome of a whole loop, given the results so far and the outcome of the rest. */
  ghost predicate Extends(whole: Outcome<seq<nat>>, results: seq<nat>, rest: Outcome<seq<nat>>) {
    if rest.Failed? then whole == rest else whole == Done(rest.tables, results + rest.value)
  }
}
