/**
  What each inventory call does to the tables when it runs alone, and what every
  run of such calls keeps.
 */
module InventorySpec {
  import opened Wrappers
  import opened InventoryTables

  /** A call either commits new tables with its answer, or throws and is rolled back. */
  datatype Outcome<+T> = Done(tables: Tables, value: T) | Failed(error: InventoryError)

  function After<T>(before: Tables, o: Outcome<T>): Tables {
    if o.Done? then o.tables else before
  }

  function Answer<T>(o: Outcome<T>): Result<T, InventoryError> {
    if o.Done? then Ok(o.value) else Err(o.error)
  }

  datatype Request =
    | Receive(scope: Scope, warehouse: Uuid, item: Uuid, quantity: Quantity, key: OperationKey)
    | Return(scope: Scope, warehouse: Uuid, item: Uuid, quantity: Quantity, key: OperationKey)
    | Reserve(source: Source, warehouse: Uuid, item: Uuid, quantity: Quantity)
    | Release(scope: Scope, reservation: nat)
    | Fulfil(scope: Scope, reservation: nat, key: OperationKey)

  function CheckCatalogue(c: Catalogue, tenant: Uuid, warehouse: Uuid, item: Uuid): Option<InventoryError> {
    if (tenant, warehouse) !in c.warehouses then Some(InactiveWarehouse)
    else if (tenant, item) !in c.items then Some(IneligibleItem)
    else None
  }

  function EnsureStock(stock: map<StockKey, StockRow>, k: StockKey): map<StockKey, StockRow> {
    if k in stock then stock else stock[k := StockRow(0, 0)]
  }

  function Deposited(t: Tables, m: Movement): Tables {
    var row := StockAt(t.stock, m.Key());
    t.(stock := t.stock[m.Key() := row.(onHand := row.onHand + m.quantity)], movements := t.movements + [m])
  }

  function ReceiveStock(t: Tables, c: Catalogue, r: Request): Outcome<StockRow>
    requires r.Receive?
  {
    var k := StockKey(r.scope.tenant, r.warehouse, r.item);
    if r.quantity <= 0 then Failed(InvalidQuantity)
    else if FindMovement(t.movements, r.scope, r.key).Some? then
      if k in t.stock then Done(t, t.stock[k]) else Failed(StockRowMissing)
    else
      var refused := CheckCatalogue(c, r.scope.tenant, r.warehouse, r.item);
      if refused.Some? then Failed(refused.value)
      else
        var t' := Deposited(t, Movement(r.scope, r.warehouse, r.item, RECEIPT, r.quantity, r.key));
        Done(t', t'.stock[k])
  }

  function ReturnStock(t: Tables, c: Catalogue, r: Request): Outcome<Movement>
    requires r.Return?
  {
    var prior := FindMovement(t.movements, r.scope, r.key);
    if r.quantity <= 0 then Failed(InvalidQuantity)
    else if prior.Some? then Done(t, prior.value)
    else
      var refused := CheckCatalogue(c, r.scope.tenant, r.warehouse, r.item);
      if refused.Some? then Failed(refused.value)
      else
        var m := Movement(r.scope, r.warehouse, r.item, RETURN, r.quantity, r.key);
        Done(Deposited(t, m), m)
  }

  function ReserveStock(t: Tables, c: Catalogue, r: Request): Outcome<nat>
    requires r.Reserve?
  {
    var k := StockKey(r.source.scope.tenant, r.warehouse, r.item);
    var prior := FindReservation(t.reservations, r.source, r.item);
    if r.quantity <= 0 then Failed(InvalidQuantity)
    else if prior.Some? then
      if t.reservations[prior.value].value.quantity == r.quantity then
        Done(t, prior.value) else Failed(QuantityMismatch)
    else
      var refused := CheckCatalogue(c, r.source.scope.tenant, r.warehouse, r.item);
      if refused.Some? then Failed(refused.value)
      else
        var row := StockAt(t.stock, k);
        if row.onHand - row.reserved < r.quantity then Failed(InsufficientAvailable)
        else
          var made := Reservation(r.source, r.warehouse, r.item, r.quantity, RESERVED);
          Done(
            t.(stock := t.stock[k := row.(reserved := row.reserved + r.quantity)],
               reservations := t.reservations + [Some(made)]),
            |t.reservations|)
  }

  /** `lockReservation`: the row must exist in the caller's tenant, branch and year. */
  predicate Visible(t: Tables, scope: Scope, i: nat) {
    i < |t.reservations| && t.reservations[i].Some? && t.reservations[i].value.source.scope == scope
  }

  function ReleaseReservation(t: Tables, r: Request): Outcome<nat>
    requires r.Release?
  {
    if !Visible(t, r.scope, r.reservation) then Failed(ReservationNotFound)
    else
      var row := t.reservations[r.reservation].value;
      if row.status == RELEASED then Done(t, r.reservation)
      else if row.status == FULFILLED then Failed(AlreadyFulfilled)
      else
        var k := row.Key();
        // The update has no guard; without a stock row it changes nothing.
        var stock := if k in t.stock
                     then t.stock[k := t.stock[k].(reserved := t.stock[k].reserved - row.quantity)]
                     else t.stock;
        Done(t.(stock := stock, reservations := t.reservations[r.reservation := Some(row.(status := RELEASED))]),
             r.reservation)
  }

  function FulfillReservation(t: Tables, r: Request): Outcome<nat>
    requires r.Fulfil?
  {
    if !Visible(t, r.scope, r.reservation) then Failed(ReservationNotFound)
    else
      var row := t.reservations[r.reservation].value;
      if row.status == FULFILLED then Done(t, r.reservation)
      else if row.status == RELEASED then Failed(AlreadyReleased)
      else if FindMovement(t.movements, r.scope, r.key).Some? then Done(t, r.reservation)
      else
        var k := row.Key();
        if k !in t.stock || t.stock[k].onHand < row.quantity || t.stock[k].reserved < row.quantity then
          Failed(InsufficientReserved)
        else
          Done(Issued(t, r), r.reservation)
  }

  /** The tables after an issue that passed every check. */
  function Issued(t: Tables, r: Request): Tables
    requires r.Fulfil? && Visible(t, r.scope, r.reservation)
    requires t.reservations[r.reservation].value.Key() in t.stock
  {
    var row := t.reservations[r.reservation].value;
    var before := t.stock[row.Key()];
    Tables(
      t.stock[row.Key() := StockRow(before.onHand - row.quantity, before.reserved - row.quantity)],
      t.reservations[r.reservation := Some(row.(status := FULFILLED))],
      t.movements + [Movement(r.scope, row.warehouse, row.item, ISSUE, row.quantity, r.key)])
  }

  /** The tables after any one call. */
  function Apply(t: Tables, c: Catalogue, r: Request): Tables {
    match r
    case Receive(_, _, _, _, _) => After(t, ReceiveStock(t, c, r))
    case Return(_, _, _, _, _) => After(t, ReturnStock(t, c, r))
    case Reserve(_, _, _, _) => After(t, ReserveStock(t, c, r))
    case Release(_, _) => After(t, ReleaseReservation(t, r))
    case Fulfil(_, _, _) => After(t, FulfillReservation(t, r))
  }

  /** A run: each call sees the catalogue as it is at that time. */
  function Run(t: Tables, calls: seq<(Catalogue, Request)>): Tables
    decreases |calls|
  {
    if calls == [] then t else Run(Apply(t, calls[0].0, calls[0].1), calls[1..])
  }

  // ------------------------------------------------------------ every step

  lemma DepositBalancedAt(t: Tables, m: Movement, k: StockKey)
    requires BalancedAt(t, k) && BalancedAt(t, m.Key()) && m.kind != ISSUE && m.quantity > 0
    ensures BalancedAt(Deposited(t, m), k)
  {
    NetAppend(t.movements, m, k);
    var t' := Deposited(t, m);
    assert StockAt(t'.stock, k) ==
      if k == m.Key() then
        StockAt(t.stock, k).(onHand := StockAt(t.stock, k).onHand + m.quantity) else StockAt(t.stock, k);
  }

  lemma DepositKeepsBalance(t: Tables, m: Movement)
    requires Balanced(t) && m.kind != ISSUE && m.quantity > 0
    ensures Balanced(Deposited(t, m))
  {
    forall k ensures BalancedAt(Deposited(t, m), k) {
      DepositBalancedAt(t, m, k);
    }
  }

  lemma ReserveKeepsBalance(t: Tables, c: Catalogue, r: Request)
    requires Balanced(t) && r.Reserve?
    ensures Balanced(After(t, ReserveStock(t, c, r)))
  {
    var o := ReserveStock(t, c, r);
    if o.Done? && o.tables != t {
      var made := Some(Reservation(r.source, r.warehouse, r.item, r.quantity, RESERVED));
      forall k ensures BalancedAt(o.tables, k) {
        assert BalancedAt(t, k);
        ClaimedAppend(t.reservations, made, k);
      }
    }
  }

  /** A RESERVED row's quantity is covered by its stock row, so that row exists. */
  lemma ReservedIsCovered(t: Tables, i: nat)
    requires Balanced(t) && i < |t.reservations| && t.reservations[i].Some?
    requires t.reservations[i].value.status == RESERVED
    ensures var row := t.reservations[i].value;
            row.Key() in t.stock && row.quantity <= t.stock[row.Key()].reserved <= t.stock[row.Key()].onHand
  {
    var k := t.reservations[i].value.Key();
    assert BalancedAt(t, k);
    ClaimedAtLeast(t.reservations, i, k);
  }

  lemma ReleaseKeepsBalance(t: Tables, r: Request)
    requires Balanced(t) && r.Release?
    ensures Balanced(After(t, ReleaseReservation(t, r)))
  {
    var o := ReleaseReservation(t, r);
    if o.Done? && o.tables != t {
      var row := t.reservations[r.reservation].value;
      ReservedIsCovered(t, r.reservation);
      forall k ensures BalancedAt(o.tables, k) {
        assert BalancedAt(t, k);
        ClaimedUpdate(t.reservations, r.reservation, Some(row.(status := RELEASED)), k);
      }
    }
  }

  lemma FulfilKeepsBalance(t: Tables, r: Request)
    requires Balanced(t) && r.Fulfil?
    ensures Balanced(After(t, FulfillReservation(t, r)))
  {
    var o := FulfillReservation(t, r);
    if o.Done? && o.tables != t {
      var row := t.reservations[r.reservation].value;
      ReservedIsCovered(t, r.reservation);
      forall k ensures BalancedAt(o.tables, k) {
        assert BalancedAt(t, k);
        ClaimedUpdate(t.reservations, r.reservation, Some(row.(status := FULFILLED)), k);
        NetAppend(t.movements, Movement(r.scope, row.warehouse, row.item, ISSUE, row.quantity, r.key), k);
      }
    }
  }

  lemma ApplyKeepsBalance(t: Tables, c: Catalogue, r: Request)
    requires Balanced(t)
    ensures Balanced(Apply(t, c, r))
  {
    match r
    case Receive(s, w, i, q, key) =>
      if ReceiveStock(t, c, r).Done? && Apply(t, c, r) != t {
        DepositKeepsBalance(t, Movement(s, w, i, RECEIPT, q, key));
      }
    case Return(s, w, i, q, key) =>
      if ReturnStock(t, c, r).Done? && Apply(t, c, r) != t {
        DepositKeepsBalance(t, Movement(s, w, i, RETURN, q, key));
      }
    case Reserve(_, _, _, _) => ReserveKeepsBalance(t, c, r);
    case Release(_, _) => ReleaseKeepsBalance(t, r);
    case Fulfil(_, _, _) => FulfilKeepsBalance(t, r);
  }

  lemma ApplyKeepsOneRowPerSource(t: Tables, c: Catalogue, r: Request)
    requires OneRowPerSource(t.reservations)
    ensures OneRowPerSource(Apply(t, c, r).reservations)
  {
    if r.Reserve? && ReserveStock(t, c, r).Done? {
      var rows := Apply(t, c, r).reservations;
      forall i, j | 0 <= i < j < |rows| && rows[i].Some? && rows[j].Some?
        ensures rows[i].value.source != rows[j].value.source || rows[i].value.item != rows[j].value.item
      {
        if j == |t.reservations| {
          assert !Matches(t.reservations[i], r.source, r.item);
        }
      }
    }
  }

  // ------------------------------------------------------------- every run

  /** From empty tables, whatever the calls, the three tables agree. */
  lemma {:induction false} EveryRunBalances(t: Tables, calls: seq<(Catalogue, Request)>)
    requires Balanced(t) && OneRowPerSource(t.reservations)
    ensures Balanced(Run(t, calls)) && OneRowPerSource(Run(t, calls).reservations)
    decreases |calls|
  {
    if calls != [] {
      ApplyKeepsBalance(t, calls[0].0, calls[0].1);
      ApplyKeepsOneRowPerSource(t, calls[0].0, calls[0].1);
      EveryRunBalances(Apply(t, calls[0].0, calls[0].1), calls[1..]);
    }
  }

  lemma EmptyIsBalanced()
    ensures Balanced(EMPTY) && OneRowPerSource(EMPTY.reservations)
  {
    forall k ensures BalancedAt(EMPTY, k) {}
  }

  /** The throw that guards an issue is never reached, and no release goes below zero. */
  lemma FulfilNeverShort(calls: seq<(Catalogue, Request)>, r: Request)
    ensures r.Fulfil? ==> FulfillReservation(Run(EMPTY, calls), r) != Failed(InsufficientReserved)
    ensures r.Release? && ReleaseReservation(Run(EMPTY, calls), r).Done? ==>
              forall k :: StockAt(ReleaseReservation(Run(EMPTY, calls), r).tables.stock, k).reserved >= 0
  {
    EmptyIsBalanced();
    EveryRunBalances(EMPTY, calls);
    var t := Run(EMPTY, calls);
    if r.Fulfil? && Visible(t, r.scope, r.reservation) && t.reservations[r.reservation].value.status == RESERVED {
      ReservedIsCovered(t, r.reservation);
    }
    if r.Release? && ReleaseReservation(t, r).Done? {
      ReleaseKeepsBalance(t, r);
      forall k ensures StockAt(ReleaseReservation(t, r).tables.stock, k).reserved >= 0 {
        assert BalancedAt(ReleaseReservation(t, r).tables, k);
      }
    }
  }

  // --------------------------------------------------------------- replays

  ghost predicate Replays(r: Request, scope: Scope, key: OperationKey) {
    (r.Receive? || r.Return? || r.Fulfil?) && r.scope.tenant == scope.tenant && r.scope.branch == scope.branch
      && r.key == key
  }

  lemma {:induction false} KeysStayUsed(t: Tables, calls: seq<(Catalogue, Request)>, scope: Scope, key: OperationKey)
    requires KeyUsed(t.movements, scope, key)
    ensures KeyUsed(Run(t, calls).movements, scope, key)
    decreases |calls|
  {
    if calls != [] {
      var t' := Apply(t, calls[0].0, calls[0].1);
      assert t.movements <= t'.movements;
      var j :| 0 <= j < |t.movements| && SameOperation(t.movements[j], scope, key);
      assert SameOperation(t'.movements[j], scope, key);
      KeysStayUsed(t', calls[1..], scope, key);
    }
  }

  /** What a call must record for its key to count as used. */
  lemma MovementRecordsKey(t: Tables, c: Catalogue, r: Request)
    requires r.Receive? || r.Return? || r.Fulfil?
    requires Apply(t, c, r) != t
    ensures KeyUsed(Apply(t, c, r).movements, r.scope, r.key)
  {
    var log := Apply(t, c, r).movements;
    assert SameOperation(log[|log| - 1], r.scope, r.key);
  }

  /**
    Once a receive, return or issue changed anything, the same tenant, branch and key
    changes nothing again: not at once, not after any later calls, whatever else the
    repeated request says.
   */
  lemma ReplayChangesNothing(
    t: Tables, c: Catalogue, r: Request, later: seq<(Catalogue, Request)>, c': Catalogue, again: Request)
    requires (r.Receive? || r.Return? || r.Fulfil?) && Apply(t, c, r) != t
    requires Replays(again, r.scope, r.key)
    ensures var t' := Run(Apply(t, c, r), later); Apply(t', c', again) == t'
  {
    MovementRecordsKey(t, c, r);
    KeysStayUsed(Apply(t, c, r), later, r.scope, r.key);
    var t' := Run(Apply(t, c, r), later);
    SameKeyUsed(t'.movements, r.scope, again.scope, r.key);
  }

  lemma SameKeyUsed(log: seq<Movement>, a: Scope, b: Scope, key: OperationKey)
    requires a.tenant == b.tenant && a.branch == b.branch && KeyUsed(log, a, key)
    ensures KeyUsed(log, b, key)
  {
    var j :| 0 <= j < |log| && SameOperation(log[j], a, key);
    assert SameOperation(log[j], b, key);
  }
}
