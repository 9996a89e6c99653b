/**
  The three inventory tables and the transactions over them: stock rows,
  reservations and the append-only movement log.

  A reservation's identifier is its position in the table.  A position can be
  `None`: a row that some transaction has inserted but not committed.  Quantities
  count ten-thousandths, the scale of the stored columns.
 */
module InventoryTables {
  import opened Wrappers

  type Uuid = nat
  type Quantity = int

  datatype Scope = Scope(tenant: Uuid, branch: Uuid, year: Uuid)

  /** The document a reservation is made for. */
  datatype Source = Source(scope: Scope, kind: string, document: Uuid)

  datatype StockKey = StockKey(tenant: Uuid, warehouse: Uuid, item: Uuid)

  datatype StockRow = StockRow(onHand: Quantity, reserved: Quantity)

  datatype ReservationStatus = RESERVED | RELEASED | FULFILLED

  datatype Reservation = Reservation(
    source: Source, warehouse: Uuid, item: Uuid, quantity: Quantity, status: ReservationStatus)
  {
    function Key(): StockKey { StockKey(source.scope.tenant, warehouse, item) }
  }

  datatype MovementKind = RECEIPT | ISSUE | RETURN

  /**
    Operation keys keep the structure their text has in the original: a caller's
    own text, `sales-delivery:<id>`, and a key extended by `:<reservation id>`.
   */
  datatype OperationKey =
    | CallerKey(text: string)
    | DeliveryKey(delivery: Uuid)
    | RowKey(base: OperationKey, reservation: nat)

  datatype Movement = Movement(
    scope: Scope, warehouse: Uuid, item: Uuid, kind: MovementKind, quantity: Quantity, key: OperationKey)
  {
    function Key(): StockKey { StockKey(scope.tenant, warehouse, item) }

    /** What the movement adds to the stock on hand. */
    function Signed(): int { if kind == ISSUE then -quantity else quantity }
  }

  datatype Tables = Tables(
    stock: map<StockKey, StockRow>, reservations: seq<Option<Reservation>>, movements: seq<Movement>)

  const EMPTY := Tables(map[], [], [])

  /** Active warehouses and active sales-eligible items, each with its tenant. */
  datatype Catalogue = Catalogue(warehouses: set<(Uuid, Uuid)>, items: set<(Uuid, Uuid)>)

  datatype InventoryError =
    | InvalidQuantity
    | QuantityMismatch
    | InactiveWarehouse
    | IneligibleItem
    | InsufficientAvailable
    | ReservationNotFound
    | AlreadyFulfilled
    | AlreadyReleased
    | InsufficientReserved
    | StockRowMissing
    | NoReservations

  // ---------------------------------------------------------------- lookups

  function StockAt(stock: map<StockKey, StockRow>, k: StockKey): StockRow {
    if k in stock then stock[k] else StockRow(0, 0)
  }

  predicate Matches(row: Option<Reservation>, source: Source, item: Uuid) {
    row.Some? && row.value.source == source && row.value.item == item
  }

  /** The row a lookup by source and item returns. */
  function FindReservation(rows: seq<Option<Reservation>>, source: Source, item: Uuid): (found: Option<nat>)
    ensures found.Some? ==> found.value < |rows| && Matches(rows[found.value], source, item)
    ensures found.None? ==> forall i :: 0 <= i < |rows| ==> !Matches(rows[i], source, item)
  {
    if rows == [] then None
    else
      var found := FindReservation(rows[..|rows| - 1], source, item);
      if found.Some? then found
      else if Matches(rows[|rows| - 1], source, item) then Some(|rows| - 1)
      else None
  }

  /** The movement lookup: tenant, branch and operation key. */
  ghost predicate KeyUsed(log: seq<Movement>, scope: Scope, key: OperationKey) {
    exists j :: 0 <= j < |log| && SameOperation(log[j], scope, key)
  }

  predicate SameOperation(m: Movement, scope: Scope, key: OperationKey) {
    m.scope.tenant == scope.tenant && m.scope.branch == scope.branch && m.key == key
  }

  function FindMovement(log: seq<Movement>, scope: Scope, key: OperationKey): (found: Option<Movement>)
    ensures found.Some? <==> KeyUsed(log, scope, key)
    ensures found.Some? ==> found.value in log && SameOperation(found.value, scope, key)
  {
    if log == [] then None
    else if SameOperation(log[0], scope, key) then Some(log[0])
    else
      var found := FindMovement(log[1..], scope, key);
      assert KeyUsed(log[1..], scope, key) <==> KeyUsed(log, scope, key) by {
        if KeyUsed(log, scope, key) {
          var j :| 0 <= j < |log| && SameOperation(log[j], scope, key);
          assert log[1..][j - 1] == log[j];
        }
        if KeyUsed(log[1..], scope, key) {
          var j :| 0 <= j < |log[1..]| && SameOperation(log[1..][j], scope, key);
          assert log[j + 1] == log[1..][j];
        }
      }
      found
  }

  // ------------------------------------------------------- the two ledgers

  /** What one reservation row claims of a stock row. */
  function Claim(row: Option<Reservation>, k: StockKey): int {
    if row.Some? && row.value.status == RESERVED && row.value.Key() == k then row.value.quantity else 0
  }

  function Claimed(rows: seq<Option<Reservation>>, k: StockKey): int {
    if rows == [] then 0 else Claimed(rows[..|rows| - 1], k) + Claim(rows[|rows| - 1], k)
  }

  function Share(m: Movement, k: StockKey): int {
    if m.Key() == k then m.Signed() else 0
  }

  /** Receipts plus returns minus issues. */
  function Net(log: seq<Movement>, k: StockKey): int {
    if log == [] then 0 else Net(log[..|log| - 1], k) + Share(log[|log| - 1], k)
  }

  ghost predicate PositiveRows(rows: seq<Option<Reservation>>) {
    forall i :: 0 <= i < |rows| ==> rows[i].Some? ==> rows[i].value.quantity > 0
  }

  /**
    The invariant nothing in the repository writes down.  Every stock row's reserved
    quantity is the sum of its RESERVED reservations, its on-hand quantity is the
    net of the movement log, and the first is at most the second.
   */
  ghost predicate Balanced(t: Tables) {
    && PositiveRows(t.reservations)
    && forall k :: BalancedAt(t, k)
  }

  ghost predicate BalancedAt(t: Tables, k: StockKey) {
    var row := StockAt(t.stock, k);
    && row.reserved == Claimed(t.reservations, k)
    && row.onHand == Net(t.movements, k)
    && 0 <= row.reserved <= row.onHand
  }

  ghost predicate OneRowPerSource(rows: seq<Option<Reservation>>) {
    forall i, j :: 0 <= i < j < |rows| && rows[i].Some? && rows[j].Some? ==>
      rows[i].value.source != rows[j].value.source || rows[i].value.item != rows[j].value.item
  }

  lemma {:induction false} ClaimedUpdate(rows: seq<Option<Reservation>>, i: nat, row: Option<Reservation>, k: StockKey)
    requires i < |rows|
    ensures Claimed(rows[i := row], k) == Claimed(rows, k) - Claim(rows[i], k) + Claim(row, k)
  {
    var n := |rows| - 1;
    if i == n {
      assert rows[i := row][..n] == rows[..n];
    } else {
      assert rows[i := row][..n] == rows[..n][i := row];
      ClaimedUpdate(rows[..n], i, row, k);
    }
  }

  lemma {:induction false} ClaimedAtLeast(rows: seq<Option<Reservation>>, i: nat, k: StockKey)
    requires PositiveRows(rows) && i < |rows|
    ensures Claimed(rows, k) >= Claim(rows[i], k)
  {
    var n := |rows| - 1;
    if i == n {
      ClaimedNonNegative(rows[..n], k);
    } else {
      ClaimedAtLeast(rows[..n], i, k);
      assert Claim(rows[n], k) >= 0;
    }
  }

  lemma {:induction false} ClaimedNonNegative(rows: seq<Option<Reservation>>, k: StockKey)
    requires PositiveRows(rows)
    ensures Claimed(rows, k) >= 0
  {
    if rows != [] {
      ClaimedNonNegative(rows[..|rows| - 1], k);
    }
  }

  lemma ClaimedAppend(rows: seq<Option<Reservation>>, row: Option<Reservation>, k: StockKey)
    ensures Claimed(rows + [row], k) == Claimed(rows, k) + Claim(row, k)
  {
    assert (rows + [row])[..|rows|] == rows;
  }

  lemma NetAppend(log: seq<Movement>, m: Movement, k: StockKey)
    ensures Net(log + [m], k) == Net(log, k) + Share(m, k)
  {
    assert (log + [m])[..|log|] == log;
  }

  lemma {:induction false} NetConcat(a: seq<Movement>, b: seq<Movement>, k: StockKey)
    ensures Net(a + b, k) == Net(a, k) + Net(b, k)
  {
    if b == [] {
      assert a + b == a;
    } else {
      var n := |b| - 1;
      assert (a + b)[..|a + b| - 1] == a + b[..n];
      NetConcat(a, b[..n], k);
    }
  }
}
