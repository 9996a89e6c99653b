/** Issuing every reservation of one source document in a single transaction. */
module InventoryBySource {
  import opened Wrappers
  import opened InventoryTables
  import opened InventorySpec

  predicate OfSource(row: Option<Reservation>, source: Source) {
    row.Some? && row.value.source == source
  }

  /** Insert a row number into a list ordered by item. */
  function InsertByItem(rows: seq<Option<Reservation>>, i: nat, ids: seq<nat>): (r: seq<nat>)
    requires i < |rows| && rows[i].Some? && RowsExist(rows, ids)
    ensures RowsExist(rows, r)
    ensures forall j :: j in r <==> j == i || j in ids
    ensures |r| == |ids| + 1
    ensures OrderedByItem(rows, ids) ==> OrderedByItem(rows, r)
  {
    if ids == [] then [i]
    else if rows[i].value.item <= rows[ids[0]].value.item then
      assert forall j :: j in [i] + ids <==> j == i || j in ids;
      [i] + ids
    else
      var rest := InsertByItem(rows, i, ids[1..]);
      assert ids == [ids[0]] + ids[1..];
      assert OrderedByItem(rows, ids) ==> OrderedByItem(rows, ids[1..]);
      assert OrderedByItem(rows, ids) ==>
        forall b :: 0 <= b < |rest| ==> rows[ids[0]].value.item <= rows[rest[b]].value.item by {
        forall b | 0 <= b < |rest| && OrderedByItem(rows, ids)
          ensures rows[ids[0]].value.item <= rows[rest[b]].value.item
        {
          assert rest[b] in rest;
          if rest[b] != i {
            var c :| 0 <= c < |ids[1..]| && ids[1..][c] == rest[b];
            assert ids[c + 1] == rest[b];
          }
        }
      }
      [ids[0]] + rest
  }

  ghost predicate RowsExist(rows: seq<Option<Reservation>>, ids: seq<nat>) {
    forall a :: 0 <= a < |ids| ==> ids[a] < |rows| && rows[ids[a]].Some?
  }

  ghost predicate OrderedByItem(rows: seq<Option<Reservation>>, ids: seq<nat>)
    requires RowsExist(rows, ids)
  {
    forall a, b :: 0 <= a < b < |ids| ==> rows[ids[a]].value.item <= rows[ids[b]].value.item
  }

  /** The rows a source owns, in item order. */
  function SourceRows(rows: seq<Option<Reservation>>, source: Source): (ids: seq<nat>)
    ensures forall i :: i in ids <==> 0 <= i < |rows| && OfSource(rows[i], source)
    ensures RowsExist(rows, ids) && OrderedByItem(rows, ids)
  {
    if rows == [] then []
    else
      var n := |rows| - 1;
      var ids := SourceRows(rows[..n], source);
      assert OrderedByItem(rows, ids);
      if OfSource(rows[n], source) then InsertByItem(rows, n, ids) else ids
  }

  function FulfillRows(t: Tables, scope: Scope, ids: seq<nat>, base: OperationKey): Outcome<seq<nat>>
    decreases |ids|
  {
    if ids == [] then Done(t, [])
    else
      var first := FulfillReservation(t, Fulfil(scope, ids[0], RowKey(base, ids[0])));
      if first.Failed? then Failed(first.error)
      else
        var rest := FulfillRows(first.tables, scope, ids[1..], base);
        if rest.Failed? then rest else Done(rest.tables, [first.value] + rest.value)
  }

  function FulfillBySource(t: Tables, source: Source, base: OperationKey): Outcome<seq<nat>> {
    var ids := SourceRows(t.reservations, source);
    if ids == [] then Failed(NoReservations) else FulfillRows(t, source.scope, ids, base)
  }

  lemma {:induction false} FulfillRowsKeepsBalance(t: Tables, scope: Scope, ids: seq<nat>, base: OperationKey)
    requires Balanced(t) && OneRowPerSource(t.reservations)
    ensures Balanced(After(t, FulfillRows(t, scope, ids, base)))
    ensures OneRowPerSource(After(t, FulfillRows(t, scope, ids, base)).reservations)
    decreases |ids|
  {
    if ids != [] {
      var r := Fulfil(scope, ids[0], RowKey(base, ids[0]));
      FulfilKeepsBalance(t, r);
      if FulfillReservation(t, r).Done? {
        FulfillRowsKeepsBalance(FulfillReservation(t, r).tables, scope, ids[1..], base);
      }
    }
  }

  /** No row changes anything but its status, and only RESERVED rows change that. */
  ghost predicate OnlyStatusMoves(before: seq<Option<Reservation>>, after: seq<Option<Reservation>>) {
    && |before| <= |after|
    && forall i :: 0 <= i < |before| && before[i].Some? ==>
         && after[i].Some?
         && after[i].value.(status := before[i].value.status) == before[i].value
         && (before[i].value.status != RESERVED ==> after[i] == before[i])
  }

  lemma ApplyMovesOnlyStatus(t: Tables, c: Catalogue, r: Request)
    ensures OnlyStatusMoves(t.reservations, Apply(t, c, r).reservations)
    ensures t.movements <= Apply(t, c, r).movements
  {
  }

  lemma OnlyStatusMovesTransitive(a: seq<Option<Reservation>>, b: seq<Option<Reservation>>, c: seq<Option<Reservation>>)
    requires OnlyStatusMoves(a, b) && OnlyStatusMoves(b, c)
    ensures OnlyStatusMoves(a, c)
  {
    forall i | 0 <= i < |a| && a[i].Some?
      ensures c[i].Some? && c[i].value.(status := a[i].value.status) == a[i].value
      ensures a[i].value.status != RESERVED ==> c[i] == a[i]
    {
      assert b[i].Some? && c[i].Some?;
    }
  }

  /** Whether issuing row `i` under this key would find the key already in the log. */
  ghost predicate KeyTaken(t: Tables, scope: Scope, base: OperationKey, i: nat) {
    i < |t.reservations| && t.reservations[i].Some? && t.reservations[i].value.status == RESERVED
    && KeyUsed(t.movements, scope, RowKey(base, i))
  }

  /**
    What a successful run over a list of rows leaves: a listed row is FULFILLED
    exactly when its key was not already taken, unlisted rows are as they were.
   */
  lemma {:induction false} FulfillRowsEffect(t: Tables, scope: Scope, ids: seq<nat>, base: OperationKey)
    requires FulfillRows(t, scope, ids, base).Done?
    ensures var rows := FulfillRows(t, scope, ids, base).tables.reservations;
            && OnlyStatusMoves(t.reservations, rows)
            && |rows| == |t.reservations|
            && (forall i :: i in ids ==>
                  && i < |rows| && rows[i].Some?
                  && (rows[i].value.status == FULFILLED <==> !KeyTaken(t, scope, base, i)))
            && (forall i :: 0 <= i < |rows| && i !in ids ==> rows[i] == t.reservations[i])
    ensures t.movements <= FulfillRows(t, scope, ids, base).tables.movements
    decreases |ids|
  {
    if ids != [] {
      var i := ids[0];
      var r := Fulfil(scope, i, RowKey(base, i));
      var t' := FulfillReservation(t, r).tables;
      ApplyMovesOnlyStatus(t, Catalogue({}, {}), r);
      FulfillRowsEffect(t', scope, ids[1..], base);
      var rows := FulfillRows(t', scope, ids[1..], base).tables.reservations;
      OnlyStatusMovesTransitive(t.reservations, t'.reservations, rows);
      forall j | j in ids
        ensures j < |rows| && rows[j].Some?
        ensures rows[j].value.status == FULFILLED <==> !KeyTaken(t, scope, base, j)
      {
        KeyTakenAfterFulfil(t, scope, base, i, j);
        if j !in ids[1..] {
          assert j == i;
        }
      }
    }
  }

  lemma KeyTakenAfterFulfil(t: Tables, scope: Scope, base: OperationKey, i: nat, j: nat)
    requires FulfillReservation(t, Fulfil(scope, i, RowKey(base, i))).Done?
    ensures var t' := FulfillReservation(t, Fulfil(scope, i, RowKey(base, i))).tables;
            KeyTaken(t', scope, base, j) <==> KeyTaken(t, scope, base, j)
  {
    var t' := FulfillReservation(t, Fulfil(scope, i, RowKey(base, i))).tables;
    var key := RowKey(base, j);
    if KeyUsed(t.movements, scope, key) {
      var n :| 0 <= n < |t.movements| && SameOperation(t.movements[n], scope, key);
      assert SameOperation(t'.movements[n], scope, key);
    }
    if KeyUsed(t'.movements, scope, key) {
      var n :| 0 <= n < |t'.movements| && SameOperation(t'.movements[n], scope, key);
      if n < |t.movements| {
        assert SameOperation(t.movements[n], scope, key);
      } else {
        assert i == j;
      }
    }
  }

  /**
    Issuing a source succeeds exactly when the source has rows and none of them is
    RELEASED, given tables that balance; then each row ends FULFILLED unless
    its operation key had been taken by some earlier movement.
   */
  lemma FulfillBySourceOutcome(t: Tables, source: Source, base: OperationKey)
    requires Balanced(t)
    ensures var o := FulfillBySource(t, source, base);
            && (o.Done? <==> HasRow(t.reservations, source) && !HasReleased(t.reservations, source))
            && (o.Done? ==> forall i :: 0 <= i < |t.reservations| && OfSource(t.reservations[i], source) ==>
                  && i < |o.tables.reservations| && o.tables.reservations[i].Some?
                  && (o.tables.reservations[i].value.status == FULFILLED <==> !KeyTaken(t, source.scope, base, i)))
  {
    var ids := SourceRows(t.reservations, source);
    if HasRow(t.reservations, source) {
      var i :| 0 <= i < |t.reservations| && OfSource(t.reservations[i], source);
      assert i in ids;
    }
    if ids != [] {
      assert ids[0] in ids;
      FulfillRowsSucceeds(t, source.scope, ids, base);
      if FulfillRows(t, source.scope, ids, base).Done? {
        FulfillRowsEffect(t, source.scope, ids, base);
      }
    }
  }

  ghost predicate HasRow(rows: seq<Option<Reservation>>, source: Source) {
    exists i :: 0 <= i < |rows| && OfSource(rows[i], source)
  }

  predicate Released(rows: seq<Option<Reservation>>, i: nat) {
    i < |rows| && rows[i].Some? && rows[i].value.status == RELEASED
  }

  ghost predicate HasReleased(rows: seq<Option<Reservation>>, source: Source) {
    exists i :: 0 <= i < |rows| && OfSource(rows[i], source) && Released(rows, i)
  }

  lemma {:induction false} FulfillRowsSucceeds(t: Tables, scope: Scope, ids: seq<nat>, base: OperationKey)
    requires Balanced(t)
    requires forall i :: i in ids ==> Visible(t, scope, i)
    ensures FulfillRows(t, scope, ids, base).Done? <==>
              forall i :: i in ids ==> !Released(t.reservations, i)
    decreases |ids|
  {
    if ids != [] {
      var i := ids[0];
      assert i in ids;
      var r := Fulfil(scope, i, RowKey(base, i));
      if t.reservations[i].value.status == RESERVED {
        ReservedIsCovered(t, i);
      }
      if t.reservations[i].value.status != RELEASED {
        FulfilKeepsBalance(t, r);
        var t' := FulfillReservation(t, r).tables;
        assert forall j :: j in ids[1..] ==> j in ids;
        FulfillRowsSucceeds(t', scope, ids[1..], base);
        assert forall j :: j in ids <==> j == i || j in ids[1..];
        assert forall j :: j in ids ==> (Released(t'.reservations, j) <==> Released(t.reservations, j));
      }
    }
  }
}
