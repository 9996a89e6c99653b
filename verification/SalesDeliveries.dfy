/**
  Deliveries against the reservations they refer to, over every run of order, delivery
  and direct inventory calls one after the other.
 */
module SalesDeliveries {
  import opened Wrappers
  import opened InventoryTables
  import opened InventorySpec
  import opened InventoryBySource
  import opened SalesSpec

  predicate Fulfilled(rows: seq<Option<Reservation>>, i: nat) {
    i < |rows| && rows[i].Some? && rows[i].value.status == FULFILLED
  }

  /** Row `i` exists and belongs to the source. */
  predicate RowOf(rows: seq<Option<Reservation>>, i: nat, source: Source) {
    i < |rows| && OfSource(rows[i], source)
  }

  predicate OwnReference(rows: seq<Option<Reservation>>, d: Delivery, line: DeliveryLine) {
    line.reservation.Some? ==> RowOf(rows, line.reservation.value, OrderSource(d.scope, d.order))
  }

  predicate IssuedReference(rows: seq<Option<Reservation>>, line: DeliveryLine) {
    line.reservation.Some? && Fulfilled(rows, line.reservation.value)
  }

  ghost predicate OwnReferences(rows: seq<Option<Reservation>>, d: Delivery) {
    forall n :: 0 <= n < |d.lines| ==> OwnReference(rows, d, d.lines[n])
  }

  ghost predicate IssuedReferences(rows: seq<Option<Reservation>>, d: Delivery) {
    forall n :: 0 <= n < |d.lines| ==> IssuedReference(rows, d.lines[n])
  }

  /** A key only the completion of a delivery writes. */
  predicate CompletionKey(key: OperationKey) {
    key.RowKey? && key.base.DeliveryKey?
  }

  /** A completion's key in the log names a row that has been issued. */
  ghost predicate HonestKeys(t: Tables) {
    forall j :: 0 <= j < |t.movements| ==> HonestKey(t.reservations, t.movements[j])
  }

  predicate HonestKey(rows: seq<Option<Reservation>>, m: Movement) {
    CompletionKey(m.key) ==> Fulfilled(rows, m.key.reservation)
  }

  ghost predicate DeliveryOk(rows: seq<Option<Reservation>>, d: Delivery) {
    OwnReferences(rows, d) && (d.status == COMPLETED ==> IssuedReferences(rows, d))
  }

  ghost predicate Honest(w: World) {
    && Balanced(w.tables)
    && HonestKeys(w.tables)
    && forall d :: 0 <= d < |w.deliveries| ==> DeliveryOk(w.tables.reservations, w.deliveries[d])
  }

  // --------------------------------------------- what a run may not contain

  /** A repeated creation must name the order of the delivery it finds. */
  predicate NamesOwnOrder(w: World, scope: Scope, order: nat, key: string) {
    var found := FindDelivery(w.deliveries, scope, key, order);
    found.Some? ==> w.deliveries[found.value].order == order
  }

  predicate Admissible(w: World, a: Action) {
    match a
    case NewDelivery(s, o, key, _) => NamesOwnOrder(w, s, o, key)
    case Direct(r) => r.Receive? || r.Return? || r.Fulfil? ==> !CompletionKey(r.key)
    case _ => true
  }

  predicate AdmissibleRun(w: World, actions: seq<(Catalogue, Action)>)
    decreases |actions|
  {
    actions != [] ==>
      Admissible(w, actions[0].1) && AdmissibleRun(Act(w, actions[0].0, actions[0].1), actions[1..])
  }

  // -------------------------------------------------- only statuses move

  lemma {:induction false} ReserveLinesMoves(
    t: Tables, c: Catalogue, scope: Scope, order: nat, warehouse: Uuid, lines: seq<OrderLine>)
    requires forall n :: 0 <= n < |lines| ==> lines[n].item.Some?
    requires ReserveLines(t, c, scope, order, warehouse, lines).Done?
    ensures var t' := ReserveLines(t, c, scope, order, warehouse, lines).tables;
            && OnlyStatusMoves(t.reservations, t'.reservations) && t'.movements == t.movements
            && (Balanced(t) ==> Balanced(t'))
    decreases |lines|
  {
    if lines != [] {
      var r := LineRequest(scope, order, warehouse, lines[0]);
      var t1 := ReserveStock(t, c, r).tables;
      ApplyMovesOnlyStatus(t, c, r);
      if Balanced(t) {
        ReserveKeepsBalance(t, c, r);
      }
      ReserveLinesMoves(t1, c, scope, order, warehouse, lines[1..]);
      OnlyStatusMovesTransitive(
        t.reservations, t1.reservations, ReserveLines(t, c, scope, order, warehouse, lines).tables.reservations);
    }
  }

  lemma {:induction false} ReleaseListedMoves(t: Tables, scope: Scope, listed: seq<Option<Reservation>>, ids: seq<nat>)
    requires RowsExist(listed, ids) && ReleaseListed(t, scope, listed, ids).Done?
    ensures var t' := ReleaseListed(t, scope, listed, ids).tables;
            && OnlyStatusMoves(t.reservations, t'.reservations) && t'.movements == t.movements
            && (Balanced(t) ==> Balanced(t'))
    decreases |ids|
  {
    if ids != [] {
      if listed[ids[0]].value.status != RESERVED {
        ReleaseListedMoves(t, scope, listed, ids[1..]);
      } else {
        var r := Release(scope, ids[0]);
        var t1 := ReleaseReservation(t, r).tables;
        ApplyMovesOnlyStatus(t, Catalogue({}, {}), r);
        if Balanced(t) {
          ReleaseKeepsBalance(t, r);
        }
        ReleaseListedMoves(t1, scope, listed, ids[1..]);
        OnlyStatusMovesTransitive(
          t.reservations, t1.reservations, ReleaseListed(t, scope, listed, ids).tables.reservations);
      }
    }
  }

  lemma {:induction false} FulfillRowsKeepsKeys(t: Tables, scope: Scope, ids: seq<nat>, base: OperationKey)
    requires FulfillRows(t, scope, ids, base).Done?
    ensures var t' := FulfillRows(t, scope, ids, base).tables;
            && (HonestKeys(t) ==> HonestKeys(t')) && (Balanced(t) ==> Balanced(t'))
    decreases |ids|
  {
    if ids != [] {
      var r := Fulfil(scope, ids[0], RowKey(base, ids[0]));
      var t1 := FulfillReservation(t, r).tables;
      if HonestKeys(t) {
        forall j | 0 <= j < |t1.movements| ensures HonestKey(t1.reservations, t1.movements[j]) {
          if j < |t.movements| {
            assert HonestKey(t.reservations, t.movements[j]);
          }
        }
      }
      if Balanced(t) {
        FulfilKeepsBalance(t, r);
      }
      FulfillRowsKeepsKeys(t1, scope, ids[1..], base);
    }
  }

  /** What every action does to the tables: rows keep all but their status, the log grows. */
  lemma ActMovesOnlyStatus(w: World, c: Catalogue, a: Action)
    ensures OnlyStatusMoves(w.tables.reservations, Act(w, c, a).tables.reservations)
    ensures Balanced(w.tables) ==> Balanced(Act(w, c, a).tables)
  {
    match a
    case ReserveFor(s, o) =>
      if ReserveOrder(w, c, s, o).Made? {
        ReserveLinesMoves(w.tables, c, s, o, w.orders[o].warehouse.value, w.orders[o].lines);
      }
    case ToOrderStatus(s, o, to, v) =>
      if MoveOrder(w, s, o, to, v).Made? && to == OrderStatus.CANCELLED && w.orders[o].reserved {
        var rows := w.tables.reservations;
        ReleaseListedMoves(w.tables, s, rows, SourceRows(rows, OrderSource(s, o)));
      }
    case ToDeliveryStatus(s, d, to, v) =>
      if MoveDelivery(w, s, d, to, v).Made? && to == COMPLETED {
        BySourceMoves(w.tables, OrderSource(s, w.deliveries[d].order), DeliveryKey(d));
      }
    case DirectFulfil(source, key) =>
      if FulfillBySource(w.tables, source, key).Done? {
        BySourceMoves(w.tables, source, key);
      }
    case Direct(r) =>
      ApplyMovesOnlyStatus(w.tables, c, r);
      if Balanced(w.tables) {
        ApplyKeepsBalance(w.tables, c, r);
      }
    case _ =>
  }

  lemma BySourceMoves(t: Tables, source: Source, base: OperationKey)
    requires FulfillBySource(t, source, base).Done?
    ensures var t' := FulfillBySource(t, source, base).tables;
            && OnlyStatusMoves(t.reservations, t'.reservations)
            && (HonestKeys(t) ==> HonestKeys(t')) && (Balanced(t) ==> Balanced(t'))
  {
    var ids := SourceRows(t.reservations, source);
    FulfillRowsEffect(t, source.scope, ids, base);
    FulfillRowsKeepsKeys(t, source.scope, ids, base);
  }

  // -------------------------------------------------------------- every step

  lemma ApplyKeepsKeys(t: Tables, c: Catalogue, r: Request)
    requires HonestKeys(t) && (r.Receive? || r.Return? || r.Fulfil? ==> !CompletionKey(r.key))
    ensures HonestKeys(Apply(t, c, r))
  {
    var t' := Apply(t, c, r);
    ApplyMovesOnlyStatus(t, c, r);
    forall j | 0 <= j < |t'.movements| ensures HonestKey(t'.reservations, t'.movements[j]) {
      if j < |t.movements| {
        assert HonestKey(t.reservations, t.movements[j]);
        assert t'.movements[j] == t.movements[j];
      } else {
        assert t'.movements[j].key == r.key;
      }
    }
  }

  /** Rows that only change status keep every key honest. */
  lemma MovesKeepKeys(t: Tables, t': Tables)
    requires HonestKeys(t) && t'.movements == t.movements && OnlyStatusMoves(t.reservations, t'.reservations)
    ensures HonestKeys(t')
  {
    forall j | 0 <= j < |t'.movements| ensures HonestKey(t'.reservations, t'.movements[j]) {
      assert HonestKey(t.reservations, t.movements[j]);
    }
  }

  lemma ActKeepsKeys(w: World, c: Catalogue, a: Action)
    requires HonestKeys(w.tables) && Admissible(w, a)
    ensures HonestKeys(Act(w, c, a).tables)
  {
    match a
    case ReserveFor(s, o) =>
      if ReserveOrder(w, c, s, o).Made? {
        ReserveLinesMoves(w.tables, c, s, o, w.orders[o].warehouse.value, w.orders[o].lines);
        MovesKeepKeys(w.tables, Act(w, c, a).tables);
      }
    case ToOrderStatus(s, o, to, v) =>
      if MoveOrder(w, s, o, to, v).Made? && to == OrderStatus.CANCELLED && w.orders[o].reserved {
        var rows := w.tables.reservations;
        ReleaseListedMoves(w.tables, s, rows, SourceRows(rows, OrderSource(s, o)));
        MovesKeepKeys(w.tables, Act(w, c, a).tables);
      }
    case ToDeliveryStatus(s, d, to, v) =>
      if MoveDelivery(w, s, d, to, v).Made? && to == COMPLETED {
        BySourceMoves(w.tables, OrderSource(s, w.deliveries[d].order), DeliveryKey(d));
      }
    case DirectFulfil(source, key) =>
      if FulfillBySource(w.tables, source, key).Done? {
        BySourceMoves(w.tables, source, key);
      }
    case Direct(r) => ApplyKeepsKeys(w.tables, c, r);
    case _ =>
  }

  lemma MovesKeepDelivery(rows: seq<Option<Reservation>>, rows': seq<Option<Reservation>>, d: Delivery)
    requires OnlyStatusMoves(rows, rows') && DeliveryOk(rows, d)
    ensures DeliveryOk(rows', d)
  {
    forall n | 0 <= n < |d.lines|
      ensures OwnReference(rows', d, d.lines[n])
      ensures d.status == COMPLETED ==> IssuedReference(rows', d.lines[n])
    {
      assert OwnReference(rows, d, d.lines[n]);
      assert d.status == COMPLETED ==> IssuedReference(rows, d.lines[n]);
    }
  }

  /** The delivery row a creation starts from: of this context, and new when nothing was found. */
  lemma OpenedDelivery(w: World, scope: Scope, order: nat, key: string, allowReplay: bool)
    requires OpenDelivery(w, scope, order, key, allowReplay).Made?
    ensures var o := OpenDelivery(w, scope, order, key, allowReplay);
            var found := FindDelivery(w.deliveries, scope, key, order);
            && o.id < |o.world.deliveries| && o.world.deliveries[o.id].scope == scope
            && (found.Some? ==> o.id == found.value && o.world == w)
            && (found.None? ==> o.id == |w.deliveries| && o.world.deliveries[..o.id] == w.deliveries
                                && o.world.deliveries[o.id].order == order)
  {
  }

  /** Creation links to rows of the order the call names. */
  lemma CreatedReferences(w: World, scope: Scope, order: nat, key: string, allowReplay: bool)
    requires CreateDelivery(w, scope, order, key, allowReplay).Made?
    ensures var m := CreateDelivery(w, scope, order, key, allowReplay);
            var rows := w.tables.reservations;
            && m.id < |m.world.deliveries| && m.world.tables == w.tables
            && m.world.deliveries[m.id].status == DeliveryStatus.DRAFT
            && forall n :: 0 <= n < |m.world.deliveries[m.id].lines| ==>
                 && m.world.deliveries[m.id].lines[n].reservation.Some?
                 && RowOf(rows, m.world.deliveries[m.id].lines[n].reservation.value, OrderSource(scope, order))
  {
    var started := OpenDelivery(w, scope, order, key, allowReplay);
    OpenedDelivery(w, scope, order, key, allowReplay);
    var rows := w.tables.reservations;
    var ids := SourceRows(rows, OrderSource(scope, order));
    var lines := started.world.deliveries[started.id].lines;
    var linked := LinkLines(rows, ids, lines);
    forall n | 0 <= n < |linked|
      ensures linked[n].reservation.Some? && RowOf(rows, linked[n].reservation.value, OrderSource(scope, order))
    {
      assert LineMatched(rows, ids, lines[n]) && linked[n] == LinkLine(rows, ids, lines[n]);
    }
  }

  lemma CreateKeepsDeliveries(w: World, scope: Scope, order: nat, key: string, allowReplay: bool, d: nat)
    requires Honest(w) && NamesOwnOrder(w, scope, order, key)
    requires CreateDelivery(w, scope, order, key, allowReplay).Made?
    ensures var m := CreateDelivery(w, scope, order, key, allowReplay);
            d < |m.world.deliveries| ==> DeliveryOk(m.world.tables.reservations, m.world.deliveries[d])
  {
    OpenedDelivery(w, scope, order, key, allowReplay);
    CreatedReferences(w, scope, order, key, allowReplay);
    var m := CreateDelivery(w, scope, order, key, allowReplay);
    if d < |m.world.deliveries| && d != m.id {
      assert DeliveryOk(w.tables.reservations, w.deliveries[d]);
    }
  }

  /**
    Completing: the delivery's own rows end FULFILLED, because no completion key of
    theirs can be in the log already.
   */
  lemma CompletionIssues(w: World, scope: Scope, d: nat, expected: int)
    requires Honest(w) && MoveDelivery(w, scope, d, COMPLETED, expected).Made?
    ensures var w' := MoveDelivery(w, scope, d, COMPLETED, expected).world;
            DeliveryOk(w'.tables.reservations, w'.deliveries[d])
  {
    var source := OrderSource(scope, w.deliveries[d].order);
    var w' := MoveDelivery(w, scope, d, COMPLETED, expected).world;
    BySourceMoves(w.tables, source, DeliveryKey(d));
    FulfillBySourceOutcome(w.tables, source, DeliveryKey(d));
    assert DeliveryOk(w.tables.reservations, w.deliveries[d]);
    MovesKeepDelivery(w.tables.reservations, w'.tables.reservations, w.deliveries[d]);
    forall n | 0 <= n < |w.deliveries[d].lines|
      ensures OwnReference(w'.tables.reservations, w'.deliveries[d], w.deliveries[d].lines[n])
      ensures IssuedReference(w'.tables.reservations, w.deliveries[d].lines[n])
    {
      assert OwnReference(w'.tables.reservations, w.deliveries[d], w.deliveries[d].lines[n]);
      assert OwnReference(w.tables.reservations, w.deliveries[d], w.deliveries[d].lines[n]);
      var i := w.deliveries[d].lines[n].reservation.value;
      if KeyUsed(w.tables.movements, scope, RowKey(DeliveryKey(d), i)) {
        HonestKeyUsed(w.tables, scope, DeliveryKey(d), i);
      }
    }
  }

  lemma HonestKeyUsed(t: Tables, scope: Scope, base: OperationKey, i: nat)
    requires HonestKeys(t) && base.DeliveryKey? && KeyUsed(t.movements, scope, RowKey(base, i))
    ensures Fulfilled(t.reservations, i)
  {
    var j :| 0 <= j < |t.movements| && SameOperation(t.movements[j], scope, RowKey(base, i));
    assert HonestKey(t.reservations, t.movements[j]);
  }

  lemma ActKeepsDelivery(w: World, c: Catalogue, a: Action, d: nat)
    requires Honest(w) && Admissible(w, a) && d < |Act(w, c, a).deliveries|
    ensures DeliveryOk(Act(w, c, a).tables.reservations, Act(w, c, a).deliveries[d])
  {
    var w' := Act(w, c, a);
    if d < |w.deliveries| {
      assert DeliveryOk(w.tables.reservations, w.deliveries[d]);
      ActMovesOnlyStatus(w, c, a);
      MovesKeepDelivery(w.tables.reservations, w'.tables.reservations, w.deliveries[d]);
    }
    if a.NewDelivery? && CreateDelivery(w, a.scope, a.order, a.key, a.allowReplay).Made? {
      CreateKeepsDeliveries(w, a.scope, a.order, a.key, a.allowReplay, d);
    } else if a.ToDeliveryStatus? && a.delivery == d && w' != w {
      if a.deliveryStatus == COMPLETED {
        CompletionIssues(w, a.scope, d, a.expected);
      } else {
        MovedKeepsReferences(w'.tables.reservations, w.deliveries[d], w'.deliveries[d]);
      }
    }
  }

  lemma MovedKeepsReferences(rows: seq<Option<Reservation>>, d: Delivery, d': Delivery)
    requires DeliveryOk(rows, d) && d'.status != COMPLETED
    requires d'.scope == d.scope && d'.order == d.order && d'.lines == d.lines
    ensures DeliveryOk(rows, d')
  {
    forall n | 0 <= n < |d'.lines| ensures OwnReference(rows, d', d'.lines[n]) {
      assert OwnReference(rows, d, d.lines[n]);
    }
  }

  lemma ActKeepsHonest(w: World, c: Catalogue, a: Action)
    requires Honest(w) && Admissible(w, a)
    ensures Honest(Act(w, c, a))
  {
    ActMovesOnlyStatus(w, c, a);
    ActKeepsKeys(w, c, a);
    forall d | 0 <= d < |Act(w, c, a).deliveries|
      ensures DeliveryOk(Act(w, c, a).tables.reservations, Act(w, c, a).deliveries[d])
    {
      ActKeepsDelivery(w, c, a, d);
    }
  }

  // --------------------------------------------------------------- every run

  lemma {:induction false} EveryRunIsHonest(w: World, actions: seq<(Catalogue, Action)>)
    requires Honest(w) && AdmissibleRun(w, actions)
    ensures Honest(Play(w, actions))
    decreases |actions|
  {
    if actions != [] {
      ActKeepsHonest(w, actions[0].0, actions[0].1);
      EveryRunIsHonest(Act(w, actions[0].0, actions[0].1), actions[1..]);
    }
  }

  /** No run, admissible or not, changes a COMPLETED delivery or takes a row out of its final status. */
  lemma {:induction false} FinalStatesStay(w: World, actions: seq<(Catalogue, Action)>, d: nat, i: nat)
    requires d < |w.deliveries|
    ensures d < |Play(w, actions).deliveries|
    ensures w.deliveries[d].status == COMPLETED ==> Play(w, actions).deliveries[d] == w.deliveries[d]
    ensures i < |w.tables.reservations| && w.tables.reservations[i].Some?
            && w.tables.reservations[i].value.status != RESERVED ==>
              i < |Play(w, actions).tables.reservations|
              && Play(w, actions).tables.reservations[i] == w.tables.reservations[i]
    decreases |actions|
  {
    if actions != [] {
      var w' := Act(w, actions[0].0, actions[0].1);
      ActMovesOnlyStatus(w, actions[0].0, actions[0].1);
      FinalStatesStay(w', actions[1..], d, i);
    }
  }

  /**
    Along every run with non-colliding keys and creations that name their own order:
    a delivery COMPLETED at some point has every row its lines refer to FULFILLED then,
    and is unchanged with the same rows FULFILLED at every later point.
   */
  lemma CompletedMeansIssued(first: seq<(Catalogue, Action)>, later: seq<(Catalogue, Action)>, d: nat)
    requires AdmissibleRun(World(EMPTY, [], []), first)
    requires var w := Play(World(EMPTY, [], []), first);
             && d < |w.deliveries| && w.deliveries[d].status == COMPLETED
    ensures var w := Play(World(EMPTY, [], []), first);
            var w' := Play(w, later);
            && d < |w'.deliveries| && w'.deliveries[d] == w.deliveries[d]
            && IssuedReferences(w.tables.reservations, w.deliveries[d])
            && IssuedReferences(w'.tables.reservations, w.deliveries[d])
  {
    EmptyIsBalanced();
    EveryRunIsHonest(World(EMPTY, [], []), first);
    var w := Play(World(EMPTY, [], []), first);
    FinalStatesStay(w, later, d, 0);
    assert DeliveryOk(w.tables.reservations, w.deliveries[d]);
    forall n | 0 <= n < |w.deliveries[d].lines|
      ensures IssuedReference(Play(w, later).tables.reservations, w.deliveries[d].lines[n])
    {
      assert IssuedReference(w.tables.reservations, w.deliveries[d].lines[n]);
      FinalStatesStay(w, later, d, w.deliveries[d].lines[n].reservation.value);
    }
  }

  ghost predicate RefersToReleased(w: World, d: nat, n: nat, i: nat) {
    && d < |w.deliveries| && n < |w.deliveries[d].lines|
    && w.deliveries[d].lines[n].reservation == Some(i) && Released(w.tables.reservations, i)
  }

  lemma CreationNeedsReserved(w: World, scope: Scope, order: nat, key: string, allowReplay: bool, i: nat)
    requires CreateDelivery(w, scope, order, key, allowReplay).Made?
    requires RowOf(w.tables.reservations, i, OrderSource(scope, order))
    ensures w.tables.reservations[i].value.status == RESERVED
  {
    var ids := SourceRows(w.tables.reservations, OrderSource(scope, order));
    assert i in ids;
    var x :| 0 <= x < |ids| && ids[x] == i;
    assert w.tables.reservations[ids[x]].value.status == RESERVED;
  }

  lemma ActKeepsReleasedReference(w: World, c: Catalogue, a: Action, d: nat, n: nat, i: nat)
    requires Honest(w) && Admissible(w, a) && RefersToReleased(w, d, n, i)
    ensures RefersToReleased(Act(w, c, a), d, n, i)
  {
    ActMovesOnlyStatus(w, c, a);
    assert DeliveryOk(w.tables.reservations, w.deliveries[d]);
    assert OwnReference(w.tables.reservations, w.deliveries[d], w.deliveries[d].lines[n]);
    if a.NewDelivery? && CreateDelivery(w, a.scope, a.order, a.key, a.allowReplay).Made? {
      OpenedDelivery(w, a.scope, a.order, a.key, a.allowReplay);
      if RowOf(w.tables.reservations, i, OrderSource(a.scope, a.order)) {
        CreationNeedsReserved(w, a.scope, a.order, a.key, a.allowReplay, i);
      }
    }
  }

  /** A delivery that refers to a RELEASED row keeps doing so and never becomes COMPLETED. */
  lemma {:induction false} ReleasedNeverCompletes(w: World, actions: seq<(Catalogue, Action)>, d: nat, n: nat, i: nat)
    requires Honest(w) && AdmissibleRun(w, actions) && RefersToReleased(w, d, n, i)
    ensures RefersToReleased(Play(w, actions), d, n, i) && Play(w, actions).deliveries[d].status != COMPLETED
    decreases |actions|
  {
    assert DeliveryOk(w.tables.reservations, w.deliveries[d]);
    assert w.deliveries[d].status == COMPLETED ==> IssuedReference(w.tables.reservations, w.deliveries[d].lines[n]);
    if actions != [] {
      ActKeepsHonest(w, actions[0].0, actions[0].1);
      ActKeepsReleasedReference(w, actions[0].0, actions[0].1, d, n, i);
      ReleasedNeverCompletes(Act(w, actions[0].0, actions[0].1), actions[1..], d, n, i);
    }
  }

  // ------------------------------------------------- without the conditions

  /** A successful creation leaves own references exactly when the delivery's order is the one named. */
  lemma CreationLinksOwnOrder(w: World, scope: Scope, order: nat, key: string, allowReplay: bool)
    requires CreateDelivery(w, scope, order, key, allowReplay).Made?
    requires CreateDelivery(w, scope, order, key, allowReplay).world.deliveries
             [CreateDelivery(w, scope, order, key, allowReplay).id].lines != []
    ensures var m := CreateDelivery(w, scope, order, key, allowReplay);
            OwnReferences(w.tables.reservations, m.world.deliveries[m.id]) <==> NamesOwnOrder(w, scope, order, key)
  {
    OpenedDelivery(w, scope, order, key, allowReplay);
    CreatedReferences(w, scope, order, key, allowReplay);
    var m := CreateDelivery(w, scope, order, key, allowReplay);
    var d := m.world.deliveries[m.id];
    if OwnReferences(w.tables.reservations, d) {
      assert OwnReference(w.tables.reservations, d, d.lines[0]);
    }
  }

  /**
    When a completion succeeds, and which rows are FULFILLED after it: the delivery's own
    order's, unless their key was taken, and those that were.  Rows of other orders
    stay as they are, also those the delivery refers to.
   */
  lemma CompletionExactly(w: World, scope: Scope, d: nat, expected: int)
    requires Balanced(w.tables)
    ensures var m := MoveDelivery(w, scope, d, COMPLETED, expected);
            m.Made? <==>
              && expected >= 1 && DeliveryVisible(w, scope, d) && w.deliveries[d].status == DELIVERED
              && w.deliveries[d].lines != []
              && (forall n :: 0 <= n < |w.deliveries[d].lines| ==> w.deliveries[d].lines[n].reservation.Some?)
              && HasRow(w.tables.reservations, OrderSource(scope, w.deliveries[d].order))
              && !HasReleased(w.tables.reservations, OrderSource(scope, w.deliveries[d].order))
              && w.deliveries[d].version == expected
    ensures var m := MoveDelivery(w, scope, d, COMPLETED, expected);
            m.Made? ==> forall i :: 0 <= i < |w.tables.reservations| ==>
              && i < |m.world.tables.reservations|
              && if RowOf(w.tables.reservations, i, OrderSource(scope, w.deliveries[d].order))
                 then Fulfilled(m.world.tables.reservations, i) <==> !KeyTaken(w.tables, scope, DeliveryKey(d), i)
                 else m.world.tables.reservations[i] == w.tables.reservations[i]
  {
    if DeliveryVisible(w, scope, d) {
      var source := OrderSource(scope, w.deliveries[d].order);
      FulfillBySourceOutcome(w.tables, source, DeliveryKey(d));
      if MoveDelivery(w, scope, d, COMPLETED, expected).Made? {
        FulfillRowsEffect(w.tables, scope, SourceRows(w.tables.reservations, source), DeliveryKey(d));
      }
    }
  }
}
