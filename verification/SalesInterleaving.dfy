/**
  What every interleaving keeps of deliveries: the rows of a COMPLETED one are FULFILLED then and
  later, one whose row was released is never completed, and versions only grow.  As long as
  no call expects a version above the one it reads, statuses change only as the transitions allow.
 */
module SalesInterleaving {
  import opened Wrappers
  import opened InventoryTables
  import opened InventorySpec
  import opened InventoryBySource
  import opened SalesSpec
  import opened SalesDeliveries
  import opened SalesRows
  import opened SalesConcurrency
  import opened SalesSafety
  import I = InventoryConcurrency

  // ------------------------------------------------------ rows stay as they are

  /** What a statement of the sales side leaves alone, unless it is a commit. */
  ghost predicate Outer(s: Sales, s': Sales, t: TxId) {
    && Committed(s') == Committed(s)
    && (s'.deliveries == s.deliveries || s'.deliveries == s.deliveries + [None])
    && (forall u :: u in s'.txs && u != t ==> u in s.txs && s'.txs[u] == s.txs[u])
  }

  lemma EndOuter(s: Sales, t: TxId)
    ensures Outer(s, End(s, t), t)
  {
  }

  lemma ToOuter(s: Sales, t: TxId, tx: SalesTx, s': Sales)
    requires t in s.txs && s'.txs == s.txs[t := tx] && Committed(s') == Committed(s)
    requires s'.deliveries == s.deliveries || s'.deliveries == s.deliveries + [None]
    ensures Outer(s, s', t)
  {
  }

  lemma MarkOuter(s: Sales, t: TxId, id: nat, reserved: bool, stage: Stage)
    requires t in s.txs && id < |s.orders|
    ensures Outer(s, MarkOrder(s, t, id, reserved, stage), t)
  {
    EndOuter(s, t);
  }

  lemma UpdateOuter(s: Sales, t: TxId, id: nat, to: OrderStatus, version: int)
    requires t in s.txs && id < |s.orders|
    ensures Outer(s, UpdateOrder(s, t, id, to, version), t)
  {
    EndOuter(s, t);
  }

  lemma UpdateDeliveryOuter(s: Sales, t: TxId, d: nat, to: DeliveryStatus, version: int)
    requires t in s.txs
    ensures Outer(s, UpdateDelivery(s, t, d, to, version), t)
  {
    EndOuter(s, t);
  }

  lemma ReservingOuter(s: Sales, t: TxId)
    requires t in s.txs && t in s.inventory.txs && s.txs[t].call.Reserving?
    ensures Outer(s, ReservingStep(s, t), t)
  {
    hide MarkOrder;
    EndOuter(s, t);
    if s.txs[t].call.order < |s.orders| {
      MarkOuter(s, t, s.txs[t].call.order, true, Written);
    }
  }

  lemma MovingOrderOuter(s: Sales, t: TxId)
    requires t in s.txs && t in s.inventory.txs && s.txs[t].call.MovingOrder?
    ensures Outer(s, MovingOrderStep(s, t), t)
  {
    hide MarkOrder, UpdateOrder;
    var c := s.txs[t].call;
    EndOuter(s, t);
    if c.order < |s.orders| {
      UpdateOuter(s, t, c.order, c.orderTo, c.expected);
      UpdateOuter(s, t, c.order, c.orderTo, c.expected + 1);
      if s.txs[t].stage.Freeing? {
        MarkOuter(s, t, c.order, false, Freed(s.txs[t].stage.order));
      }
    }
  }

  lemma CreatingOuter(s: Sales, t: TxId)
    requires t in s.txs && t in s.inventory.txs && s.txs[t].call.Creating?
    ensures Outer(s, CreatingStep(s, t), t)
  {
    hide OpenStep, InsertStep, ListStep, LinkStep;
    EndOuter(s, t);
    match s.txs[t].stage
    case Begun => OpenOuter(s, t);
    case OrderSeen(o) => InsertOuter(s, t, o);
    case Opened(d, lines) => ListOuter(s, t, d, lines);
    case Linking(d, linked) => LinkOuter(s, t, d, linked);
    case _ =>
  }

  lemma OpenOuter(s: Sales, t: TxId)
    requires t in s.txs && s.txs[t].call.Creating?
    ensures Outer(s, OpenStep(s, t), t)
  {
    EndOuter(s, t);
  }

  lemma InsertOuter(s: Sales, t: TxId, o: Order)
    requires t in s.txs && s.txs[t].call.Creating?
    ensures Outer(s, InsertStep(s, t, o), t)
  {
  }

  lemma ListOuter(s: Sales, t: TxId, d: nat, lines: seq<DeliveryLine>)
    requires t in s.txs && t in s.inventory.txs && s.txs[t].call.Creating?
    ensures Outer(s, ListStep(s, t, d, lines), t)
  {
    EndOuter(s, t);
  }

  lemma LinkOuter(s: Sales, t: TxId, d: nat, linked: seq<DeliveryLine>)
    requires t in s.txs
    ensures Outer(s, LinkStep(s, t, d, linked), t)
  {
    EndOuter(s, t);
  }

  lemma MovingDeliveryOuter(s: Sales, t: TxId)
    requires t in s.txs && t in s.inventory.txs && s.txs[t].call.MovingDelivery?
    ensures Outer(s, MovingDeliveryStep(s, t), t)
  {
    hide UpdateDelivery;
    EndOuter(s, t);
    UpdateDeliveryOuter(s, t, s.txs[t].call.delivery, s.txs[t].call.to, s.txs[t].call.expected);
  }

  lemma AdvanceOuter(s: Sales, t: TxId)
    requires t in s.txs && t in s.inventory.txs && s.inventory.txs[t].calls == [] && !s.txs[t].stage.Written?
    ensures Outer(s, AdvanceStep(s, t), t)
  {
    hide Outer, ReservingStep, MovingOrderStep, CreatingStep, MovingDeliveryStep;
    match s.txs[t].call
    case Reserving(_, _) => ReservingOuter(s, t);
    case MovingOrder(_, _, _, _) => MovingOrderOuter(s, t);
    case Creating(_, _, _, _) => CreatingOuter(s, t);
    case MovingDelivery(_, _, _, _) => MovingDeliveryOuter(s, t);
  }

  lemma AdvanceMoves(s: Sales, t: TxId)
    requires RowsInv(s.inventory) && t in s.txs && t in s.inventory.txs
    ensures OnlyStatusMoves(Committed(s), Committed(AdvanceStep(s, t)))
  {
    hide RowsInv, ReservingStep, MovingOrderStep, CreatingStep, MovingDeliveryStep;
    if s.inventory.txs[t].calls != [] {
      StepRows(s.inventory, t);
      StepMoves(s.inventory, I.Step(s.inventory, t));
    } else if s.txs[t].stage.Written? {
      CommitRows(s.inventory, t);
      StepMoves(s.inventory, I.Commit(s.inventory, t));
    } else {
      AdvanceOuter(s, t);
    }
  }

  lemma HappenMoves(s: Sales, e: Event)
    requires RowsInv(s.inventory) && SalesSafety.Admissible(s, e)
    ensures OnlyStatusMoves(Committed(s), Committed(Happen(s, e)))
  {
    hide RowsInv;
    match e
    case Inventory(i) =>
      if !OfSales(s, i) {
        HappenRows(s.inventory, i);
        StepMoves(s.inventory, I.Happen(s.inventory, i));
      }
    case Advance(t) => if t in s.txs && t in s.inventory.txs { AdvanceMoves(s, t); }
    case _ =>
  }

  lemma {:induction false} ExecMoves(s: Sales, events: seq<Event>)
    requires SalesInv(s, ANYONE) && SalesSafety.AdmissibleRun(s, events, ANYONE)
    ensures OnlyStatusMoves(Committed(s), Committed(Exec(s, events)))
    decreases |events|
  {
    hide RowsInv, Knows, SalesSafety.Admissible, Happen;
    if events != [] {
      SalesSafety.HappenKeeps(s, events[0], ANYONE);
      HappenMoves(s, events[0]);
      ExecMoves(Happen(s, events[0]), events[1..]);
      OnlyStatusMovesTransitive(Committed(s), Committed(Happen(s, events[0])), Committed(Exec(s, events)));
    }
  }

  /**
    Whatever order, delivery and inventory transactions overlap, and however, from any honest
    world: every row that a COMPLETED delivery refers to is FULFILLED in that committed state
    and in every later one, even if a call that asks for a later version has changed the
    delivery's status meanwhile.
   */
  lemma CompletedMeansIssued(w: World, first: seq<Event>, later: seq<Event>, d: nat)
    requires Honest(w) && SalesSafety.AdmissibleRun(From(w), first, ANYONE)
    requires SalesSafety.AdmissibleRun(Exec(From(w), first), later, ANYONE)
    requires var s := Exec(From(w), first);
             d < |s.deliveries| && s.deliveries[d].Some? && s.deliveries[d].value.status == COMPLETED
    ensures var s := Exec(From(w), first);
            && IssuedReferences(Committed(s), s.deliveries[d].value)
            && IssuedReferences(Committed(Exec(s, later)), s.deliveries[d].value)
  {
    hide RowsInv, Knows, SalesSafety.AdmissibleRun;
    FromHonest(w, ANYONE);
    SalesSafety.ExecKeeps(From(w), first, ANYONE);
    var s := Exec(From(w), first);
    assert DeliveryOk(Committed(s), s.deliveries[d].value);
    ExecMoves(s, later);
    MovesKeepIssued(Committed(s), Committed(Exec(s, later)), s.deliveries[d].value);
  }

  // ------------------------------------------------------- released references

  predicate Completing(tx: SalesTx, d: nat) {
    tx.call.MovingDelivery? && tx.call.delivery == d && tx.call.to == COMPLETED
  }

  /** A completion under way has listed row `i`, and nobody is about to commit delivery `d` as COMPLETED. */
  predicate Blocked(tx: SalesTx, d: nat, i: nat) {
    && (Completing(tx, d) && (tx.stage.Locking? || tx.stage.Issuing?) ==> i in tx.stage.ids)
    && (tx.delivery.Some? && tx.delivery.value.0 == d ==> tx.delivery.value.1.status != COMPLETED)
  }

  /** Delivery `d` is not COMPLETED, and row `i` of its order has been released. */
  ghost predicate Doomed(s: Sales, d: nat, i: nat) {
    && d < |s.deliveries| && s.deliveries[d].Some? && s.deliveries[d].value.status != COMPLETED
    && RowOf(Committed(s), i, OrderSource(s.deliveries[d].value.scope, s.deliveries[d].value.order))
    && Released(Committed(s), i)
    && forall t :: t in s.txs ==> Blocked(s.txs[t], d, i)
  }

  /** In a view, too, the row is RELEASED. */
  lemma ReleasedInView(s: Sales, t: TxId, i: nat)
    requires RowsInv(s.inventory) && t in s.inventory.txs && Released(Committed(s), i)
    ensures i < |RowsSeen(s, t)| && RowsSeen(s, t)[i] == Committed(s)[i]
  {
    assert RowsOk(s.inventory.committed, s.inventory.txs[t]);
  }

  /** A completion that has listed a released row never gets past it. */
  lemma StillIssuing(s: Sales, t: TxId, d: nat, i: nat, late: iset<TxId>)
    requires SalesInv(s, late) && t in s.txs && Completing(s.txs[t], d) && s.txs[t].stage.Issuing?
    requires Released(Committed(s), i) && i in s.txs[t].stage.ids
    ensures t in s.inventory.txs && s.inventory.txs[t].calls != []
  {
    hide RowsInv, Covered;
    KnowsTx(s, t, late);
    ReleasedInView(s, t, i);
  }

  lemma ListingHasIt(s: Sales, t: TxId, seen: Delivery, d: nat, i: nat, late: iset<TxId>)
    requires SalesInv(s, late) && t in s.txs && Completing(s.txs[t], d) && s.txs[t].stage == LinesSeen(seen)
    requires Doomed(s, d, i)
    ensures t in s.inventory.txs && i in SourceRows(RowsSeen(s, t), OrderSource(s.txs[t].call.scope, seen.order))
  {
    hide RowsInv, Covered, Progress;
    KnowsTx(s, t, late);
    ReleasedInView(s, t, i);
  }

  lemma UpdateStaysBlocked(s: Sales, t: TxId, d: nat, i: nat)
    requires t in s.txs && s.txs[t].call.MovingDelivery? && Blocked(s.txs[t], d, i) && !Completing(s.txs[t], d)
    ensures var c := s.txs[t].call;
            var s' := UpdateDelivery(s, t, c.delivery, c.to, c.expected);
            t in s'.txs ==> Blocked(s'.txs[t], d, i)
  {
  }

  lemma StageStaysBlocked(s: Sales, t: TxId, d: nat, i: nat)
    requires t in s.txs && t in s.inventory.txs && s.txs[t].call.MovingDelivery? && Blocked(s.txs[t], d, i)
    requires Completing(s.txs[t], d) ==> !s.txs[t].stage.Issuing?
    requires Completing(s.txs[t], d) && s.txs[t].stage.LinesSeen? ==>
      i in SourceRows(RowsSeen(s, t), OrderSource(s.txs[t].call.scope, s.txs[t].stage.seen.order))
    ensures t in MovingDeliveryStep(s, t).txs ==> Blocked(MovingDeliveryStep(s, t).txs[t], d, i)
  {
    hide UpdateDelivery;
    if !Completing(s.txs[t], d) {
      UpdateStaysBlocked(s, t, d, i);
    }
  }

  /** One's own next stage, in a call that moves the delivery. */
  lemma MovingStaysBlocked(s: Sales, t: TxId, d: nat, i: nat, late: iset<TxId>)
    requires SalesInv(s, late) && t in s.txs && t in s.inventory.txs && Doomed(s, d, i)
    requires s.txs[t].call.MovingDelivery?
    requires s.inventory.txs[t].calls == []
    ensures t in MovingDeliveryStep(s, t).txs ==> Blocked(MovingDeliveryStep(s, t).txs[t], d, i)
  {
    hide SalesInv, MovingDeliveryStep;
    assert Blocked(s.txs[t], d, i);
    if Completing(s.txs[t], d) {
      if s.txs[t].stage.LinesSeen? {
        ListingHasIt(s, t, s.txs[t].stage.seen, d, i, late);
      }
      if s.txs[t].stage.Issuing? {
        StillIssuing(s, t, d, i, late);
      }
    }
    StageStaysBlocked(s, t, d, i);
  }

  lemma ReservingStaysBlocked(s: Sales, t: TxId, d: nat, i: nat)
    requires t in s.txs && t in s.inventory.txs && Blocked(s.txs[t], d, i) && s.txs[t].call.Reserving?
    ensures t in ReservingStep(s, t).txs ==> Blocked(ReservingStep(s, t).txs[t], d, i)
  {
  }

  lemma MovingOrderStaysBlocked(s: Sales, t: TxId, d: nat, i: nat)
    requires t in s.txs && t in s.inventory.txs && Blocked(s.txs[t], d, i) && s.txs[t].call.MovingOrder?
    ensures t in MovingOrderStep(s, t).txs ==> Blocked(MovingOrderStep(s, t).txs[t], d, i)
  {
  }

  lemma CreatingStaysBlocked(s: Sales, t: TxId, d: nat, i: nat)
    requires t in s.txs && t in s.inventory.txs && Blocked(s.txs[t], d, i) && s.txs[t].call.Creating?
    ensures t in CreatingStep(s, t).txs ==> Blocked(CreatingStep(s, t).txs[t], d, i)
  {
    hide LinkStep, ListStep, OpenStep;
    match s.txs[t].stage
    case Begun => OpenStaysBlocked(s, t, d, i);
    case Opened(n, lines) => ListStaysBlocked(s, t, n, lines, d, i);
    case Linking(n, linked) => LinkStaysBlocked(s, t, n, linked, d, i);
    case _ =>
  }

  lemma OpenStaysBlocked(s: Sales, t: TxId, d: nat, i: nat)
    requires t in s.txs && Blocked(s.txs[t], d, i) && s.txs[t].call.Creating?
    ensures t in OpenStep(s, t).txs ==> Blocked(OpenStep(s, t).txs[t], d, i)
  {
  }

  lemma ListStaysBlocked(s: Sales, t: TxId, n: nat, lines: seq<DeliveryLine>, d: nat, i: nat)
    requires t in s.txs && t in s.inventory.txs && Blocked(s.txs[t], d, i) && s.txs[t].call.Creating?
    ensures t in ListStep(s, t, n, lines).txs ==> Blocked(ListStep(s, t, n, lines).txs[t], d, i)
  {
  }

  lemma LinkStaysBlocked(s: Sales, t: TxId, n: nat, linked: seq<DeliveryLine>, d: nat, i: nat)
    requires t in s.txs && Blocked(s.txs[t], d, i) && s.txs[t].call.Creating?
    ensures t in LinkStep(s, t, n, linked).txs ==> Blocked(LinkStep(s, t, n, linked).txs[t], d, i)
  {
  }

  lemma OuterStaysBlocked(s: Sales, t: TxId, d: nat, i: nat, late: iset<TxId>)
    requires SalesInv(s, late) && t in s.txs && t in s.inventory.txs && Doomed(s, d, i)
    requires s.inventory.txs[t].calls == [] && !s.txs[t].stage.Written?
    ensures t in AdvanceStep(s, t).txs ==> Blocked(AdvanceStep(s, t).txs[t], d, i)
  {
    hide SalesInv, Blocked, ReservingStep, MovingOrderStep, CreatingStep, MovingDeliveryStep;
    assert Blocked(s.txs[t], d, i);
    match s.txs[t].call
    case Reserving(_, _) => ReservingStaysBlocked(s, t, d, i);
    case MovingOrder(_, _, _, _) => MovingOrderStaysBlocked(s, t, d, i);
    case Creating(_, _, _, _) => CreatingStaysBlocked(s, t, d, i);
    case MovingDelivery(_, _, _, _) => MovingStaysBlocked(s, t, d, i, late);
  }

  /** A step other than a commit leaves the committed deliveries, but for a new empty place. */
  lemma AdvanceDeliveries(s: Sales, t: TxId)
    requires t in s.txs && t in s.inventory.txs
    ensures var s' := AdvanceStep(s, t);
            || s'.deliveries == s.deliveries || s'.deliveries == s.deliveries + [None]
            || (s.inventory.txs[t].calls == [] && s.txs[t].stage.Written? && s' == CommitStep(s, t))
  {
    hide ReservingStep, MovingOrderStep, CreatingStep, MovingDeliveryStep;
    if s.inventory.txs[t].calls == [] && !s.txs[t].stage.Written? {
      AdvanceOuter(s, t);
    }
  }

  lemma AdvanceOthers(s: Sales, t: TxId, u: TxId)
    requires t in s.txs && t in s.inventory.txs && u in AdvanceStep(s, t).txs && u != t
    ensures u in s.txs && AdvanceStep(s, t).txs[u] == s.txs[u]
  {
    hide ReservingStep, MovingOrderStep, CreatingStep, MovingDeliveryStep;
    if s.inventory.txs[t].calls == [] && !s.txs[t].stage.Written? {
      AdvanceOuter(s, t);
    }
  }

  lemma InnerStays(s: Sales, t: TxId)
    requires t in s.txs && t in s.inventory.txs && s.inventory.txs[t].calls != [] && t in AdvanceStep(s, t).txs
    ensures AdvanceStep(s, t).txs[t] == s.txs[t]
  {
  }

  lemma AdvanceStaysBlocked(s: Sales, t: TxId, u: TxId, d: nat, i: nat, late: iset<TxId>)
    requires SalesInv(s, late) && t in s.txs && t in s.inventory.txs && Doomed(s, d, i) && u in AdvanceStep(s, t).txs
    ensures Blocked(AdvanceStep(s, t).txs[u], d, i)
  {
    hide SalesInv;
    if u != t {
      AdvanceOthers(s, t, u);
    } else if s.inventory.txs[t].calls != [] {
      InnerStays(s, t);
    } else if !s.txs[t].stage.Written? {
      OuterStaysBlocked(s, t, d, i, late);
    }
  }

  lemma CommittedStays(s: Sales, t: TxId, d: nat, i: nat, late: iset<TxId>)
    requires SalesInv(s, late) && t in s.txs && t in s.inventory.txs && Doomed(s, d, i)
    ensures var ds := AdvanceStep(s, t).deliveries;
            && d < |ds| && ds[d].Some? && ds[d].value.status != COMPLETED
            && ds[d].value.scope == s.deliveries[d].value.scope && ds[d].value.order == s.deliveries[d].value.order
  {
    hide SalesInv, RowsInv, Knows;
    AdvanceDeliveries(s, t);
    KnowsOwn(s, t, late);
    CommitOthers(s, t, OnTime(t, late));
    assert Blocked(s.txs[t], d, i);
  }

  lemma DoomedAdvances(s: Sales, t: TxId, d: nat, i: nat, late: iset<TxId>)
    requires SalesInv(s, late) && t in s.txs && t in s.inventory.txs && Doomed(s, d, i)
    ensures Doomed(AdvanceStep(s, t), d, i)
  {
    hide SalesInv, RowsInv, Knows;
    var s' := AdvanceStep(s, t);
    KnowsTx(s, t, late);
    AdvanceMoves(s, t);
    CommittedStays(s, t, d, i, late);
    forall u | u in s'.txs ensures Blocked(s'.txs[u], d, i) {
      AdvanceStaysBlocked(s, t, u, d, i, late);
    }
  }

  lemma DoomedHappens(s: Sales, e: Event, d: nat, i: nat, late: iset<TxId>)
    requires SalesInv(s, late) && SalesSafety.Admissible(s, e) && Doomed(s, d, i)
    ensures Doomed(Happen(s, e), d, i)
  {
    hide RowsInv, Knows;
    if e.Advance? {
      if e.t in s.txs && e.t in s.inventory.txs {
        DoomedAdvances(s, e.t, d, i, late);
      }
    } else {
      HappenMoves(s, e);
    }
  }

  lemma {:induction false} DoomedForever(s: Sales, events: seq<Event>, d: nat, i: nat, late: iset<TxId>)
    requires SalesInv(s, late) && SalesSafety.AdmissibleRun(s, events, late) && Doomed(s, d, i)
    ensures Doomed(Exec(s, events), d, i)
    decreases |events|
  {
    hide SalesInv, SalesSafety.Admissible, Timely, Doomed;
    if events != [] {
      SalesSafety.HappenKeeps(s, events[0], late);
      DoomedHappens(s, events[0], d, i, late);
      DoomedForever(Happen(s, events[0]), events[1..], d, i, late);
    }
  }

  ghost predicate CommittedRefers(s: Sales, d: nat, n: nat, i: nat) {
    && d < |s.deliveries| && s.deliveries[d].Some? && n < |s.deliveries[d].value.lines|
    && s.deliveries[d].value.lines[n].reservation == Some(i) && Released(Committed(s), i)
  }

  /** Whoever has listed rows for this delivery has listed those it refers to. */
  lemma RefersIsBlocked(s: Sales, d: nat, n: nat, i: nat, t: TxId, late: iset<TxId>)
    requires SalesInv(s, late) && CommittedRefers(s, d, n, i) && t in s.txs
    ensures Blocked(s.txs[t], d, i)
  {
    hide RowsInv;
    KnowsTx(s, t, late);
    ReleasedInView(s, t, i);
    var tx := s.txs[t];
    if Completing(tx, d) && (tx.stage.Locking? || tx.stage.Issuing?) {
      assert tx.stage.seen.lines == s.deliveries[d].value.lines;
      assert tx.stage.seen.lines[n].reservation.value in tx.stage.ids;
    }
    assert !IssuedReference(RowsSeen(s, t), s.deliveries[d].value.lines[n]);
  }

  lemma RefersIsDoomed(s: Sales, d: nat, n: nat, i: nat, late: iset<TxId>)
    requires SalesInv(s, late) && CommittedRefers(s, d, n, i)
    ensures Doomed(s, d, i)
  {
    hide RowsInv, Knows;
    var row := s.deliveries[d].value;
    assert DeliveryOk(Committed(s), row);
    assert OwnReference(Committed(s), row, row.lines[n]);
    assert row.status == COMPLETED ==> IssuedReference(Committed(s), row.lines[n]);
    forall t | t in s.txs ensures Blocked(s.txs[t], d, i) {
      RefersIsBlocked(s, d, n, i, t, late);
    }
  }

  /**
    A delivery that in some committed state refers to a RELEASED row is not COMPLETED there and
    never will be, whatever is open then and whatever overlaps later.
   */
  lemma ReleasedNeverCompletes(w: World, first: seq<Event>, later: seq<Event>, d: nat, n: nat, i: nat)
    requires Honest(w) && SalesSafety.AdmissibleRun(From(w), first, ANYONE)
    requires SalesSafety.AdmissibleRun(Exec(From(w), first), later, ANYONE)
    requires CommittedRefers(Exec(From(w), first), d, n, i)
    ensures var s := Exec(Exec(From(w), first), later);
            d < |s.deliveries| && s.deliveries[d].Some? && s.deliveries[d].value.status != COMPLETED
  {
    hide SalesInv, SalesSafety.AdmissibleRun;
    FromHonest(w, ANYONE);
    SalesSafety.ExecKeeps(From(w), first, ANYONE);
    var s := Exec(From(w), first);
    RefersIsDoomed(s, d, n, i, ANYONE);
    DoomedForever(s, later, d, i, ANYONE);
  }

  // ------------------------------------------------------------ legal statuses

  /** What one event may do to a committed delivery. */
  predicate LegalChange(a: Delivery, b: Delivery) {
    b == a || (Legal(a.status, b.status) && Later(a, b))
  }

  /** A change is one version up, and to COMPLETED only with every line referring to a row. */
  predicate OneVersion(a: Delivery, b: Delivery) {
    b == a || (Later(a, b) && b.version == a.version + 1 && (b.status == COMPLETED ==> AllRefer(b.lines)))
  }

  lemma AdvanceChanges(s: Sales, t: TxId, d: nat, late: iset<TxId>)
    requires SalesInv(s, late) && t in s.txs && t in s.inventory.txs && d < |s.deliveries| && s.deliveries[d].Some?
    ensures var ds := AdvanceStep(s, t).deliveries;
            && d < |ds| && ds[d].Some? && OneVersion(s.deliveries[d].value, ds[d].value)
            && (OnTime(t, late) ==> LegalChange(s.deliveries[d].value, ds[d].value))
  {
    hide SalesInv, RowsInv, Knows;
    AdvanceDeliveries(s, t);
    KnowsOwn(s, t, late);
    CommitOthers(s, t, OnTime(t, late));
  }

  /** Whoever is not late changes a status only as the transitions allow. */
  lemma HappenChanges(s: Sales, e: Event, d: nat, late: iset<TxId>)
    requires SalesInv(s, late) && d < |s.deliveries| && s.deliveries[d].Some?
    ensures var ds := Happen(s, e).deliveries;
            && d < |ds| && ds[d].Some? && OneVersion(s.deliveries[d].value, ds[d].value)
            && ((e.Advance? ==> OnTime(e.t, late)) ==> LegalChange(s.deliveries[d].value, ds[d].value))
  {
    hide SalesInv, RowsInv, Knows;
    if e.Advance? && e.t in s.txs {
      assert e.t in s.inventory.txs by { KnowsTx(s, e.t, late); }
      AdvanceChanges(s, e.t, d, late);
    }
  }

  predicate Final(status: DeliveryStatus) { status == COMPLETED || status == DeliveryStatus.CANCELLED }

  lemma {:induction false} ExecKeepsFinal(s: Sales, events: seq<Event>, d: nat)
    requires SalesInv(s, NO_ONE) && SalesSafety.AdmissibleRun(s, events, NO_ONE) && d < |s.deliveries|
    requires s.deliveries[d].Some?
    requires Final(s.deliveries[d].value.status)
    ensures d < |Exec(s, events).deliveries| && Exec(s, events).deliveries[d] == s.deliveries[d]
    decreases |events|
  {
    hide SalesInv, SalesSafety.Admissible, Timely;
    if events != [] {
      SalesSafety.HappenKeeps(s, events[0], NO_ONE);
      HappenChanges(s, events[0], d, NO_ONE);
      ExecKeepsFinal(Happen(s, events[0]), events[1..], d);
    }
  }

  /**
    When no call expects a version above the one it reads, every committed change of a delivery's
    status is one the transitions allow; so COMPLETED and CANCELLED deliveries stay as they are.
   */
  lemma StatusesMoveLegally(w: World, first: seq<Event>, e: Event, later: seq<Event>, d: nat)
    requires Honest(w) && SalesSafety.AdmissibleRun(From(w), first, NO_ONE)
    requires SalesSafety.AdmissibleRun(Exec(From(w), first), later, NO_ONE)
    requires d < |Exec(From(w), first).deliveries| && Exec(From(w), first).deliveries[d].Some?
    ensures var s := Exec(From(w), first);
            var s1, s2 := Happen(s, e), Exec(s, later);
            && d < |s1.deliveries| && s1.deliveries[d].Some?
                && LegalChange(s.deliveries[d].value, s1.deliveries[d].value)
            && (Final(s.deliveries[d].value.status) ==> d < |s2.deliveries| && s2.deliveries[d] == s.deliveries[d])
  {
    hide SalesInv, SalesSafety.AdmissibleRun;
    FromHonest(w, NO_ONE);
    SalesSafety.ExecKeeps(From(w), first, NO_ONE);
    HappenChanges(Exec(From(w), first), e, d, NO_ONE);
    if Final(Exec(From(w), first).deliveries[d].value.status) {
      ExecKeepsFinal(Exec(From(w), first), later, d);
    }
  }

  lemma {:induction false} ExecGrows(s: Sales, events: seq<Event>, d: nat)
    requires SalesInv(s, ANYONE) && SalesSafety.AdmissibleRun(s, events, ANYONE)
    requires d < |s.deliveries| && s.deliveries[d].Some?
    ensures var ds := Exec(s, events).deliveries;
            d < |ds| && ds[d].Some? && Later(s.deliveries[d].value, ds[d].value)
    decreases |events|
  {
    hide SalesInv, SalesSafety.Admissible, Happen;
    if events != [] {
      SalesSafety.HappenKeeps(s, events[0], ANYONE);
      HappenChanges(s, events[0], d, ANYONE);
      ExecGrows(Happen(s, events[0]), events[1..], d);
      LaterTransitive(
        s.deliveries[d].value, Happen(s, events[0]).deliveries[d].value, Exec(s, events).deliveries[d].value);
    }
  }

  /**
    A delivery's version only grows, whatever versions calls expect.  So a version that a caller has
    been shown is never above the one a later call reads.
   */
  lemma DeliveryVersionsGrow(w: World, first: seq<Event>, later: seq<Event>, d: nat)
    requires Honest(w) && SalesSafety.AdmissibleRun(From(w), first, ANYONE)
    requires SalesSafety.AdmissibleRun(Exec(From(w), first), later, ANYONE)
    requires d < |Exec(From(w), first).deliveries| && Exec(From(w), first).deliveries[d].Some?
    ensures var ds, ds' := Exec(From(w), first).deliveries, Exec(Exec(From(w), first), later).deliveries;
            d < |ds'| && ds'[d].Some? && Later(ds[d].value, ds'[d].value)
  {
    hide SalesInv, SalesSafety.AdmissibleRun;
    FromHonest(w, ANYONE);
    SalesSafety.ExecKeeps(From(w), first, ANYONE);
    ExecGrows(Exec(From(w), first), later, d);
  }
}
