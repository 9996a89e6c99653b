/**
  A delivery's transition that expects a version above the one it reads, while every other
  call expects at most the version it reads: how far above it must be to do harm.
 */
module SalesAhead {
  import opened Wrappers
  import opened InventoryTables
  import opened InventorySpec
  import opened InventoryBySource
  import opened SalesSpec
  import opened SalesDeliveries
  import opened SalesRows
  import opened SalesConcurrency
  import opened SalesSafety
  import opened SalesInterleaving
  import opened SalesRuns
  import I = InventoryConcurrency

  /** A completion of the delivery can go through. */
  ghost predicate Completable(rows: seq<Option<Reservation>>, row: Delivery) {
    AllRefer(row.lines) && Unreleased(rows, OrderSource(row.scope, row.order))
  }

  /** Which call, and how far above the version read, can find the row in a status it may not change. */
  predicate Harmful(status: DeliveryStatus, to: DeliveryStatus, ahead: int, completable: bool) {
    && DeliveryMoves(status, to)
    && match status
       case DRAFT => ahead >= 1
       case DISPATCHED => ahead == 1 || (ahead == 2 && completable)
       case DELIVERED => ahead == 1 && completable
       case _ => false
  }

  /** In some run in which everyone else is on time an event changes the delivery as no transition may. */
  ghost predicate CanBreak(s: Sales, d: nat) {
    exists later, e :: Breaks(s, later, e, d)
  }

  ghost predicate Breaks(s: Sales, later: seq<Event>, e: Event, d: nat) {
    && SalesSafety.AdmissibleRun(s, later + [e], NO_ONE)
    && var ds, ds' := Exec(s, later).deliveries, Happen(Exec(s, later), e).deliveries;
       && d < |ds| && ds[d].Some? && d < |ds'| && ds'[d].Some? && !LegalChange(ds[d].value, ds'[d].value)
  }

  // ------------------------------------------------------- when it is harmless

  /** What the row can be, since it was read, while all changes are legal. */
  predicate Ahead(from: Delivery, now: Delivery, completable: bool) {
    && Later(from, now)
    && match from.status
       case DRAFT => true
       case DISPATCHED =>
         || now.version == from.version
         || (now.version == from.version + 1 && (now.status == DELIVERED || now.status == DeliveryStatus.CANCELLED))
         || (now.version == from.version + 2 && now.status == COMPLETED && completable)
       case DELIVERED =>
         now.version == from.version || (now.version == from.version + 1 && now.status == COMPLETED && completable)
       case _ => now.version == from.version
  }

  lemma AheadStep(from: Delivery, now: Delivery, next: Delivery, completable: bool)
    requires Ahead(from, now, completable) && LegalChange(now, next) && OneVersion(now, next)
    requires next.status == COMPLETED && next != now ==> completable || from.status == DeliveryStatus.DRAFT
    ensures Ahead(from, next, completable)
  {
    LaterTransitive(from, now, next);
  }

  lemma HarmlessIsLegal(from: Delivery, now: Delivery, to: DeliveryStatus, ahead: int, completable: bool)
    requires Ahead(from, now, completable) && DeliveryMoves(from.status, to)
    requires !Harmful(from.status, to, ahead, completable)
    requires now.version == from.version + ahead
    ensures DeliveryMoves(now.status, to)
  {
  }

  /** No completion can go through: a line refers to no row, or a row of the order was released. */
  ghost predicate Barred(s: Sales, d: nat, from: Delivery) {
    from.status == DeliveryStatus.DRAFT || !AllRefer(from.lines) || exists i :: Doomed(s, d, i)
  }

  /** What the transaction has read of the delivery, before its last update. */
  predicate HasSeen(stage: Stage, from: Delivery) {
    match stage
    case HeadSeen(head) => head.status == from.status && head.version == from.version
    case LinesSeen(seen) => seen.status == from.status && seen.version == from.version
    case Locking(seen, _, _) => seen.status == from.status && seen.version == from.version
    case Issuing(seen, _) => seen.status == from.status && seen.version == from.version
    case _ => false
  }

  predicate StillMoving(s: Sales, t: TxId, call: Call, from: Delivery) {
    t in s.txs && s.txs[t].call == call && call.MovingDelivery? && HasSeen(s.txs[t].stage, from)
  }

  ghost predicate AheadNow(s: Sales, d: nat, from: Delivery, completable: bool) {
    && d < |s.deliveries| && s.deliveries[d].Some? && Ahead(from, s.deliveries[d].value, completable)
    && (!completable ==> Barred(s, d, from))
  }

  /** Either the late call has still to make its last update, or there is no late call any more. */
  ghost predicate Phase(s: Sales, t: TxId, call: Call, from: Delivery, completable: bool) {
    || SalesInv(s, NO_ONE)
    || (call.MovingDelivery? && SalesInv(s, iset{t}) && StillMoving(s, t, call, from)
        && AheadNow(s, call.delivery, from, completable))
  }

  lemma NobodyLate(s: Sales, t: TxId)
    requires SalesInv(s, iset{t}) && (t in s.txs ==> Knows(s, t, true))
    ensures SalesInv(s, NO_ONE)
  {
    hide RowsInv, Knows;
    forall u | u in s.txs ensures u in s.inventory.txs && Knows(s, u, OnTime(u, NO_ONE)) {
      KnowsTx(s, u, iset{t});
    }
  }

  lemma OthersSeeNothing(s: Sales, e: Event, t: TxId)
    requires t in s.txs && t in Happen(s, e).txs && !(e.Advance? && e.t == t)
    ensures Happen(s, e).txs[t] == s.txs[t]
  {
    hide AdvanceStep;
    if e.Advance? && e.t in s.txs && e.t in s.inventory.txs {
      AdvanceOthers(s, e.t, t);
    }
  }

  lemma BarredStays(s: Sales, e: Event, d: nat, from: Delivery, late: iset<TxId>)
    requires SalesInv(s, late) && SalesSafety.Admissible(s, e) && Barred(s, d, from)
    ensures Barred(Happen(s, e), d, from)
  {
    hide SalesInv, Doomed, Happen, SalesSafety.Admissible;
    if from.status != DeliveryStatus.DRAFT && AllRefer(from.lines) {
      var i :| Doomed(s, d, i);
      DoomedHappens(s, e, d, i, late);
    }
  }

  lemma OtherEvent(s: Sales, e: Event, t: TxId, call: Call, from: Delivery, completable: bool)
    requires call.MovingDelivery? && SalesInv(s, iset{t}) && StillMoving(s, t, call, from)
    requires AheadNow(s, call.delivery, from, completable)
    requires SalesSafety.Admissible(s, e) && Timely(s, e, NO_ONE) && !(e.Advance? && e.t == t)
    ensures Phase(Happen(s, e), t, call, from, completable)
    ensures var ds := Happen(s, e).deliveries; call.delivery < |ds| && ds[call.delivery].Some?
    ensures LegalChange(s.deliveries[call.delivery].value, Happen(s, e).deliveries[call.delivery].value)
  {
    hide SalesInv, Barred, Happen, SalesSafety.Admissible;
    var d, s' := call.delivery, Happen(s, e);
    SalesSafety.HappenKeeps(s, e, iset{t});
    HappenChanges(s, e, d, iset{t});
    if !completable {
      BarredStays(s, e, d, from, iset{t});
      if s'.deliveries[d] != s.deliveries[d] && s'.deliveries[d].value.status == COMPLETED {
        NotCompleted(s, s', d, from);
      }
    }
    AheadStep(from, s.deliveries[d].value, s'.deliveries[d].value, completable);
    if t in s'.txs {
      OthersSeeNothing(s, e, t);
    } else {
      NobodyLate(s', t);
    }
  }

  lemma NotCompleted(s: Sales, s': Sales, d: nat, from: Delivery)
    requires d < |s.deliveries| && s.deliveries[d].Some? && d < |s'.deliveries| && s'.deliveries[d].Some?
    requires Later(from, s.deliveries[d].value) && OneVersion(s.deliveries[d].value, s'.deliveries[d].value)
    requires Barred(s', d, from) && s'.deliveries[d] != s.deliveries[d] && s'.deliveries[d].value.status == COMPLETED
    ensures from.status == DeliveryStatus.DRAFT
  {
  }

  lemma LateIsTimely(s: Sales, t: TxId)
    ensures Timely(s, Advance(t), iset{t})
  {
  }

  /** The row with the change made by the last update. */
  function Updated(now: Delivery, call: Call): Delivery
    requires call.MovingDelivery?
  {
    now.(status := call.to, version := now.version + 1)
  }

  lemma UpdateIs(s: Sales, t: TxId, d: nat, to: DeliveryStatus, version: int)
    requires t in s.txs && d < |s.deliveries| && s.deliveries[d].Some? && t in UpdateDelivery(s, t, d, to, version).txs
    ensures var now, s' := s.deliveries[d].value, UpdateDelivery(s, t, d, to, version);
            || s' == s
            || (now.version == version && s' == WriteDelivery(s, t, d, now.(status := to, version := now.version + 1)))
  {
  }

  /** A turn of the call reads on, or is its last update. */
  lemma TurnSees(s: Sales, t: TxId, call: Call, from: Delivery)
    requires t in s.inventory.txs && s.inventory.txs[t].calls == [] && StillMoving(s, t, call, from)
    requires call.delivery < |s.deliveries| && s.deliveries[call.delivery].Some?
    requires t in MovingDeliveryStep(s, t).txs
    ensures var d, now, s' := call.delivery, s.deliveries[call.delivery].value, MovingDeliveryStep(s, t);
            || StillMoving(s', t, call, from)
            || (now.version == call.expected && s' == WriteDelivery(s, t, d, Updated(now, call)))
  {
    hide UpdateDelivery, LinesStep, LockStep;
    match s.txs[t].stage
    case HeadSeen(head) => LinesSee(s, t, head, from);
    case LinesSeen(_) => if call.to != COMPLETED { UpdateIs(s, t, call.delivery, call.to, call.expected); }
    case Locking(seen, ids, n) => LockSees(s, t, seen, ids, n, from);
    case Issuing(_, _) => UpdateIs(s, t, call.delivery, call.to, call.expected);
  }

  lemma LinesSee(s: Sales, t: TxId, head: Delivery, from: Delivery)
    requires t in s.txs && s.txs[t].call.MovingDelivery? && HasSeen(HeadSeen(head), from)
    requires s.txs[t].stage == HeadSeen(head)
    requires t in LinesStep(s, t, head).txs
    ensures StillMoving(LinesStep(s, t, head), t, s.txs[t].call, from)
  {
  }

  lemma LockSees(s: Sales, t: TxId, seen: Delivery, ids: seq<nat>, n: nat, from: Delivery)
    requires t in s.txs && t in s.inventory.txs && s.txs[t].call.MovingDelivery?
    requires s.txs[t].stage == Locking(seen, ids, n)
    requires HasSeen(s.txs[t].stage, from)
    ensures StillMoving(LockStep(s, t, seen, ids, n), t, s.txs[t].call, from)
  {
  }

  lemma SeenMoves(s: Sales, t: TxId, call: Call, from: Delivery, late: iset<TxId>)
    requires SalesInv(s, late) && StillMoving(s, t, call, from) && !s.txs[t].stage.HeadSeen?
    ensures DeliveryMoves(from.status, call.to)
  {
    hide RowsInv, Covered, Progress;
    KnowsMoving(s, t, late);
  }

  /** The harmless update is on time after all. */
  lemma UpdateIsLegal(s: Sales, t: TxId, call: Call, from: Delivery, completable: bool)
    requires call.MovingDelivery? && SalesInv(s, iset{t}) && StillMoving(s, t, call, from)
    requires AheadNow(s, call.delivery, from, completable)
    requires !Harmful(from.status, call.to, call.expected - from.version, completable)
    requires t in s.inventory.txs && s.inventory.txs[t].calls == [] && !s.txs[t].stage.HeadSeen?
    requires var now := s.deliveries[call.delivery].value;
             && now.version == call.expected
             && AdvanceStep(s, t) == WriteDelivery(s, t, call.delivery, Updated(now, call))
             && SalesInv(AdvanceStep(s, t), iset{t})
    ensures Knows(AdvanceStep(s, t), t, true)
  {
    hide SalesInv, RowsInv, Barred, AdvanceStep, Harmful, Ahead, OwnReferences, IssuedReferences;
    var s' := AdvanceStep(s, t);
    KnowsTx(s', t, iset{t});
    SeenMoves(s, t, call, from, iset{t});
    HarmlessIsLegal(from, s.deliveries[call.delivery].value, call.to, call.expected - from.version, completable);
  }

  lemma OwnTurnPhase(s: Sales, t: TxId, call: Call, from: Delivery, completable: bool)
    requires call.MovingDelivery? && SalesInv(s, iset{t}) && StillMoving(s, t, call, from)
    requires AheadNow(s, call.delivery, from, completable)
    requires !Harmful(from.status, call.to, call.expected - from.version, completable)
    requires t in s.inventory.txs && t in AdvanceStep(s, t).txs && SalesInv(AdvanceStep(s, t), iset{t})
    ensures StillMoving(AdvanceStep(s, t), t, call, from) || SalesInv(AdvanceStep(s, t), NO_ONE)
  {
    hide SalesInv, Ahead, Barred, Harmful, Knows, MovingDeliveryStep;
    if s.inventory.txs[t].calls != [] {
      InnerStays(s, t);
    } else {
      TurnSees(s, t, call, from);
      if !StillMoving(AdvanceStep(s, t), t, call, from) {
        NotHeadSeen(s, t, call, from);
        UpdateIsLegal(s, t, call, from, completable);
        NobodyLate(AdvanceStep(s, t), t);
      }
    }
  }

  lemma NotHeadSeen(s: Sales, t: TxId, call: Call, from: Delivery)
    requires t in s.inventory.txs && s.inventory.txs[t].calls == [] && StillMoving(s, t, call, from)
    requires t in MovingDeliveryStep(s, t).txs && !StillMoving(MovingDeliveryStep(s, t), t, call, from)
    ensures !s.txs[t].stage.HeadSeen?
  {
  }

  /** The late call's own turn, which is no commit. */
  lemma OwnTurn(s: Sales, t: TxId, call: Call, from: Delivery, completable: bool)
    requires call.MovingDelivery? && SalesInv(s, iset{t}) && StillMoving(s, t, call, from)
    requires AheadNow(s, call.delivery, from, completable)
    requires !Harmful(from.status, call.to, call.expected - from.version, completable)
    requires SalesSafety.Admissible(s, Advance(t))
    ensures Phase(Happen(s, Advance(t)), t, call, from, completable)
    ensures call.delivery < |Happen(s, Advance(t)).deliveries|
    ensures Happen(s, Advance(t)).deliveries[call.delivery] == s.deliveries[call.delivery]
  {
    hide SalesInv, Barred, AdvanceStep, Harmful, Ahead, Timely, Knows;
    var d, s' := call.delivery, Happen(s, Advance(t));
    KnowsTx(s, t, iset{t});
    LateIsTimely(s, t);
    SalesSafety.HappenKeeps(s, Advance(t), iset{t});
    AdvanceDeliveries(s, t);
    if !completable {
      BarredStays(s, Advance(t), d, from, iset{t});
    }
    if t in s'.txs {
      OwnTurnPhase(s, t, call, from, completable);
    } else {
      NobodyLate(s', t);
    }
  }

  /** One event of a run in which the late call cannot do harm. */
  lemma PhaseStep(s: Sales, e: Event, t: TxId, call: Call, from: Delivery, completable: bool)
    requires Phase(s, t, call, from, completable) && SalesSafety.Admissible(s, e) && Timely(s, e, NO_ONE)
    requires call.MovingDelivery? && !Harmful(from.status, call.to, call.expected - from.version, completable)
    requires call.delivery < |s.deliveries| && s.deliveries[call.delivery].Some?
    ensures Phase(Happen(s, e), t, call, from, completable)
    ensures var d, ds := call.delivery, Happen(s, e).deliveries;
            d < |ds| && ds[d].Some? && LegalChange(s.deliveries[d].value, ds[d].value)
  {
    hide SalesInv, StillMoving, AheadNow, Harmful, SalesSafety.Admissible, Timely, Happen;
    if SalesInv(s, NO_ONE) {
      SalesSafety.HappenKeeps(s, e, NO_ONE);
      HappenChanges(s, e, call.delivery, NO_ONE);
    } else if e.Advance? && e.t == t {
      OwnTurn(s, t, call, from, completable);
    } else {
      OtherEvent(s, e, t, call, from, completable);
    }
  }

  lemma {:induction false} HarmlessStaysLegal(
    s: Sales, later: seq<Event>, e: Event, t: TxId, call: Call, from: Delivery, completable: bool)
    requires Phase(s, t, call, from, completable) && SalesSafety.AdmissibleRun(s, later + [e], NO_ONE)
    requires call.MovingDelivery? && !Harmful(from.status, call.to, call.expected - from.version, completable)
    requires call.delivery < |s.deliveries| && s.deliveries[call.delivery].Some?
    ensures !Breaks(s, later, e, call.delivery)
    decreases |later|
  {
    hide Phase, Harmful, SalesSafety.Admissible, Timely, Happen;
    if later == [] {
      assert [] + [e] == [e];
      PhaseStep(s, e, t, call, from, completable);
    } else {
      assert (later + [e])[0] == later[0] && (later + [e])[1..] == later[1..] + [e];
      PhaseStep(s, later[0], t, call, from, completable);
      HarmlessStaysLegal(Happen(s, later[0]), later[1..], e, t, call, from, completable);
    }
  }

  // --------------------------------------------------------- when it does harm

  const NO_ITEMS := Catalogue({}, {})

  /** The world after one transaction has begun to move the delivery and read its row. */
  function HasRead(w: World, t: TxId, scope: Scope, d: nat, to: DeliveryStatus, ahead: int): Sales
    requires d < |w.deliveries|
  {
    Exec(From(w), [Start(t, MovingDelivery(scope, d, to, w.deliveries[d].version + ahead)), Advance(t)])
  }

  lemma ExecTwo(s: Sales, e: Event, f: Event)
    ensures Exec(s, [e, f]) == Happen(Happen(s, e), f)
  {
    assert [e, f][1..] == [f] && [f][1..] == [];
    assert Exec(Happen(s, e), [f]) == Exec(Happen(Happen(s, e), f), []);
  }

  /** The state right after that read. */
  function AfterHead(w: World, t: TxId, scope: Scope, d: nat, to: DeliveryStatus, ahead: int): Sales
    requires d < |w.deliveries|
  {
    var call := MovingDelivery(scope, d, to, w.deliveries[d].version + ahead);
    Sales(I.System(w.tables, NO_ITEMS, map[t := NOTHING], map[]), w.orders, Somes(w.deliveries), map[], map[],
          map[t := SalesTx(call, HeadSeen(w.deliveries[d]), None, None)])
  }

  lemma FirstReads(w: World, t: TxId, scope: Scope, d: nat, to: DeliveryStatus, ahead: int)
    requires Honest(w) && DeliveryVisible(w, scope, d)
    ensures var s := HasRead(w, t, scope, d, to, ahead);
            && SalesInv(s, iset{t}) && SalesInv(s, ANYONE) && Leads(From(w), Rule(iset{t}, true, true), s)
            && (w.deliveries[d].version + ahead < 1 ==> s.txs == map[])
            && (w.deliveries[d].version + ahead >= 1 ==> s == AfterHead(w, t, scope, d, to, ahead))
            && s.deliveries == Somes(w.deliveries)
  {
    hide SalesInv, Leads, Honest;
    var rule := Rule(iset{t}, true, true);
    var call := MovingDelivery(scope, d, to, w.deliveries[d].version + ahead);
    var s0, e, f := From(w), Start(t, call), Advance(t);
    FromHonest(w, iset{t});
    FromHonest(w, ANYONE);
    LeadsNowhere(s0, rule);
    LeadsOn(s0, rule, s0, e, Happen(s0, e));
    LeadsOn(s0, rule, Happen(s0, e), f, Happen(Happen(s0, e), f));
    SalesSafety.HappenKeeps(s0, e, iset{t});
    SalesSafety.HappenKeeps(Happen(s0, e), f, iset{t});
    LeadsKeeps(s0, rule, Happen(Happen(s0, e), f));
    ExecTwo(s0, e, f);
  }

  /** Where the late call waits, the runner having its number plus one. */
  ghost function WaitingScene(w: World, t: TxId, scope: Scope, d: nat, to: DeliveryStatus, ahead: int): Scene
    requires d < |w.deliveries|
  {
    Scene(HasRead(w, t, scope, d, to, ahead), HONEST, t,
          Seen(scope, d, to, w.deliveries[d].version + ahead, w.deliveries[d]), t + 1, NO_ITEMS)
  }

  lemma SecondReads(w: World, t: TxId, scope: Scope, d: nat, to: DeliveryStatus, ahead: int) returns (s: Sales)
    requires Honest(w) && DeliveryVisible(w, scope, d) && w.deliveries[d].version + ahead >= 1
    requires DeliveryMoves(w.deliveries[d].status, to) && (to == COMPLETED ==> AllRefer(w.deliveries[d].lines))
    ensures var a := WaitingScene(w, t, scope, d, to, ahead);
            Sound(a) && Rests(a, s, w.tables) && s.deliveries == Somes(w.deliveries) && s.orders == w.orders
  {
    hide SalesInv, Leads, Honest;
    var a := WaitingScene(w, t, scope, d, to, ahead);
    FirstReads(w, t, scope, d, to, ahead);
    LeadsNowhere(a.from, HONEST);
    s := With(a.from, t, a.waits);
    assert s == Happen(a.from, Advance(t));
    LeadsOn(a.from, HONEST, a.from, Advance(t), s);
  }

  /** The statuses and versions that break the late call, reached while it waits. */
  ghost predicate Ripe(a: Scene, s: Sales, k: Tables, from: Delivery) {
    && a.waits.call.MovingDelivery? && Rests(a, s, k) && a.waits.call.delivery < |s.deliveries|
    && s.deliveries[a.waits.call.delivery].Some?
    && var now := s.deliveries[a.waits.call.delivery].value;
       && now.version == a.waits.call.expected && !DeliveryMoves(now.status, a.waits.call.to)
       && now.scope == from.scope && now.order == from.order && a.waits.call.to != DeliveryStatus.DRAFT
       && (a.waits.call.to == COMPLETED ==> Unreleased(k.reservations, OrderSource(from.scope, from.order)))
  }

  lemma StaysUnreleased(rows: seq<Option<Reservation>>, rows': seq<Option<Reservation>>, source: Source)
    requires Unreleased(rows, source) && SameRows(rows, rows')
    requires forall i :: i in SourceRows(rows, source) ==> Fulfilled(rows', i)
    ensures Unreleased(rows', source)
  {
    var ids := SourceRows(rows, source);
    assert ids[0] in ids;
    assert ids[0] in SourceRows(rows', source);
  }

  /** What the others do meanwhile, from a draft: edits, and the same move. */
  lemma OthersMoveDraft(
    a: Scene, s: Sales, scope: Scope, d: nat, to: DeliveryStatus, from: Delivery, ahead: nat, k: Tables)
    returns (s': Sales)
    requires Sound(a) && Rests(a, s, k) && DeliveryShown(s, scope, d)
    requires s.deliveries[d].value == from && from.version >= 1
    requires a.waits.call == MovingDelivery(scope, d, to, from.version + ahead) && ahead >= 1
    requires from.status == DeliveryStatus.DRAFT && DeliveryMoves(from.status, to)
    ensures Ripe(a, s', k, from)
  {
    hide Sound, Leads, Waits;
    var s1 := EditsRun(a, s, scope, d, ahead - 1, k);
    s' := MoveRuns(a, s1, scope, d, to, k);
  }

  /** From a dispatched delivery: its delivery, and with that its completion. */
  lemma OthersMoveDispatched(
    a: Scene, s: Sales, scope: Scope, d: nat, to: DeliveryStatus, from: Delivery, ahead: nat, k: Tables)
    returns (s': Sales, k': Tables)
    requires Sound(a) && Rests(a, s, k) && DeliveryShown(s, scope, d)
    requires s.deliveries[d].value == from && from.version >= 1
    requires a.waits.call == MovingDelivery(scope, d, to, from.version + ahead)
    requires from.status == DISPATCHED && DeliveryMoves(from.status, to)
    requires ahead == 1 || (ahead == 2 && Completable(k.reservations, from))
    ensures Ripe(a, s', k', from)
    ensures ahead == 2 ==> s'.deliveries[d].value == from.(status := COMPLETED, version := from.version + 2)
  {
    hide Sound, Leads, Waits, Unreleased;
    s' := MoveRuns(a, s, scope, d, DELIVERED, k);
    k' := k;
    if ahead == 2 {
      s', k' := CompletionRuns(a, s', scope, d, k);
    }
  }

  /** From a delivered one: its completion. */
  lemma OthersMoveDelivered(a: Scene, s: Sales, scope: Scope, d: nat, from: Delivery, k: Tables)
    returns (s': Sales, k': Tables)
    requires Sound(a) && Rests(a, s, k) && DeliveryShown(s, scope, d)
    requires s.deliveries[d].value == from && from.version >= 1
    requires a.waits.call == MovingDelivery(scope, d, COMPLETED, from.version + 1)
    requires from.status == DELIVERED && Completable(k.reservations, from) && from.scope == scope
    ensures Ripe(a, s', k', from)
  {
    hide Sound, Leads, Waits, Unreleased;
    s', k' := CompletionRuns(a, s, scope, d, k);
    StaysUnreleased(k.reservations, k'.reservations, OrderSource(scope, from.order));
  }

  /** The waiting call goes on, and someone else waits who has done nothing. */
  lemma RolesSwap(a: Scene, s: Sales, k: Tables) returns (b: Scene, s': Sales)
    requires Sound(a) && Rests(a, s, k)
    ensures Sound(b) && b.from == s && b.rule == HONEST && b.runner == a.waiting && b.catalogue == a.catalogue
    ensures Runs(b, s', a.waits, k, NOTHING) && s'.deliveries == s.deliveries
  {
    hide SalesInv, Leads;
    var idle := Reserving(Scope(0, 0, 0), 0);
    b := Scene(s, HONEST, a.runner, Fresh(idle), a.waiting, a.catalogue);
    s' := Happen(s, Start(a.runner, idle));
    LeadsKeeps(a.from, a.rule, s);
    LeadsNowhere(s, HONEST);
    LeadsOn(s, HONEST, s, Start(a.runner, idle), s');
    assert s'.txs == map[a.runner := Fresh(idle), a.waiting := a.waits];
  }

  /** The late call up to its last update. */
  lemma LateUpToUpdate(
    b: Scene, s: Sales, scope: Scope, d: nat, to: DeliveryStatus, expected: int, seen: Delivery, k: Tables)
    returns (s': Sales, utx: SalesTx, tx: I.Tx)
    requires Sound(b) && Runs(b, s, Seen(scope, d, to, expected, seen), k, NOTHING)
    requires to == COMPLETED ==> Unreleased(k.reservations, OrderSource(scope, seen.order))
    ensures Runs(b, s', utx, k, tx) && s'.deliveries == s.deliveries && tx.calls == [] && AtUpdate(utx)
    ensures utx.call == MovingDelivery(scope, d, to, expected)
    ensures to != COMPLETED ==> tx == NOTHING
  {
    hide Sound, Runs, Unreleased;
    if to == COMPLETED {
      s', tx := CompletionUpToUpdate(b, s, scope, d, expected, seen, k);
      utx := Issuings(scope, d, expected, seen, SourceRows(k.reservations, OrderSource(scope, seen.order)));
    } else {
      s', utx, tx := s, Seen(scope, d, to, expected, seen), NOTHING;
    }
  }

  lemma CommitBreaks(from: Sales, before: Sales, t: TxId, d: nat)
    requires Leads(from, HONEST, before) && Allowed(before, Advance(t), HONEST)
    requires var ds, ds' := before.deliveries, Happen(before, Advance(t)).deliveries;
             && d < |ds| && ds[d].Some? && d < |ds'| && ds'[d].Some? && !LegalChange(ds[d].value, ds'[d].value)
    ensures CanBreak(from, d)
  {
    hide Allowed, Happen, AllowedRun, LegalChange;
    var later :| AllowedRun(from, later, HONEST) && Exec(from, later) == before;
    ExecOneMore(from, later, Advance(t), HONEST);
    RunIsAdmissible(from, later + [Advance(t)], HONEST);
    assert Breaks(from, later, Advance(t), d);
  }

  /** The late call's last update and commit, when the row is as it asks for and not as it has read. */
  lemma LateBreaks(a: Scene, s: Sales, k: Tables, from: Delivery) returns (end: Sales)
    requires Sound(a) && a.rule == HONEST && Ripe(a, s, k, from) && a.waits.call.scope == from.scope
    requires a.waits == Seen(from.scope, a.waits.call.delivery, a.waits.call.to, a.waits.call.expected, from)
    ensures CanBreak(a.from, a.waits.call.delivery)
    ensures var c := a.waits.call;
            && Leads(s, HONEST, end) && end.deliveries ==
                s.deliveries[c.delivery := Some(Updated(s.deliveries[c.delivery].value, c))]
            && (c.to != COMPLETED ==> Committed(end) == k.reservations)
  {
    hide Sound, Leads, Waits, Runs, Unreleased, CanBreak, Happen, I.View;
    var c := a.waits.call;
    var b, s1 := RolesSwap(a, s, k);
    var s2, utx, tx := LateUpToUpdate(b, s1, from.scope, c.delivery, c.to, c.expected, from, k);
    UpdateBreaks(a, s, b, s2, utx, k, tx);
    MoveCommits(b, s2, utx, k, tx);
    end := Twice(s2, b.runner);
    ViewOfNothing(k, NOTHING);
    RestsAt(b, end, I.View(k, tx));
  }

  lemma RestsAt(a: Scene, s: Sales, k: Tables)
    requires Rests(a, s, k)
    ensures Leads(a.from, a.rule, s) && Committed(s) == k.reservations
  {
    hide Leads;
  }

  lemma UpdateBreaks(a: Scene, s: Sales, b: Scene, s2: Sales, utx: SalesTx, k: Tables, tx: I.Tx)
    requires Sound(b) && a.rule == b.rule == HONEST && b.from == s && Leads(a.from, HONEST, s)
    requires Runs(b, s2, utx, k, tx) && tx.calls == [] && AtUpdate(utx)
    requires utx.call.delivery < |s2.deliveries| && s2.deliveries[utx.call.delivery].Some?
    requires var now := s2.deliveries[utx.call.delivery].value;
             && now.version == utx.call.expected && !DeliveryMoves(now.status, utx.call.to)
             && utx.call.to != DeliveryStatus.DRAFT
    ensures CanBreak(a.from, utx.call.delivery)
  {
    hide Sound, Leads, Waits, Runs, CanBreak, Allowed, Happen, Rests;
    var d := utx.call.delivery;
    var row := Updated(s2.deliveries[d].value, utx.call);
    MoveWrites(b, s2, utx, k, tx);
    MoveCommits(b, s2, utx, k, tx);
    RunnerIn(b, s2, utx, k, tx);
    var s3 := WriteDelivery(s2, b.runner, d, row);
    LeadsFurther(a.from, HONEST, s, HONEST, s3);
    CommitAllowed(s2, b.runner, d, row, HONEST);
    CommitBreaks(a.from, s3, b.runner, d);
  }

  lemma RunnerIn(a: Scene, s: Sales, utx: SalesTx, k: Tables, tx: I.Tx)
    requires Runs(a, s, utx, k, tx)
    ensures a.runner in s.txs
  {
    hide Leads;
  }

  /** A harmful call does harm in some run. */
  lemma HarmfulBreaks(w: World, t: TxId, scope: Scope, d: nat, to: DeliveryStatus, ahead: int)
    requires Honest(w) && DeliveryVisible(w, scope, d) && w.deliveries[d].version >= 1
    requires Harmful(w.deliveries[d].status, to, ahead, Completable(w.tables.reservations, w.deliveries[d]))
    ensures CanBreak(HasRead(w, t, scope, d, to, ahead), d)
  {
    hide Sound, Leads, Waits, Unreleased, CanBreak, Honest;
    var from, k := w.deliveries[d], w.tables;
    var a := WaitingScene(w, t, scope, d, to, ahead);
    var s := SecondReads(w, t, scope, d, to, ahead);
    if from.status == DeliveryStatus.DRAFT {
      s := OthersMoveDraft(a, s, scope, d, to, from, ahead, k);
    } else if from.status == DISPATCHED {
      s, k := OthersMoveDispatched(a, s, scope, d, to, from, ahead, k);
    } else {
      s, k := OthersMoveDelivered(a, s, scope, d, from, k);
    }
    var end := LateBreaks(a, s, k, from);
  }

  lemma BarredAtFirst(w: World, t: TxId, scope: Scope, d: nat, to: DeliveryStatus, ahead: int)
    requires Honest(w) && DeliveryVisible(w, scope, d) && !Completable(w.tables.reservations, w.deliveries[d])
    requires w.deliveries[d].status != COMPLETED
    ensures Barred(AfterHead(w, t, scope, d, to, ahead), d, w.deliveries[d])
  {
    var s, row := AfterHead(w, t, scope, d, to, ahead), w.deliveries[d];
    var source := OrderSource(row.scope, row.order);
    if AllRefer(row.lines) {
      assert OwnReference(w.tables.reservations, row, row.lines[0]);
      assert row.lines[0].reservation.value in SourceRows(w.tables.reservations, source);
      var i :| 0 <= i < |w.tables.reservations| && OfSource(w.tables.reservations[i], source)
               && w.tables.reservations[i].value.status == ReservationStatus.RELEASED;
      assert Doomed(s, d, i);
    }
  }

  /** A call that is not harmful does none, whatever the others do. */
  lemma HarmlessNeverBreaks(w: World, t: TxId, scope: Scope, d: nat, to: DeliveryStatus, ahead: int)
    requires Honest(w) && DeliveryVisible(w, scope, d)
    requires !Harmful(w.deliveries[d].status, to, ahead, Completable(w.tables.reservations, w.deliveries[d]))
    ensures !CanBreak(HasRead(w, t, scope, d, to, ahead), d)
  {
    hide SalesInv, Completable, Honest;
    var s, row := HasRead(w, t, scope, d, to, ahead), w.deliveries[d];
    var call := MovingDelivery(scope, d, to, row.version + ahead);
    FirstReads(w, t, scope, d, to, ahead);
    var completable := Final(row.status) || Completable(w.tables.reservations, row);
    if s.txs == map[] {
      NobodyLate(s, t);
    } else if !completable {
      BarredAtFirst(w, t, scope, d, to, ahead);
    }
    forall later, e ensures !Breaks(s, later, e, d) {
      if SalesSafety.AdmissibleRun(s, later + [e], NO_ONE) {
        HarmlessStaysLegal(s, later, e, t, call, row, completable);
      }
    }
  }

  /**
    How far above the version read a delivery's call may ask, when everyone else is on time.  It can
    change the delivery as no transition may exactly when it asks at least one above from
    DRAFT, one or, if the delivery can be completed, two above from DISPATCHED, or one above from
    DELIVERED if it can be completed.
   */
  lemma AheadExactly(w: World, t: TxId, scope: Scope, d: nat, to: DeliveryStatus, ahead: int)
    requires Honest(w) && DeliveryVisible(w, scope, d) && w.deliveries[d].version >= 1
    ensures CanBreak(HasRead(w, t, scope, d, to, ahead), d) <==>
              Harmful(w.deliveries[d].status, to, ahead, Completable(w.tables.reservations, w.deliveries[d]))
  {
    hide CanBreak, Completable, Honest, HasRead;
    if Harmful(w.deliveries[d].status, to, ahead, Completable(w.tables.reservations, w.deliveries[d])) {
      HarmfulBreaks(w, t, scope, d, to, ahead);
    } else {
      HarmlessNeverBreaks(w, t, scope, d, to, ahead);
    }
  }

  /**
    The run in which a COMPLETED delivery becomes CANCELLED, from every honest world with a dispatched
    delivery that can be completed: only the cancellation asks for a later version than it
    reads, two above; it reads first, the delivery is delivered and completed, and from there on
    everything keeps to the rules.  The rows the delivery refers to stay FULFILLED.
   */
  lemma CancelOverridesCompletion(w: World, t: TxId, scope: Scope, d: nat) returns (middle: Sales, end: Sales)
    requires Honest(w) && DeliveryVisible(w, scope, d) && w.deliveries[d].version >= 1
    requires w.deliveries[d].status == DISPATCHED && Completable(w.tables.reservations, w.deliveries[d])
    ensures Leads(From(w), Rule(iset{t}, true, true), middle) && Leads(middle, HONEST, end)
    ensures DeliveryShown(middle, scope, d) && middle.deliveries[d].value.status == COMPLETED
    ensures DeliveryShown(end, scope, d) && end.deliveries[d].value.status == DeliveryStatus.CANCELLED
    ensures IssuedReferences(Committed(end), middle.deliveries[d].value)
  {
    hide Sound, Leads, Waits, Unreleased, CanBreak, Honest, IssuedReferences, HasRead;
    var from, to := w.deliveries[d], DeliveryStatus.CANCELLED;
    var a := WaitingScene(w, t, scope, d, to, 2);
    FirstReads(w, t, scope, d, to, 2);
    var s := SecondReads(w, t, scope, d, to, 2);
    var k: Tables;
    middle, k := OthersMoveDispatched(a, s, scope, d, to, from, 2, w.tables);
    RestsAt(a, middle, k);
    LeadsFurther(From(w), Rule(iset{t}, true, true), a.from, HONEST, middle);
    CompletedThere(a.from, HONEST, middle, d);
    end := LateBreaks(a, middle, k, from);
  }

  lemma CompletedThere(s: Sales, rule: Rule, s': Sales, d: nat)
    requires SalesInv(s, ANYONE) && Leads(s, rule, s') && d < |s'.deliveries| && s'.deliveries[d].Some?
    requires s'.deliveries[d].value.status == COMPLETED
    ensures IssuedReferences(Committed(s'), s'.deliveries[d].value)
  {
    hide RowsInv, Knows, Leads;
    LeadsKeeps(s, rule, s');
    assert DeliveryOk(Committed(s'), s'.deliveries[d].value);
  }
}
