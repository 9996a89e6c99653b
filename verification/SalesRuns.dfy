/**
  Runs built step by step: one transaction that has read and waits, another that runs
  its statements meanwhile.
 */
module SalesRuns {
  import opened Wrappers
  import opened InventoryTables
  import opened InventorySpec
  import opened InventoryBySource
  import opened SalesSpec
  import opened SalesDeliveries
  import opened SalesRows
  import opened SalesConcurrency
  import opened SalesSafety
  import opened SalesOrdersSafety
  import opened InventorySolo
  import I = InventoryConcurrency
  import Interleaving = InventoryInterleaving

  /**
    What a run keeps to: who may expect a version above the one read, whether no reserve marks a
    cancelled order, and whether no direct call reserves for an order.
   */
  datatype Rule = Rule(late: iset<TxId>, freshMarks: bool, apart: bool)

  ghost const HONEST := Rule(NO_ONE, true, true)

  ghost predicate Allowed(s: Sales, e: Event, rule: Rule) {
    && SalesSafety.Admissible(s, e) && Timely(s, e, rule.late) && TimelyOrder(s, e, rule.late)
    && (rule.freshMarks ==> FreshMark(s, e)) && (rule.apart ==> Apart(e))
  }

  ghost predicate AllowedRun(s: Sales, events: seq<Event>, rule: Rule)
    decreases |events|
  {
    events != [] ==> Allowed(s, events[0], rule) && AllowedRun(Happen(s, events[0]), events[1..], rule)
  }

  /** Some run that keeps to the rule leads from the first state to the second. */
  ghost predicate Leads(s: Sales, rule: Rule, s': Sales) {
    exists events :: AllowedRun(s, events, rule) && Exec(s, events) == s'
  }

  lemma LeadsNowhere(s: Sales, rule: Rule)
    ensures Leads(s, rule, s)
  {
    assert AllowedRun(s, [], rule) && Exec(s, []) == s;
  }

  lemma {:induction false} ExecOneMore(s: Sales, events: seq<Event>, e: Event, rule: Rule)
    requires AllowedRun(s, events, rule) && Allowed(Exec(s, events), e, rule)
    ensures AllowedRun(s, events + [e], rule) && Exec(s, events + [e]) == Happen(Exec(s, events), e)
    decreases |events|
  {
    hide Allowed, Happen;
    if events == [] {
      assert [e][1..] == [];
      assert events + [e] == [e];
      assert Exec(s, [e]) == Exec(Happen(s, e), [e][1..]);
    } else {
      assert (events + [e])[1..] == events[1..] + [e];
      ExecOneMore(Happen(s, events[0]), events[1..], e, rule);
    }
  }

  lemma LeadsOn(s: Sales, rule: Rule, s1: Sales, e: Event, s2: Sales)
    requires Leads(s, rule, s1) && Allowed(s1, e, rule) && s2 == Happen(s1, e)
    ensures Leads(s, rule, s2)
  {
    hide Allowed, Happen;
    var events :| AllowedRun(s, events, rule) && Exec(s, events) == s1;
    ExecOneMore(s, events, e, rule);
  }

  lemma {:induction false} RunKeeps(s: Sales, events: seq<Event>, rule: Rule)
    requires SalesInv(s, ANYONE) && AllowedRun(s, events, rule)
    ensures SalesInv(Exec(s, events), ANYONE)
    decreases |events|
  {
    hide SalesInv, SalesSafety.Admissible, TimelyOrder, Happen;
    if events != [] {
      SalesSafety.HappenKeeps(s, events[0], ANYONE);
      RunKeeps(Happen(s, events[0]), events[1..], rule);
    }
  }

  /** Keeping to everything is what the theorems on deliveries and on orders ask of a run, together. */
  lemma {:induction false} HonestExactly(s: Sales, events: seq<Event>)
    ensures AllowedRun(s, events, HONEST) <==> OrderlyRun(s, events) && SalesSafety.AdmissibleRun(s, events, NO_ONE)
    decreases |events|
  {
    hide Timely, TimelyOrder, FreshMark, Apart, Happen;
    if events != [] {
      HonestExactly(Happen(s, events[0]), events[1..]);
    }
  }

  lemma {:induction false} RunIsAdmissible(s: Sales, events: seq<Event>, rule: Rule)
    requires AllowedRun(s, events, rule)
    ensures SalesSafety.AdmissibleRun(s, events, rule.late)
    decreases |events|
  {
    hide SalesSafety.Admissible, Timely, TimelyOrder, Happen;
    if events != [] {
      RunIsAdmissible(Happen(s, events[0]), events[1..], rule);
    }
  }

  lemma LeadsKeeps(s: Sales, rule: Rule, s': Sales)
    requires SalesInv(s, ANYONE) && Leads(s, rule, s')
    ensures SalesInv(s', ANYONE)
  {
    hide SalesInv, AllowedRun;
    var events :| AllowedRun(s, events, rule) && Exec(s, events) == s';
    RunKeeps(s, events, rule);
  }

  predicate Weaker(rule: Rule, rule': Rule) {
    rule.late <= rule'.late && (rule'.freshMarks ==> rule.freshMarks) && (rule'.apart ==> rule.apart)
  }

  lemma {:induction false} RunGoesOn(s: Sales, events: seq<Event>, rule: Rule, rule': Rule, s': Sales)
    requires AllowedRun(s, events, rule) && Weaker(rule, rule') && Leads(s', rule', s)
    ensures Leads(s', rule', Exec(s, events))
    decreases |events|
  {
    hide SalesSafety.Admissible, FreshMark, Apart, Happen, Leads;
    if events != [] {
      assert Allowed(s, events[0], rule');
      LeadsOn(s', rule', s, events[0], Happen(s, events[0]));
      RunGoesOn(Happen(s, events[0]), events[1..], rule, rule', s');
    }
  }

  /** One run after another, the second keeping to as much as the first. */
  lemma LeadsFurther(s: Sales, rule': Rule, s1: Sales, rule: Rule, s2: Sales)
    requires Leads(s, rule', s1) && Leads(s1, rule, s2) && Weaker(rule, rule')
    ensures Leads(s, rule', s2)
  {
    hide AllowedRun;
    var events :| AllowedRun(s1, events, rule) && Exec(s1, events) == s2;
    RunGoesOn(s1, events, rule, rule', s);
  }

  // ------------------------------------------------- one waits, another runs

  /** A sales transaction that has read and waits, holding nothing. */
  const NOTHING := I.Tx([], I.Ready, map[], map[], [])

  /** Where the run began and what it keeps to; who waits, as it stands; who runs. */
  datatype Scene = Scene(
    from: Sales, rule: Rule, waiting: TxId, waits: SalesTx, runner: TxId, catalogue: Catalogue)

  ghost predicate Sound(a: Scene) {
    SalesInv(a.from, ANYONE) && a.waiting != a.runner && !a.waits.call.Creating?
  }

  /** Besides the waiting transaction only the runner is open, whose inventory part is `tx` over the tables `k`. */
  ghost predicate Pair(a: Scene, s: Sales, utx: SalesTx, k: Tables, tx: I.Tx) {
    && !utx.call.Creating? && s.txs == map[a.waiting := a.waits, a.runner := utx]
    && s.orderLocks == map[] && s.deliveryLocks == map[]
    && s.inventory.txs == map[a.waiting := NOTHING, a.runner := tx] && At(s.inventory, a.runner, k, a.catalogue, tx)
  }

  /** Nothing is open but the waiting transaction. */
  ghost predicate Waits(a: Scene, s: Sales, k: Tables) {
    && s.txs == map[a.waiting := a.waits] && s.orderLocks == map[] && s.deliveryLocks == map[]
    && s.inventory == I.System(k, a.catalogue, map[a.waiting := NOTHING], map[])
  }

  ghost predicate Runs(a: Scene, s: Sales, utx: SalesTx, k: Tables, tx: I.Tx) {
    Leads(a.from, a.rule, s) && Pair(a, s, utx, k, tx)
  }

  ghost predicate Rests(a: Scene, s: Sales, k: Tables) {
    Leads(a.from, a.rule, s) && Waits(a, s, k)
  }

  function Fresh(call: Call): SalesTx { SalesTx(call, Begun, None, None) }

  lemma RunnerStarts(a: Scene, s: Sales, call: Call, k: Tables) returns (s': Sales)
    requires Sound(a) && Rests(a, s, k) && !call.Creating?
    ensures Runs(a, s', Fresh(call), k, NOTHING) && s'.orders == s.orders && s'.deliveries == s.deliveries
    ensures s' == Happen(s, Start(a.runner, call))
  {
    hide SalesInv, Leads;
    s' := Happen(s, Start(a.runner, call));
    LeadsOn(a.from, a.rule, s, Start(a.runner, call), s');
  }

  lemma PairHas(a: Scene, s: Sales, utx: SalesTx, k: Tables, tx: I.Tx)
    requires Sound(a) && Pair(a, s, utx, k, tx)
    ensures a.runner in s.txs && s.txs[a.runner] == utx && a.runner in s.inventory.txs
    ensures s.inventory.txs[a.runner] == tx
    ensures a.waiting in s.txs && s.txs[a.waiting] == a.waits && s.inventory.committed == k
  {
    hide SalesInv;
  }

  lemma OthersStay(v: I.System, c: TxId, u: TxId, tx: I.Tx, tx': I.Tx)
    requires RowsInv(v) && c != u && v.txs == map[c := NOTHING, u := tx] && tx.calls != []
    requires u in I.Step(v, u).txs && I.Step(v, u).txs[u] == tx'
    ensures I.Step(v, u).txs == map[c := NOTHING, u := tx']
  {
    hide RowsInv, AdvancedTx;
    StepAdvances(v, u);
  }

  lemma RowsOfScene(a: Scene, s: Sales)
    requires Sound(a) && Leads(a.from, a.rule, s)
    ensures RowsInv(s.inventory) && Balanced(s.inventory.committed) && HonestKeys(s.inventory.committed)
  {
    hide Leads, Knows, Interleaving.TxOk, RowsOk;
    LeadsKeeps(a.from, a.rule, s);
  }

  /** One inventory statement of the runner. */
  lemma Inner(a: Scene, s: Sales, utx: SalesTx, k: Tables, tx: I.Tx, k': Tables, tx': I.Tx) returns (s': Sales)
    requires Sound(a) && Runs(a, s, utx, k, tx) && tx.calls != []
    requires !utx.stage.Begun?
    requires At(I.Step(s.inventory, a.runner), a.runner, k', a.catalogue, tx')
    ensures Runs(a, s', utx, k', tx') && s'.orders == s.orders && s'.deliveries == s.deliveries
  {
    hide SalesInv, Leads, RowsInv;
    s' := Happen(s, Advance(a.runner));
    LeadsOn(a.from, a.rule, s, Advance(a.runner), s');
    RowsOfScene(a, s);
    OthersStay(s.inventory, a.waiting, a.runner, tx, tx');
  }

  lemma ViewOfNothing(k: Tables, tx: I.Tx)
    requires tx.stock == map[] && tx.rows == map[] && tx.log == []
    ensures I.View(k, tx) == k
  {
  }

  lemma LocksOfOne(v: I.System, u: TxId, k: Tables, cat: Catalogue, tx: I.Tx)
    requires At(v, u, k, cat, tx)
    ensures v.locks.Values <= {u}
  {
  }

  lemma NoLocksLeft(locks: map<I.Lock, TxId>, u: TxId)
    requires locks.Values <= {u}
    ensures (map l | l in locks && locks[l] != u :: locks[l]) == map[]
  {
    forall l | l in locks ensures locks[l] == u {
      assert locks[l] in locks.Values;
    }
  }

  lemma CommitLeavesWaiting(v: I.System, c: TxId, u: TxId, k: Tables, cat: Catalogue, tx: I.Tx)
    requires c != u && v.txs == map[c := NOTHING, u := tx] && At(v, u, k, cat, tx)
    ensures I.Commit(v, u) == I.System(I.View(k, tx), cat, map[c := NOTHING], map[])
  {
    assert v.txs - {u} == map[c := NOTHING];
    LocksOfOne(v, u, k, cat, tx);
    NoLocksLeft(v.locks, u);
  }

  // ------------------------------------------------------ a delivery's moves

  /** A delivery's move that has read both rows. */
  function Seen(scope: Scope, d: nat, to: DeliveryStatus, expected: int, seen: Delivery): SalesTx {
    SalesTx(MovingDelivery(scope, d, to, expected), LinesSeen(seen), None, None)
  }

  /** The two reads of the runner, whose version is the one it reads. */
  lemma MoveReads(a: Scene, s: Sales, scope: Scope, d: nat, to: DeliveryStatus, k: Tables) returns (s': Sales)
    requires Sound(a) && DeliveryShown(s, scope, d) && DeliveryMoves(s.deliveries[d].value.status, to)
    requires var v := s.deliveries[d].value.version;
      v >= 1 && Runs(a, s, Fresh(MovingDelivery(scope, d, to, v)), k, NOTHING)
    requires to == COMPLETED ==> AllRefer(s.deliveries[d].value.lines)
    ensures Runs(a, s', Seen(scope, d, to, s.deliveries[d].value.version, s.deliveries[d].value), k, NOTHING)
    ensures s'.orders == s.orders && s'.deliveries == s.deliveries
  {
    hide SalesInv, Leads, At;
    var now := s.deliveries[d].value;
    var call := MovingDelivery(scope, d, to, now.version);
    var s1 := With(s, a.runner, Fresh(call).(stage := HeadSeen(now)));
    assert s1 == Happen(s, Advance(a.runner));
    LeadsOn(a.from, a.rule, s, Advance(a.runner), s1);
    s' := With(s1, a.runner, Seen(scope, d, to, now.version, now));
    assert s' == Happen(s1, Advance(a.runner));
    LeadsOn(a.from, a.rule, s1, Advance(a.runner), s');
    assert s'.txs == map[a.waiting := a.waits, a.runner := Seen(scope, d, to, now.version, now)];
  }

  /** Two turns of one transaction, with nothing in between. */
  function Twice(s: Sales, t: TxId): Sales { Happen(Happen(s, Advance(t)), Advance(t)) }

  predicate AtUpdate(utx: SalesTx) {
    utx.call.MovingDelivery? && utx.order.None?
      && ((utx.stage.LinesSeen? && utx.call.to != COMPLETED) || utx.stage.Issuing?)
  }

  /** The runner's last update, which finds the version it asks for. */
  lemma MoveWrites(a: Scene, s: Sales, utx: SalesTx, k: Tables, tx: I.Tx)
    requires Sound(a) && Runs(a, s, utx, k, tx) && tx.calls == [] && AtUpdate(utx)
    requires utx.call.delivery < |s.deliveries| && s.deliveries[utx.call.delivery].Some?
    requires s.deliveries[utx.call.delivery].value.version == utx.call.expected
    ensures var d, now := utx.call.delivery, s.deliveries[utx.call.delivery].value;
            var row := now.(status := utx.call.to, version := now.version + 1);
            && Happen(s, Advance(a.runner)) == WriteDelivery(s, a.runner, d, row)
            && Leads(a.from, a.rule, WriteDelivery(s, a.runner, d, row))
  {
    hide SalesInv, Leads;
    var d, now := utx.call.delivery, s.deliveries[utx.call.delivery].value;
    var s1 := WriteDelivery(s, a.runner, d, now.(status := utx.call.to, version := now.version + 1));
    assert s1 == Happen(s, Advance(a.runner));
    LeadsOn(a.from, a.rule, s, Advance(a.runner), s1);
  }

  /** Nothing forbids the commit of a row that has been written. */
  lemma CommitAllowed(s: Sales, t: TxId, d: nat, row: Delivery, rule: Rule)
    requires t in s.txs
    ensures Allowed(WriteDelivery(s, t, d, row), Advance(t), rule)
  {
  }

  /** The runner's last update and its commit. */
  lemma MoveCommits(a: Scene, s: Sales, utx: SalesTx, k: Tables, tx: I.Tx)
    requires Sound(a) && Runs(a, s, utx, k, tx) && tx.calls == [] && AtUpdate(utx)
    requires utx.call.delivery < |s.deliveries| && s.deliveries[utx.call.delivery].Some?
    requires s.deliveries[utx.call.delivery].value.version == utx.call.expected
    ensures var d, now := utx.call.delivery, s.deliveries[utx.call.delivery].value;
            && Rests(a, Twice(s, a.runner), I.View(k, tx))
            && Twice(s, a.runner).deliveries ==
                s.deliveries[d := Some(now.(status := utx.call.to, version := now.version + 1))]
  {
    hide SalesInv, Leads;
    var d, now := utx.call.delivery, s.deliveries[utx.call.delivery].value;
    var row := now.(status := utx.call.to, version := now.version + 1);
    MoveWrites(a, s, utx, k, tx);
    WrittenCommits(a, s, WriteDelivery(s, a.runner, d, row), utx, d, row, k, tx);
  }

  lemma WrittenCommits(a: Scene, s: Sales, s1: Sales, utx: SalesTx, d: nat, row: Delivery, k: Tables, tx: I.Tx)
    requires Sound(a) && Pair(a, s, utx, k, tx) && utx.call.MovingDelivery? && utx.order.None? && tx.calls == []
    requires d < |s.deliveries| && a.runner in s.txs
    requires s1 == WriteDelivery(s, a.runner, d, row) && Leads(a.from, a.rule, s1)
    ensures var s' := Happen(s1, Advance(a.runner));
            Rests(a, s', I.View(k, tx)) && s'.deliveries == s.deliveries[d := Some(row)]
  {
    hide SalesInv, Leads;
    LeadsOn(a.from, a.rule, s1, Advance(a.runner), Happen(s1, Advance(a.runner)));
    assert Happen(s1, Advance(a.runner)) == CommitStep(s1, a.runner);
    CommitLeavesWaiting(s1.inventory, a.waiting, a.runner, k, a.catalogue, tx);
    assert s1.txs - {a.runner} == map[a.waiting := a.waits];
  }

  /** A whole move that is no completion, while the other waits. */
  lemma MoveRuns(a: Scene, s: Sales, scope: Scope, d: nat, to: DeliveryStatus, k: Tables) returns (s': Sales)
    requires Sound(a) && Rests(a, s, k) && to != COMPLETED
    requires DeliveryShown(s, scope, d) && DeliveryMoves(s.deliveries[d].value.status, to)
    requires s.deliveries[d].value.version >= 1
    ensures Rests(a, s', k)
    ensures var now := s.deliveries[d].value;
            s'.deliveries == s.deliveries[d := Some(now.(status := to, version := now.version + 1))]
  {
    hide Runs, Waits, Leads, Sound, Happen, I.View;
    var now := s.deliveries[d].value;
    var s1 := RunnerStarts(a, s, MovingDelivery(scope, d, to, now.version), k);
    var s2 := MoveReads(a, s1, scope, d, to, k);
    MoveCommits(a, s2, Seen(scope, d, to, now.version, now), k, NOTHING);
    ViewOfNothing(k, NOTHING);
    s' := Twice(s2, a.runner);
  }

  /** Edits of a draft, each raising its version. */
  lemma {:induction false} EditsRun(a: Scene, s: Sales, scope: Scope, d: nat, n: nat, k: Tables) returns (s': Sales)
    requires Sound(a) && Rests(a, s, k) && DeliveryShown(s, scope, d)
    requires s.deliveries[d].value.status == DeliveryStatus.DRAFT
    ensures Rests(a, s', k)
    ensures var now := s.deliveries[d].value; s'.deliveries == s.deliveries[d := Some(now.(version := now.version + n))]
    decreases n
  {
    hide SalesInv, Leads;
    if n == 0 {
      s' := s;
    } else {
      var e := EditDelivery(scope, d, s.deliveries[d].value.version);
      LeadsOn(a.from, a.rule, s, e, Happen(s, e));
      s' := EditsRun(a, Happen(s, e), scope, d, n - 1, k);
    }
  }

  // ------------------------------------------------------------- completions

  /** No row is new, and rows change nothing but their status. */
  ghost predicate SameRows(rows: seq<Option<Reservation>>, rows': seq<Option<Reservation>>) {
    && |rows'| == |rows| && OnlyStatusMoves(rows, rows')
    && forall i :: 0 <= i < |rows'| && rows'[i].Some? ==> rows[i].Some?
  }

  lemma SameRowsTransitive(a: seq<Option<Reservation>>, b: seq<Option<Reservation>>, c: seq<Option<Reservation>>)
    requires SameRows(a, b) && SameRows(b, c)
    ensures SameRows(a, c)
  {
    OnlyStatusMovesTransitive(a, b, c);
  }

  /** Every listed row can be issued or has been. */
  ghost predicate Issuable(v: Tables, scope: Scope, ids: seq<nat>) {
    forall i :: i in ids ==> Visible(v, scope, i) && v.reservations[i].value.status != RELEASED
  }

  lemma FulfilSkips(v: I.System, u: TxId, k: Tables, cat: Catalogue, tx: I.Tx)
    requires At(v, u, k, cat, tx) && tx.calls != [] && tx.calls[0].Fulfil? && tx.pc == I.Ready
    requires var r := tx.calls[0];
             Visible(I.View(k, tx), r.scope, r.reservation) && Fulfilled(I.View(k, tx).reservations, r.reservation)
    ensures At(I.Step(v, u), u, k, cat, I.Finished(tx)) && I.View(k, I.Finished(tx)) == I.View(k, tx)
  {
    assert I.Step(v, u) == I.FulfilStep(v, u, tx);
  }

  /** The call issues a RESERVED row whose key is not in the log. */
  ghost predicate Issues(v: Tables, r: Request, row: Reservation) {
    && r.Fulfil? && Visible(v, r.scope, r.reservation) && v.reservations[r.reservation].value == row
    && row.status == RESERVED && FindMovement(v.movements, r.scope, r.key).None? && Covers(v, row)
  }

  /** The five statements that issue a row. */
  lemma IssueStatements(a: Scene, s: Sales, utx: SalesTx, k: Tables, tx: I.Tx, row: Reservation)
    returns (s': Sales, tx': I.Tx)
    requires Sound(a) && Runs(a, s, utx, k, tx) && tx.calls != [] && tx.pc == I.Ready
    requires Issues(I.View(k, tx), tx.calls[0], row)
    requires !utx.stage.Begun?
    ensures Runs(a, s', utx, k, tx') && s'.deliveries == s.deliveries && s'.orders == s.orders
    ensures tx'.calls == tx.calls[1..] && tx'.pc == I.Ready
    ensures I.View(k, tx') == Apply(I.View(k, tx), a.catalogue, tx.calls[0])
  {
    hide Pair, Leads, Sound, At, Fails;
    InnerAt(a, s, utx, k, tx);
    FulfilLocks(s.inventory, a.runner, k, a.catalogue, tx);
    var tx1 := tx.(pc := I.IssueLocked(row));
    var s1 := Inner(a, s, utx, k, tx, k, tx1);
    ViewIgnoresPc(k, tx, tx1.pc);
    InnerAt(a, s1, utx, k, tx1);
    FulfilLooks(s1.inventory, a.runner, k, a.catalogue, tx1, row);
    var tx2 := tx.(pc := I.KeyUnused(row));
    var s2 := Inner(a, s1, utx, k, tx1, k, tx2);
    s', tx' := IssueFromCount(a, s2, utx, k, tx, row);
  }

  lemma InnerAt(a: Scene, s: Sales, utx: SalesTx, k: Tables, tx: I.Tx)
    requires Runs(a, s, utx, k, tx)
    ensures At(s.inventory, a.runner, k, a.catalogue, tx)
  {
  }

  lemma IssueFromCount(a: Scene, s: Sales, utx: SalesTx, k: Tables, tx: I.Tx, row: Reservation)
    returns (s': Sales, tx': I.Tx)
    requires Sound(a) && Runs(a, s, utx, k, tx.(pc := I.KeyUnused(row))) && tx.calls != []
    requires !utx.stage.Begun?
    requires Issues(I.View(k, tx), tx.calls[0], row)
    ensures Runs(a, s', utx, k, tx') && s'.deliveries == s.deliveries && s'.orders == s.orders
    ensures tx'.calls == tx.calls[1..] && tx'.pc == I.Ready
    ensures I.View(k, tx') == Apply(I.View(k, tx), a.catalogue, tx.calls[0])
  {
    hide Pair, Leads, Sound, At, Fails;
    var v, r := I.View(k, tx), tx.calls[0];
    var now' := StockRow(v.stock[row.Key()].onHand - row.quantity, v.stock[row.Key()].reserved - row.quantity);
    InnerAt(a, s, utx, k, tx.(pc := I.KeyUnused(row)));
    SoloCounted(s.inventory, a.runner, k, a.catalogue, tx, row, now');
    var tx3 := tx.(pc := I.IssueCounted(row), stock := tx.stock[row.Key() := now']);
    var s3 := Inner(a, s, utx, k, tx.(pc := I.KeyUnused(row)), k, tx3);
    var m := Movement(r.scope, row.warehouse, row.item, ISSUE, row.quantity, r.key);
    tx' := I.Finished(tx3.(log := tx.log + [m], rows := tx.rows[r.reservation := row.(status := FULFILLED)]));
    FulfilSettles(k, a.catalogue, tx, tx', m, now');
    s' := IssueSecondHalf(a, s3, utx, k, tx3, row, m);
  }

  lemma IssueSecondHalf(a: Scene, s: Sales, utx: SalesTx, k: Tables, tx: I.Tx, row: Reservation, m: Movement)
    returns (s': Sales)
    requires Sound(a) && Runs(a, s, utx, k, tx) && tx.calls != [] && tx.calls[0].Fulfil? && tx.pc == I.IssueCounted(row)
    requires !utx.stage.Begun?
    requires var r := tx.calls[0];
             && m == Movement(r.scope, row.warehouse, row.item, ISSUE, row.quantity, r.key)
             && FindMovement(I.View(k, tx).movements, r.scope, r.key).None? && r.reservation < |k.reservations|
    ensures var tx' :=
      I.Finished(tx.(log := tx.log + [m], rows := tx.rows[tx.calls[0].reservation := row.(status := FULFILLED)]));
            Runs(a, s', utx, k, tx') && s'.deliveries == s.deliveries && s'.orders == s.orders
  {
    hide Pair, Leads, Sound, At;
    InnerAt(a, s, utx, k, tx);
    FulfilLogs(s.inventory, a.runner, k, a.catalogue, tx, row);
    var tx1 := tx.(pc := I.IssueLogged(row), log := tx.log + [m]);
    var s1 := Inner(a, s, utx, k, tx, k, tx1);
    InnerAt(a, s1, utx, k, tx1);
    FulfilMarks(s1.inventory, a.runner, k, a.catalogue, tx1, row);
    s' := Inner(a, s1, utx, k, tx1, k,
      I.Finished(tx1.(rows := tx1.rows[tx.calls[0].reservation := row.(status := FULFILLED)])));
  }

  lemma RowIssues(v: Tables, scope: Scope, d: nat, i: nat)
    requires Balanced(v) && HonestKeys(v) && Visible(v, scope, i) && v.reservations[i].value.status == RESERVED
    ensures Issues(v, Fulfil(scope, i, RowKey(DeliveryKey(d), i)), v.reservations[i].value)
  {
    ReservedIsCovered(v, i);
    if KeyUsed(v.movements, scope, RowKey(DeliveryKey(d), i)) {
      HonestKeyUsed(v, scope, DeliveryKey(d), i);
    }
  }

  /** One issue call of a completion leaves everything right for the next. */
  lemma CallKeepsRight(v: Tables, cat: Catalogue, scope: Scope, d: nat, ids: seq<nat>)
    requires Balanced(v) && HonestKeys(v) && ids != [] && Issuable(v, scope, ids)
    ensures var i := ids[0];
            var v' := Apply(v, cat, Fulfil(scope, i, RowKey(DeliveryKey(d), i)));
            && Balanced(v') && HonestKeys(v') && Issuable(v', scope, ids[1..]) && Fulfilled(v'.reservations, i)
            && SameRows(v.reservations, v'.reservations)
  {
    var i := ids[0];
    assert i in ids;
    var r := Fulfil(scope, i, RowKey(DeliveryKey(d), i));
    if v.reservations[i].value.status == RESERVED {
      RowIssues(v, scope, d, i);
    }
    FulfilKeepsBalance(v, r);
    FulfillRowsKeepsKeys(v, scope, [i], DeliveryKey(d));
    assert FulfillRows(v, scope, [i][1..], DeliveryKey(d)).tables == FulfillRows(v, scope, [], DeliveryKey(d)).tables;
    ApplyMovesOnlyStatus(v, cat, r);
    forall j | j in ids[1..]
      ensures Visible(Apply(v, cat, r), scope, j) && Apply(v, cat, r).reservations[j].value.status != RELEASED
    {
      assert j in ids;
    }
  }

  lemma IssueOne(a: Scene, s: Sales, utx: SalesTx, k: Tables, tx: I.Tx, scope: Scope, d: nat, i: nat)
    returns (s': Sales, tx': I.Tx)
    requires Sound(a) && Runs(a, s, utx, k, tx) && tx.pc == I.Ready && tx.calls != []
    requires !utx.stage.Begun?
    requires tx.calls[0] == Fulfil(scope, i, RowKey(DeliveryKey(d), i))
    requires var v := I.View(k, tx); Balanced(v) && HonestKeys(v) && Issuable(v, scope, [i])
    ensures Runs(a, s', utx, k, tx') && s'.deliveries == s.deliveries && s'.orders == s.orders
    ensures tx'.calls == tx.calls[1..] && tx'.pc == I.Ready
    ensures I.View(k, tx') == Apply(I.View(k, tx), a.catalogue, tx.calls[0])
  {
    hide Pair, Leads, Sound, At, Balanced, HonestKeys;
    assert i in [i];
    var row := I.View(k, tx).reservations[i].value;
    if row.status == RESERVED {
      RowIssues(I.View(k, tx), scope, d, i);
      s', tx' := IssueStatements(a, s, utx, k, tx, row);
    } else {
      InnerAt(a, s, utx, k, tx);
      FulfilSkips(s.inventory, a.runner, k, a.catalogue, tx);
      tx' := I.Finished(tx);
      s' := Inner(a, s, utx, k, tx, k, tx');
    }
  }

  /** All issue calls of a completion. */
  lemma {:induction false} IssuesRun(
    a: Scene, s: Sales, utx: SalesTx, k: Tables, tx: I.Tx, scope: Scope, d: nat, ids: seq<nat>)
    returns (s': Sales, tx': I.Tx)
    requires Sound(a) && Runs(a, s, utx, k, tx) && tx.pc == I.Ready && tx.calls == IssueCalls(scope, ids, d)
    requires !utx.stage.Begun?
    requires var v := I.View(k, tx); Balanced(v) && HonestKeys(v) && Issuable(v, scope, ids)
    ensures Runs(a, s', utx, k, tx') && s'.deliveries == s.deliveries && s'.orders == s.orders && tx'.calls == []
    ensures SameRows(I.View(k, tx).reservations, I.View(k, tx').reservations)
    ensures forall i :: i in ids ==> Fulfilled(I.View(k, tx').reservations, i)
    decreases |ids|
  {
    hide Runs, Sound, Balanced, HonestKeys;
    if ids == [] {
      s', tx' := s, tx;
    } else {
      var v := I.View(k, tx);
      CallKeepsRight(v, a.catalogue, scope, d, ids);
      assert Issuable(v, scope, [ids[0]]);
      var s1, tx1 := IssueOne(a, s, utx, k, tx, scope, d, ids[0]);
      assert tx1.calls == IssueCalls(scope, ids[1..], d);
      s', tx' := IssuesRun(a, s1, utx, k, tx1, scope, d, ids[1..]);
      SameRowsTransitive(v.reservations, I.View(k, tx1).reservations, I.View(k, tx').reservations);
    }
  }

  function Lockings(scope: Scope, d: nat, expected: int, seen: Delivery, ids: seq<nat>, n: nat): SalesTx {
    SalesTx(MovingDelivery(scope, d, COMPLETED, expected), Locking(seen, ids, n), None, None)
  }

  function Issuings(scope: Scope, d: nat, expected: int, seen: Delivery, ids: seq<nat>): SalesTx {
    SalesTx(MovingDelivery(scope, d, COMPLETED, expected), Issuing(seen, ids), None, None)
  }

  lemma {:induction false} LocksRun(
    a: Scene, s: Sales, scope: Scope, d: nat, expected: int, seen: Delivery, ids: seq<nat>, n: nat, k: Tables)
    returns (s': Sales)
    requires Sound(a) && n <= |ids| && Runs(a, s, Lockings(scope, d, expected, seen, ids, n), k, NOTHING)
    ensures Runs(a, s', Issuings(scope, d, expected, seen, ids), k, NOTHING.(calls := IssueCalls(scope, ids, d)))
    ensures s'.deliveries == s.deliveries && s'.orders == s.orders
    decreases |ids| - n
  {
    hide SalesInv, Leads;
    if n == |ids| {
      s' := To(s, a.runner, Issuing(seen, ids)).(
        inventory := WithCalls(s.inventory, a.runner, IssueCalls(scope, ids, d)));
      assert s' == Happen(s, Advance(a.runner));
      LeadsOn(a.from, a.rule, s, Advance(a.runner), s');
    } else {
      var s1 := To(s, a.runner, Locking(seen, ids, n + 1)).(inventory := LockRow(s.inventory, a.runner, ids[n]));
      assert s1 == Happen(s, Advance(a.runner));
      LeadsOn(a.from, a.rule, s, Advance(a.runner), s1);
      s' := LocksRun(a, s1, scope, d, expected, seen, ids, n + 1, k);
    }
  }

  /** The rows of the delivery's order exist, and none has been released. */
  ghost predicate Unreleased(rows: seq<Option<Reservation>>, source: Source) {
    && SourceRows(rows, source) != []
    && forall i :: 0 <= i < |rows| && OfSource(rows[i], source) ==> rows[i].value.status != RELEASED
  }

  /** A completion that has read the delivery, up to its last update. */
  lemma CompletionUpToUpdate(a: Scene, s: Sales, scope: Scope, d: nat, expected: int, seen: Delivery, k: Tables)
    returns (s': Sales, tx': I.Tx)
    requires Sound(a) && Runs(a, s, Seen(scope, d, COMPLETED, expected, seen), k, NOTHING)
    requires Unreleased(k.reservations, OrderSource(scope, seen.order))
    ensures var ids := SourceRows(k.reservations, OrderSource(scope, seen.order));
            && Runs(a, s', Issuings(scope, d, expected, seen, ids), k, tx') && tx'.calls == []
            && s'.deliveries == s.deliveries && s'.orders == s.orders
            && SameRows(k.reservations, I.View(k, tx').reservations)
            && forall i :: i in ids ==> Fulfilled(I.View(k, tx').reservations, i)
  {
    hide Sound, Leads;
    var ids := SourceRows(k.reservations, OrderSource(scope, seen.order));
    ViewOfNothing(k, NOTHING);
    PairHas(a, s, Seen(scope, d, COMPLETED, expected, seen), k, NOTHING);
    RowsOfScene(a, s);
    var s1 := ListingRuns(a, s, scope, d, expected, seen, ids, k);
    var s2 := LocksRun(a, s1, scope, d, expected, seen, ids, 0, k);
    var tx := NOTHING.(calls := IssueCalls(scope, ids, d));
    ViewOfNothing(k, tx);
    s', tx' := IssuesRun(a, s2, Issuings(scope, d, expected, seen, ids), k, tx, scope, d, ids);
  }

  lemma ListingRuns(
    a: Scene, s: Sales, scope: Scope, d: nat, expected: int, seen: Delivery, ids: seq<nat>,
      k: Tables) returns (s': Sales)
    requires Sound(a) && Runs(a, s, Seen(scope, d, COMPLETED, expected, seen), k, NOTHING)
    requires ids == SourceRows(k.reservations, OrderSource(scope, seen.order)) != []
    ensures Runs(a, s', Lockings(scope, d, expected, seen, ids, 0), k, NOTHING)
    ensures s'.deliveries == s.deliveries && s'.orders == s.orders
  {
    hide SalesInv, Leads;
    ViewOfNothing(k, NOTHING);
    assert RowsSeen(s, a.runner) == k.reservations;
    s' := To(s, a.runner, Locking(seen, ids, 0));
    assert s' == Happen(s, Advance(a.runner));
    LeadsOn(a.from, a.rule, s, Advance(a.runner), s');
  }

  /** A whole completion, while the other waits. */
  lemma CompletionRuns(a: Scene, s: Sales, scope: Scope, d: nat, k: Tables) returns (s': Sales, k': Tables)
    requires Sound(a) && Rests(a, s, k)
    requires DeliveryShown(s, scope, d) && s.deliveries[d].value.status == DELIVERED
    requires s.deliveries[d].value.version >= 1 && AllRefer(s.deliveries[d].value.lines)
    requires Unreleased(k.reservations, OrderSource(scope, s.deliveries[d].value.order))
    ensures Rests(a, s', k') && SameRows(k.reservations, k'.reservations)
    ensures var now := s.deliveries[d].value;
            && s'.deliveries == s.deliveries[d := Some(now.(status := COMPLETED, version := now.version + 1))]
            && forall i :: i in SourceRows(k.reservations, OrderSource(scope, now.order)) ==>
                Fulfilled(k'.reservations, i)
  {
    hide Runs, Waits, Leads, Sound, Unreleased, SameRows, Fulfilled, I.View, Happen;
    hide RowsExist, OrderedByItem;
    var now := s.deliveries[d].value;
    var s1 := RunnerStarts(a, s, MovingDelivery(scope, d, COMPLETED, now.version), k);
    var s2 := MoveReads(a, s1, scope, d, COMPLETED, k);
    var s3, tx := CompletionUpToUpdate(a, s2, scope, d, now.version, now, k);
    var ids := SourceRows(k.reservations, OrderSource(scope, now.order));
    MoveCommits(a, s3, Issuings(scope, d, now.version, now, ids), k, tx);
    s', k' := Twice(s3, a.runner), I.View(k, tx);
  }
}
