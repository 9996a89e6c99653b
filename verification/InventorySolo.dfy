/**
  The statement-level steps refine the call-level functions: a call whose locks nobody
  else holds does, statement by statement, what `InventorySpec` says it does.
 */
module InventorySolo {
  import opened Wrappers
  import opened InventoryTables
  import opened InventorySpec
  import opened InventoryConcurrency

  function Statements(s: System, t: TxId, n: nat): System {
    if n == 0 then s
    else
      var before := Statements(s, t, n - 1);
      if t in before.txs then Step(before, t) else before
  }

  predicate Fails(v: Tables, c: Catalogue, r: Request) {
    match r
    case Receive(_, _, _, _, _) => ReceiveStock(v, c, r).Failed?
    case Return(_, _, _, _, _) => ReturnStock(v, c, r).Failed?
    case Reserve(_, _, _, _) => ReserveStock(v, c, r).Failed?
    case Release(_, _) => ReleaseReservation(v, r).Failed?
    case Fulfil(_, _, _) => FulfillReservation(v, r).Failed?
  }

  /** Transaction `t` is as given, and no other transaction holds a lock. */
  ghost predicate At(s: System, t: TxId, c: Tables, cat: Catalogue, tx: Tx) {
    && t in s.txs && s.txs[t] == tx && s.committed == c && s.catalogue == cat
    && (forall l :: l in s.locks ==> s.locks[l] == t)
    && (forall i :: i in tx.rows ==> i < |c.reservations|)
  }

  ghost predicate Gone(s: System, t: TxId, c: Tables) {
    t !in s.txs && s.committed == c
  }

  /**
    After some statements the call has thrown, and nothing of the transaction is left;
    or it has returned, and the transaction's view is what the call-level function makes
    of the view it began with.
   */
  ghost predicate Settled(s': System, t: TxId, c: Tables, cat: Catalogue, tx: Tx)
    requires tx.calls != []
  {
    var v := View(c, tx);
    if Fails(v, cat, tx.calls[0]) then Gone(s', t, c)
    else
      && t in s'.txs
      && s'.txs[t].pc == Ready
      && s'.txs[t].calls == tx.calls[1..]
      && View(s'.committed, s'.txs[t]) == Apply(v, cat, tx.calls[0])
  }

  ghost predicate Adding(tx: Tx) {
    tx.calls != [] && !tx.calls[0].Release? && !tx.calls[0].Fulfil?
  }

  // ---------------------------------------------------------- one statement

  lemma Throws(s: System, t: TxId, c: Tables, cat: Catalogue, tx: Tx)
    requires At(s, t, c, cat, tx)
    ensures Gone(End(s, t), t, c)
  {
  }

  lemma Admits(s: System, t: TxId, c: Tables, cat: Catalogue, tx: Tx)
    requires At(s, t, c, cat, tx) && Adding(tx) && tx.pc == Looked
    ensures var k := CallKey(tx.calls[0]);
            if CheckCatalogue(cat, k.tenant, k.warehouse, k.item).Some? then Gone(Step(s, t), t, c)
            else At(Step(s, t), t, c, cat, tx.(pc := Admitted))
  {
    assert Step(s, t) == AdmitStep(s, t, tx, CallKey(tx.calls[0]));
  }

  function WithStock(c: Tables, tx: Tx, k: StockKey): Tx {
    if k in View(c, tx).stock then tx.(pc := Ensured)
    else tx.(pc := Ensured, stock := tx.stock[k := StockRow(0, 0)])
  }

  lemma StepEnsures(s: System, t: TxId, tx: Tx)
    requires t in s.txs && s.txs[t] == tx && Adding(tx) && tx.pc == Admitted
    ensures Step(s, t) == EnsureStep(s, t, tx, CallKey(tx.calls[0]))
  {
  }

  lemma Ensures(s: System, t: TxId, c: Tables, cat: Catalogue, tx: Tx)
    requires At(s, t, c, cat, tx) && Adding(tx) && tx.pc == Admitted
    ensures var tx' := WithStock(c, tx, CallKey(tx.calls[0]));
            && At(Step(s, t), t, c, cat, tx')
            && View(c, tx').stock == EnsureStock(View(c, tx).stock, CallKey(tx.calls[0]))
  {
    hide Step;
    StepEnsures(s, t, tx);
  }

  lemma DepositLooks(s: System, t: TxId, c: Tables, cat: Catalogue, tx: Tx)
    requires At(s, t, c, cat, tx) && Adding(tx) && !tx.calls[0].Reserve? && tx.pc == Ready
    ensures var r := tx.calls[0];
            if r.quantity <= 0 || FindMovement(View(c, tx).movements, r.scope, r.key).Some?
            then Settled(Step(s, t), t, c, cat, tx)
            else At(Step(s, t), t, c, cat, tx.(pc := Looked))
  {
    assert Step(s, t) == DepositStep(s, t, tx);
    assert View(c, Finished(tx)) == View(c, tx);
  }

  lemma DepositCounts(s: System, t: TxId, c: Tables, cat: Catalogue, tx: Tx, k: StockKey, now': StockRow)
    requires At(s, t, c, cat, tx) && Adding(tx) && !tx.calls[0].Reserve? && tx.pc == Ensured
    requires k == CallKey(tx.calls[0]) && k in View(c, tx).stock
    requires var now := View(c, tx).stock[k]; now' == StockRow(now.onHand + tx.calls[0].quantity, now.reserved)
    ensures At(Step(s, t), t, c, cat, tx.(pc := Deposited, stock := tx.stock[k := now']))
  {
    assert Step(s, t) == DepositStep(s, t, tx);
  }

  lemma DepositLogs(s: System, t: TxId, c: Tables, cat: Catalogue, tx: Tx)
    requires At(s, t, c, cat, tx) && Adding(tx) && !tx.calls[0].Reserve? && tx.pc == Deposited
    requires FindMovement(View(c, tx).movements, tx.calls[0].scope, tx.calls[0].key).None?
    ensures At(Step(s, t), t, c, cat, Finished(tx.(log := tx.log + [DepositMovement(tx.calls[0])])))
  {
    assert Step(s, t) == DepositStep(s, t, tx);
  }

  lemma ReserveLooks(s: System, t: TxId, c: Tables, cat: Catalogue, tx: Tx)
    requires At(s, t, c, cat, tx) && tx.calls != [] && tx.calls[0].Reserve? && tx.pc == Ready
    ensures var r := tx.calls[0];
            if r.quantity <= 0 || FindReservation(View(c, tx).reservations, r.source, r.item).Some?
            then Settled(Step(s, t), t, c, cat, tx)
            else At(Step(s, t), t, c, cat, tx.(pc := Looked))
  {
    assert Step(s, t) == ReserveStep(s, t, tx);
    assert View(c, Finished(tx)) == View(c, tx);
  }

  lemma ReserveLocks(s: System, t: TxId, c: Tables, cat: Catalogue, tx: Tx)
    requires At(s, t, c, cat, tx) && tx.calls != [] && tx.calls[0].Reserve? && tx.pc == Ensured
    requires CallKey(tx.calls[0]) in View(c, tx).stock
    ensures At(Step(s, t), t, c, cat, tx.(pc := StockLocked(View(c, tx).stock[CallKey(tx.calls[0])])))
  {
    assert Step(s, t) == ReserveStep(s, t, tx);
  }

  lemma ReserveLooksAgain(s: System, t: TxId, c: Tables, cat: Catalogue, tx: Tx, row: StockRow)
    requires At(s, t, c, cat, tx) && tx.calls != [] && tx.calls[0].Reserve? && tx.pc == StockLocked(row)
    requires FindReservation(View(c, tx).reservations, tx.calls[0].source, tx.calls[0].item).None?
    ensures At(Step(s, t), t, c, cat, tx.(pc := LookedAgain(row)))
  {
    assert Step(s, t) == ReserveStep(s, t, tx);
  }

  lemma ReserveCounts(s: System, t: TxId, c: Tables, cat: Catalogue, tx: Tx, k: StockKey, row: StockRow, row': StockRow)
    requires At(s, t, c, cat, tx) && tx.calls != [] && tx.calls[0].Reserve? && tx.pc == LookedAgain(row)
    requires k == CallKey(tx.calls[0]) && k in View(c, tx).stock && View(c, tx).stock[k] == row
    requires row' == StockRow(row.onHand, row.reserved + tx.calls[0].quantity)
    ensures if row.onHand - row.reserved < tx.calls[0].quantity then Gone(Step(s, t), t, c)
            else At(Step(s, t), t, c, cat, tx.(pc := Counted, stock := tx.stock[k := row']))
  {
    assert Step(s, t) == ReserveStep(s, t, tx);
  }

  lemma ReserveInserts(s: System, t: TxId, c: Tables, cat: Catalogue, tx: Tx)
    requires At(s, t, c, cat, tx) && tx.calls != [] && tx.calls[0].Reserve? && tx.pc == Counted
    ensures var r := tx.calls[0];
            var row := Reservation(r.source, r.warehouse, r.item, r.quantity, RESERVED);
            At(Step(s, t), t, c.(reservations := c.reservations + [None]), cat,
               Finished(tx.(rows := tx.rows[|c.reservations| := row])))
  {
    assert Step(s, t) == ReserveStep(s, t, tx);
  }

  lemma ReleaseLocks(s: System, t: TxId, c: Tables, cat: Catalogue, tx: Tx)
    requires At(s, t, c, cat, tx) && tx.calls != [] && tx.calls[0].Release? && tx.pc == Ready
    ensures var r, v := tx.calls[0], View(c, tx);
            if Visible(v, r.scope, r.reservation) && v.reservations[r.reservation].value.status == RESERVED
            then At(Step(s, t), t, c, cat, tx.(pc := ReleaseLocked(v.reservations[r.reservation].value)))
            else Settled(Step(s, t), t, c, cat, tx)
  {
    assert Step(s, t) == ReleaseStep(s, t, tx);
    assert View(c, Finished(tx)) == View(c, tx);
  }

  lemma ReleaseCounts(s: System, t: TxId, c: Tables, cat: Catalogue, tx: Tx, row: Reservation, now': StockRow)
    requires At(s, t, c, cat, tx) && tx.calls != [] && tx.calls[0].Release? && tx.pc == ReleaseLocked(row)
    requires var now := StockAt(View(c, tx).stock, row.Key()); now' == StockRow(now.onHand, now.reserved - row.quantity)
    ensures At(Step(s, t), t, c, cat,
               if row.Key() in View(c, tx).stock then
                 tx.(pc := ReleaseCounted(row), stock := tx.stock[row.Key() := now'])
               else tx.(pc := ReleaseCounted(row)))
  {
    assert Step(s, t) == ReleaseStep(s, t, tx);
  }

  lemma ReleaseMarks(s: System, t: TxId, c: Tables, cat: Catalogue, tx: Tx, row: Reservation)
    requires At(s, t, c, cat, tx) && tx.calls != [] && tx.calls[0].Release? && tx.pc == ReleaseCounted(row)
    requires tx.calls[0].reservation < |c.reservations|
    ensures At(Step(s, t), t, c, cat,
      Finished(tx.(rows := tx.rows[tx.calls[0].reservation := row.(status := RELEASED)])))
  {
    assert Step(s, t) == ReleaseStep(s, t, tx);
  }

  lemma FulfilLocks(s: System, t: TxId, c: Tables, cat: Catalogue, tx: Tx)
    requires At(s, t, c, cat, tx) && tx.calls != [] && tx.calls[0].Fulfil? && tx.pc == Ready
    ensures var r, v := tx.calls[0], View(c, tx);
            if Visible(v, r.scope, r.reservation) && v.reservations[r.reservation].value.status == RESERVED
            then At(Step(s, t), t, c, cat, tx.(pc := IssueLocked(v.reservations[r.reservation].value)))
            else Settled(Step(s, t), t, c, cat, tx)
  {
    assert Step(s, t) == FulfilStep(s, t, tx);
    assert View(c, Finished(tx)) == View(c, tx);
  }

  lemma FulfilLooks(s: System, t: TxId, c: Tables, cat: Catalogue, tx: Tx, row: Reservation)
    requires At(s, t, c, cat, tx) && tx.calls != [] && tx.calls[0].Fulfil? && tx.pc == IssueLocked(row)
    ensures var r := tx.calls[0];
            At(Step(s, t), t, c, cat,
               if FindMovement(View(c, tx).movements, r.scope, r.key).Some? then
                 Finished(tx) else tx.(pc := KeyUnused(row)))
  {
    assert Step(s, t) == FulfilStep(s, t, tx);
  }

  lemma FulfilCounts(s: System, t: TxId, c: Tables, cat: Catalogue, tx: Tx, row: Reservation)
    requires At(s, t, c, cat, tx) && tx.calls != [] && tx.calls[0].Fulfil? && tx.pc == KeyUnused(row)
    ensures var k, v := row.Key(), View(c, tx);
            if k !in v.stock || v.stock[k].onHand < row.quantity || v.stock[k].reserved < row.quantity
            then Gone(Step(s, t), t, c)
            else
              var now' := StockRow(v.stock[k].onHand - row.quantity, v.stock[k].reserved - row.quantity);
              At(Step(s, t), t, c, cat, tx.(pc := IssueCounted(row), stock := tx.stock[k := now']))
  {
    assert Step(s, t) == FulfilStep(s, t, tx);
  }

  lemma FulfilLogs(s: System, t: TxId, c: Tables, cat: Catalogue, tx: Tx, row: Reservation)
    requires At(s, t, c, cat, tx) && tx.calls != [] && tx.calls[0].Fulfil? && tx.pc == IssueCounted(row)
    requires FindMovement(View(c, tx).movements, tx.calls[0].scope, tx.calls[0].key).None?
    ensures var r := tx.calls[0];
            var m := Movement(r.scope, row.warehouse, row.item, ISSUE, row.quantity, r.key);
            At(Step(s, t), t, c, cat, tx.(pc := IssueLogged(row), log := tx.log + [m]))
  {
    assert Step(s, t) == FulfilStep(s, t, tx);
  }

  lemma FulfilMarks(s: System, t: TxId, c: Tables, cat: Catalogue, tx: Tx, row: Reservation)
    requires At(s, t, c, cat, tx) && tx.calls != [] && tx.calls[0].Fulfil? && tx.pc == IssueLogged(row)
    requires tx.calls[0].reservation < |c.reservations|
    ensures At(Step(s, t), t, c, cat,
      Finished(tx.(rows := tx.rows[tx.calls[0].reservation := row.(status := FULFILLED)])))
  {
    assert Step(s, t) == FulfilStep(s, t, tx);
  }

  // ------------------------------------------------------------- whole calls

  /** The lookup, the warehouse and item check and the insert of a missing stock row. */
  lemma SoloEnsures(s: System, t: TxId, c: Tables, cat: Catalogue, tx: Tx) returns (n: nat, tx': Tx)
    requires At(s, t, c, cat, tx) && Adding(tx) && tx.pc == Ready
    requires tx.calls[0].quantity > 0
    requires var r := tx.calls[0];
             if r.Reserve? then FindReservation(View(c, tx).reservations, r.source, r.item).None?
             else FindMovement(View(c, tx).movements, r.scope, r.key).None?
    ensures var k := CallKey(tx.calls[0]);
            if CheckCatalogue(cat, k.tenant, k.warehouse, k.item).Some? then Gone(Statements(s, t, n), t, c)
            else
              && At(Statements(s, t, n), t, c, cat, tx')
              && tx'.calls == tx.calls && tx'.pc == Ensured && tx'.rows == tx.rows && tx'.log == tx.log
              && View(c, tx') == View(c, tx).(stock := EnsureStock(View(c, tx).stock, k))
  {
    var k := CallKey(tx.calls[0]);
    tx' := tx;
    if tx.calls[0].Reserve? {
      ReserveLooks(s, t, c, cat, tx);
    } else {
      DepositLooks(s, t, c, cat, tx);
    }
    n := Next(s, s, t, 0);
    Admits(Step(s, t), t, c, cat, tx.(pc := Looked));
    n := Next(s, Step(s, t), t, n);
    if CheckCatalogue(cat, k.tenant, k.warehouse, k.item).None? {
      var tx2 := tx.(pc := Admitted);
      assert View(c, tx2) == View(c, tx);
      Ensures(Statements(s, t, n), t, c, cat, tx2);
      tx' := WithStock(c, tx2, k);
      n := Next(s, Statements(s, t, n), t, n);
    }
  }

  lemma Next(s: System, at: System, t: TxId, n: nat) returns (m: nat)
    requires at == Statements(s, t, n) && t in at.txs
    ensures Statements(s, t, m) == Step(at, t)
  {
    m := n + 1;
  }

  lemma SoloDeposit(s: System, t: TxId, c: Tables, cat: Catalogue, tx: Tx) returns (n: nat)
    requires At(s, t, c, cat, tx) && Adding(tx) && !tx.calls[0].Reserve? && tx.pc == Ready
    ensures Settled(Statements(s, t, n), t, c, cat, tx)
  {
    var r := tx.calls[0];
    var k := CallKey(r);
    if r.quantity <= 0 || FindMovement(View(c, tx).movements, r.scope, r.key).Some? {
      DepositLooks(s, t, c, cat, tx);
      n := Next(s, s, t, 0);
    } else {
      var tx3: Tx;
      n, tx3 := SoloEnsures(s, t, c, cat, tx);
      if CheckCatalogue(cat, k.tenant, k.warehouse, k.item).None? {
        n := SoloDepositEnd(s, t, c, cat, tx, tx3, n);
      }
    }
  }

  lemma SoloDepositEnd(s: System, t: TxId, c: Tables, cat: Catalogue, tx: Tx, tx3: Tx, m: nat) returns (n: nat)
    requires Adding(tx) && !tx.calls[0].Reserve? && tx.calls[0].quantity > 0
    requires var r, k := tx.calls[0], CallKey(tx.calls[0]);
             && FindMovement(View(c, tx).movements, r.scope, r.key).None?
             && CheckCatalogue(cat, k.tenant, k.warehouse, k.item).None?
             && At(Statements(s, t, m), t, c, cat, tx3)
             && tx3.calls == tx.calls && tx3.pc == Ensured && tx3.rows == tx.rows && tx3.log == tx.log
             && View(c, tx3) == View(c, tx).(stock := EnsureStock(View(c, tx).stock, k))
    ensures Settled(Statements(s, t, n), t, c, cat, tx)
  {
    var r, k := tx3.calls[0], CallKey(tx3.calls[0]);
    var now := View(c, tx3).stock[k];
    var now' := StockRow(now.onHand + r.quantity, now.reserved);
    var tx4 := tx3.(pc := Pc.Deposited, stock := tx3.stock[k := now']);
    var tx5 := Finished(tx4.(log := tx4.log + [DepositMovement(r)]));
    DepositCounts(Statements(s, t, m), t, c, cat, tx3, k, now');
    n := Next(s, Statements(s, t, m), t, m);
    DepositLogs(Statements(s, t, n), t, c, cat, tx4);
    n := Next(s, Statements(s, t, n), t, n);
    DepositSettles(c, cat, tx, tx3, tx5, now');
  }

  lemma ViewDeposits(c: Tables, tx: Tx, tx3: Tx, tx5: Tx, k: StockKey, now': StockRow, m: Movement)
    requires tx5.stock == tx3.stock[k := now'] && tx5.rows == tx.rows && tx5.log == tx.log + [m]
    ensures View(c, tx5).stock == View(c, tx3).stock[k := now'] && View(c, tx5).reservations == View(c, tx).reservations
    ensures View(c, tx5).movements == View(c, tx).movements + [m]
  {
    assert c.movements + (tx.log + [m]) == c.movements + tx.log + [m];
  }

  lemma DepositSettles(c: Tables, cat: Catalogue, tx: Tx, tx3: Tx, tx5: Tx, now': StockRow)
    requires Adding(tx) && !tx.calls[0].Reserve? && tx.calls[0].quantity > 0
    requires var r, k := tx.calls[0], CallKey(tx.calls[0]);
             && FindMovement(View(c, tx).movements, r.scope, r.key).None?
             && CheckCatalogue(cat, k.tenant, k.warehouse, k.item).None?
             && View(c, tx3).stock == EnsureStock(View(c, tx).stock, k)
             && var now := View(c, tx3).stock[k];
             && now' == StockRow(now.onHand + r.quantity, now.reserved)
             && tx5.stock == tx3.stock[k := now'] && tx5.rows == tx.rows && tx5.log == tx.log + [DepositMovement(r)]
    ensures View(c, tx5) == Apply(View(c, tx), cat, tx.calls[0])
    ensures !Fails(View(c, tx), cat, tx.calls[0])
  {
    hide FindMovement, CheckCatalogue, View;
    var v' := Apply(View(c, tx), cat, tx.calls[0]);
    var k := CallKey(tx.calls[0]);
    ViewDeposits(c, tx, tx3, tx5, k, now', DepositMovement(tx.calls[0]));
    assert DepositMovement(tx.calls[0]).Key() == k;
    assert View(c, tx5).stock == View(c, tx3).stock[k := now'];
    assert View(c, tx5).stock == v'.stock;
    assert View(c, tx5).movements == v'.movements;
  }

  lemma SoloReserve(s: System, t: TxId, c: Tables, cat: Catalogue, tx: Tx) returns (n: nat)
    requires At(s, t, c, cat, tx) && tx.calls != [] && tx.calls[0].Reserve? && tx.pc == Ready
    ensures Settled(Statements(s, t, n), t, c, cat, tx)
  {
    var r, k := tx.calls[0], CallKey(tx.calls[0]);
    if r.quantity <= 0 || FindReservation(View(c, tx).reservations, r.source, r.item).Some? {
      ReserveLooks(s, t, c, cat, tx);
      n := Next(s, s, t, 0);
    } else {
      var tx3: Tx;
      n, tx3 := SoloEnsures(s, t, c, cat, tx);
      if CheckCatalogue(cat, k.tenant, k.warehouse, k.item).None? {
        n := SoloReserveLocked(s, t, c, cat, tx3, n);
        n := SoloReserveEnd(s, t, c, cat, tx, tx3, n);
      }
    }
  }

  /** The row lock and the second lookup. */
  lemma SoloReserveLocked(s: System, t: TxId, c: Tables, cat: Catalogue, tx3: Tx, m: nat) returns (n: nat)
    requires tx3.calls != [] && tx3.calls[0].Reserve? && tx3.pc == Ensured
    requires At(Statements(s, t, m), t, c, cat, tx3) && CallKey(tx3.calls[0]) in View(c, tx3).stock
    requires FindReservation(View(c, tx3).reservations, tx3.calls[0].source, tx3.calls[0].item).None?
    ensures At(Statements(s, t, n), t, c, cat, tx3.(pc := LookedAgain(View(c, tx3).stock[CallKey(tx3.calls[0])])))
  {
    var row := View(c, tx3).stock[CallKey(tx3.calls[0])];
    var tx4 := tx3.(pc := StockLocked(row));
    assert View(c, tx4) == View(c, tx3);
    ReserveLocks(Statements(s, t, m), t, c, cat, tx3);
    n := Next(s, Statements(s, t, m), t, m);
    ReserveLooksAgain(Statements(s, t, n), t, c, cat, tx4, row);
    n := Next(s, Statements(s, t, n), t, n);
  }

  lemma SoloReserveEnd(s: System, t: TxId, c: Tables, cat: Catalogue, tx: Tx, tx3: Tx, m: nat) returns (n: nat)
    requires tx.calls != [] && tx.calls[0].Reserve? && tx.calls[0].quantity > 0
    requires var r, k := tx.calls[0], CallKey(tx.calls[0]);
             && FindReservation(View(c, tx).reservations, r.source, r.item).None?
             && CheckCatalogue(cat, k.tenant, k.warehouse, k.item).None?
             && tx3.calls == tx.calls && tx3.pc == Ensured && tx3.rows == tx.rows && tx3.log == tx.log
             && View(c, tx3) == View(c, tx).(stock := EnsureStock(View(c, tx).stock, k))
             && At(Statements(s, t, m), t, c, cat, tx3.(pc := LookedAgain(View(c, tx3).stock[k])))
    ensures Settled(Statements(s, t, n), t, c, cat, tx)
  {
    var r, k := tx3.calls[0], CallKey(tx3.calls[0]);
    var row := View(c, tx3).stock[k];
    var row' := StockRow(row.onHand, row.reserved + r.quantity);
    var tx5 := tx3.(pc := LookedAgain(row));
    assert View(c, tx5) == View(c, tx3);
    ReserveCounts(Statements(s, t, m), t, c, cat, tx5, k, row, row');
    n := Next(s, Statements(s, t, m), t, m);
    if row.onHand - row.reserved >= r.quantity {
      var tx6 := tx5.(pc := Counted, stock := tx5.stock[k := row']);
      ReserveInserts(Statements(s, t, n), t, c, cat, tx6);
      n := Next(s, Statements(s, t, n), t, n);
      var made := Reservation(r.source, r.warehouse, r.item, r.quantity, RESERVED);
      ReserveSettles(c, cat, tx, tx3, Finished(tx6.(rows := tx6.rows[|c.reservations| := made])), row');
    }
  }

  /** A new own row seen in the position its insert took. */
  lemma ViewOfNewRow(rows: seq<Option<Reservation>>, own: map<nat, Reservation>, made: Reservation)
    requires forall i :: i in own ==> i < |rows|
    ensures ViewRows(rows + [None], own[|rows| := made]) == ViewRows(rows, own) + [Some(made)]
  {
  }

  lemma ReserveSettles(c: Tables, cat: Catalogue, tx: Tx, tx3: Tx, tx7: Tx, row': StockRow)
    requires tx.calls != [] && tx.calls[0].Reserve? && tx.calls[0].quantity > 0
    requires forall i :: i in tx.rows ==> i < |c.reservations|
    requires var r, k := tx.calls[0], CallKey(tx.calls[0]);
             && FindReservation(View(c, tx).reservations, r.source, r.item).None?
             && CheckCatalogue(cat, k.tenant, k.warehouse, k.item).None?
             && View(c, tx3).stock == EnsureStock(View(c, tx).stock, k)
             && var row := View(c, tx3).stock[k];
             && row.onHand - row.reserved >= r.quantity
             && row' == StockRow(row.onHand, row.reserved + r.quantity)
             && tx7.stock == tx3.stock[k := row']
             && tx7.log == tx.log
             && tx7.rows ==
                 tx.rows[|c.reservations| := Reservation(r.source, r.warehouse, r.item, r.quantity, RESERVED)]
    ensures View(c.(reservations := c.reservations + [None]), tx7) == Apply(View(c, tx), cat, tx.calls[0])
    ensures !Fails(View(c, tx), cat, tx.calls[0])
  {
    var v' := Apply(View(c, tx), cat, tx.calls[0]);
    var r := tx.calls[0];
    ViewOfNewRow(c.reservations, tx.rows, Reservation(r.source, r.warehouse, r.item, r.quantity, RESERVED));
    var v7 := View(c.(reservations := c.reservations + [None]), tx7);
    assert v7.stock == View(c, tx3).stock[CallKey(tx.calls[0]) := row'];
    assert v7.stock == v'.stock;
    assert v7.reservations == v'.reservations;
  }

  lemma SoloRelease(s: System, t: TxId, c: Tables, cat: Catalogue, tx: Tx) returns (n: nat)
    requires At(s, t, c, cat, tx) && tx.calls != [] && tx.calls[0].Release? && tx.pc == Ready
    ensures Settled(Statements(s, t, n), t, c, cat, tx)
  {
    var r := tx.calls[0];
    var v := View(c, tx);
    ReleaseLocks(s, t, c, cat, tx);
    n := Next(s, s, t, 0);
    if Visible(v, r.scope, r.reservation) && v.reservations[r.reservation].value.status == RESERVED {
      n := SoloReleaseEnd(s, t, c, cat, tx, v.reservations[r.reservation].value, n);
    }
  }

  lemma SoloReleaseEnd(s: System, t: TxId, c: Tables, cat: Catalogue, tx: Tx, row: Reservation, m: nat) returns (n: nat)
    requires tx.calls != [] && tx.calls[0].Release? && Visible(View(c, tx), tx.calls[0].scope, tx.calls[0].reservation)
    requires View(c, tx).reservations[tx.calls[0].reservation].value == row && row.status == RESERVED
    requires At(Statements(s, t, m), t, c, cat, tx.(pc := ReleaseLocked(row)))
    ensures Settled(Statements(s, t, n), t, c, cat, tx)
  {
    var r := tx.calls[0];
    var v := View(c, tx);
    var k := row.Key();
    var tx1 := tx.(pc := ReleaseLocked(row));
    assert View(c, tx1) == v;
    var now' := StockRow(StockAt(v.stock, k).onHand, StockAt(v.stock, k).reserved - row.quantity);
    ReleaseCounts(Statements(s, t, m), t, c, cat, tx1, row, now');
    n := Next(s, Statements(s, t, m), t, m);
    var tx2 := if k in v.stock then tx1.(pc := ReleaseCounted(row), stock := tx1.stock[k := now'])
               else tx1.(pc := ReleaseCounted(row));
    ReleaseMarks(Statements(s, t, n), t, c, cat, tx2, row);
    n := Next(s, Statements(s, t, n), t, n);
    ReleaseSettles(c, cat, tx, Finished(tx2.(rows := tx2.rows[r.reservation := row.(status := RELEASED)])), row, now');
  }

  lemma ReleaseSettles(c: Tables, cat: Catalogue, tx: Tx, tx3: Tx, row: Reservation, now': StockRow)
    requires tx.calls != [] && tx.calls[0].Release? && Visible(View(c, tx), tx.calls[0].scope, tx.calls[0].reservation)
    requires View(c, tx).reservations[tx.calls[0].reservation].value == row && row.status == RESERVED
    requires var k, v := row.Key(), View(c, tx);
             && now' == StockRow(StockAt(v.stock, k).onHand, StockAt(v.stock, k).reserved - row.quantity)
             && tx3.stock == if k in v.stock then tx.stock[k := now'] else tx.stock
    requires tx3.rows == tx.rows[tx.calls[0].reservation := row.(status := RELEASED)] && tx3.log == tx.log
    ensures View(c, tx3) == Apply(View(c, tx), cat, tx.calls[0])
    ensures !Fails(View(c, tx), cat, tx.calls[0])
  {
    var v' := Apply(View(c, tx), cat, tx.calls[0]);
    assert View(c, tx3).stock == v'.stock;
    assert View(c, tx3).reservations == v'.reservations;
  }

  lemma SoloFulfil(s: System, t: TxId, c: Tables, cat: Catalogue, tx: Tx) returns (n: nat)
    requires At(s, t, c, cat, tx) && tx.calls != [] && tx.calls[0].Fulfil? && tx.pc == Ready
    ensures Settled(Statements(s, t, n), t, c, cat, tx)
  {
    var r := tx.calls[0];
    var v := View(c, tx);
    FulfilLocks(s, t, c, cat, tx);
    n := Next(s, s, t, 0);
    if Visible(v, r.scope, r.reservation) && v.reservations[r.reservation].value.status == RESERVED {
      var row := v.reservations[r.reservation].value;
      var tx1 := tx.(pc := IssueLocked(row));
      assert View(c, tx1) == v;
      FulfilLooks(Statements(s, t, n), t, c, cat, tx1, row);
      n := Next(s, Statements(s, t, n), t, n);
      if FindMovement(v.movements, r.scope, r.key).Some? {
        assert View(c, Finished(tx1)) == v;
      } else {
        n := SoloIssue(s, t, c, cat, tx, row, n);
      }
    }
  }

  lemma ViewIgnoresPc(c: Tables, tx: Tx, pc: Pc)
    ensures View(c, tx.(pc := pc)) == View(c, tx)
  {
  }

  /** The stock row covers the quantity to be issued. */
  predicate Covers(v: Tables, row: Reservation) {
    var k := row.Key();
    k in v.stock && row.quantity <= v.stock[k].onHand && row.quantity <= v.stock[k].reserved
  }

  lemma ShortFails(v: Tables, cat: Catalogue, r: Request, row: Reservation)
    requires r.Fulfil? && Visible(v, r.scope, r.reservation) && v.reservations[r.reservation].value == row
    requires row.status == RESERVED && FindMovement(v.movements, r.scope, r.key).None? && !Covers(v, row)
    ensures Fails(v, cat, r)
  {
  }

  lemma SoloShort(s: System, t: TxId, c: Tables, cat: Catalogue, tx: Tx, row: Reservation)
    requires tx.calls != [] && tx.calls[0].Fulfil? && Visible(View(c, tx), tx.calls[0].scope, tx.calls[0].reservation)
    requires View(c, tx).reservations[tx.calls[0].reservation].value == row && row.status == RESERVED
    requires FindMovement(View(c, tx).movements, tx.calls[0].scope, tx.calls[0].key).None?
    requires At(s, t, c, cat, tx.(pc := KeyUnused(row))) && !Covers(View(c, tx), row)
    ensures Settled(Step(s, t), t, c, cat, tx)
  {
    ViewIgnoresPc(c, tx, KeyUnused(row));
    FulfilCounts(s, t, c, cat, tx.(pc := KeyUnused(row)), row);
    ShortFails(View(c, tx), cat, tx.calls[0], row);
  }

  lemma SoloCounted(s: System, t: TxId, c: Tables, cat: Catalogue, tx: Tx, row: Reservation, now': StockRow)
    requires tx.calls != [] && tx.calls[0].Fulfil? && Covers(View(c, tx), row)
    requires var k, v := row.Key(), View(c, tx);
             now' == StockRow(v.stock[k].onHand - row.quantity, v.stock[k].reserved - row.quantity)
    requires At(s, t, c, cat, tx.(pc := KeyUnused(row)))
    ensures At(Step(s, t), t, c, cat, tx.(pc := IssueCounted(row), stock := tx.stock[row.Key() := now']))
  {
    ViewIgnoresPc(c, tx, KeyUnused(row));
    FulfilCounts(s, t, c, cat, tx.(pc := KeyUnused(row)), row);
    CountedForm(tx, row, now');
  }

  lemma SoloIssue(s: System, t: TxId, c: Tables, cat: Catalogue, tx: Tx, row: Reservation, m: nat) returns (n: nat)
    requires tx.calls != [] && tx.calls[0].Fulfil? && Visible(View(c, tx), tx.calls[0].scope, tx.calls[0].reservation)
    requires View(c, tx).reservations[tx.calls[0].reservation].value == row && row.status == RESERVED
    requires FindMovement(View(c, tx).movements, tx.calls[0].scope, tx.calls[0].key).None?
    requires At(Statements(s, t, m), t, c, cat, tx.(pc := KeyUnused(row)))
    ensures Settled(Statements(s, t, n), t, c, cat, tx)
  {
    var v := View(c, tx);
    n := Next(s, Statements(s, t, m), t, m);
    if Covers(v, row) {
      var k := row.Key();
      var now' := StockRow(v.stock[k].onHand - row.quantity, v.stock[k].reserved - row.quantity);
      SoloCounted(Statements(s, t, m), t, c, cat, tx, row, now');
      n := SoloIssueEnd(s, t, c, cat, tx, row, now', n);
    } else {
      SoloShort(Statements(s, t, m), t, c, cat, tx, row);
    }
  }

  lemma CountedForm(tx: Tx, row: Reservation, now': StockRow)
    ensures tx.(pc := KeyUnused(row)).(pc := IssueCounted(row), stock := tx.stock[row.Key() := now'])
         == tx.(pc := IssueCounted(row), stock := tx.stock[row.Key() := now'])
  {
  }

  lemma SoloIssueEnd(s: System, t: TxId, c: Tables, cat: Catalogue, tx: Tx, row: Reservation, now': StockRow, m: nat)
    returns (n: nat)
    requires tx.calls != [] && tx.calls[0].Fulfil? && Visible(View(c, tx), tx.calls[0].scope, tx.calls[0].reservation)
    requires View(c, tx).reservations[tx.calls[0].reservation].value == row && row.status == RESERVED
    requires FindMovement(View(c, tx).movements, tx.calls[0].scope, tx.calls[0].key).None?
    requires var k, v := row.Key(), View(c, tx);
             && k in v.stock && row.quantity <= v.stock[k].onHand && row.quantity <= v.stock[k].reserved
             && now' == StockRow(v.stock[k].onHand - row.quantity, v.stock[k].reserved - row.quantity)
    requires At(Statements(s, t, m), t, c, cat, tx.(pc := IssueCounted(row), stock := tx.stock[row.Key() := now']))
    ensures Settled(Statements(s, t, n), t, c, cat, tx)
  {
    var r := tx.calls[0];
    var m4 := Movement(r.scope, row.warehouse, row.item, ISSUE, row.quantity, r.key);
    var tx3 := tx.(pc := IssueCounted(row), stock := tx.stock[row.Key() := now']);
    var tx4 := tx3.(pc := IssueLogged(row), log := tx3.log + [m4]);
    FulfilLogs(Statements(s, t, m), t, c, cat, tx3, row);
    n := Next(s, Statements(s, t, m), t, m);
    FulfilMarks(Statements(s, t, n), t, c, cat, tx4, row);
    n := Next(s, Statements(s, t, n), t, n);
    FulfilSettles(c, cat, tx, Finished(tx4.(rows := tx4.rows[r.reservation := row.(status := FULFILLED)])), m4, now');
  }

  lemma FulfilSettles(c: Tables, cat: Catalogue, tx: Tx, tx5: Tx, m: Movement, now': StockRow)
    requires tx.calls != [] && tx.calls[0].Fulfil? && Visible(View(c, tx), tx.calls[0].scope, tx.calls[0].reservation)
    requires var r, v := tx.calls[0], View(c, tx);
             var row := v.reservations[r.reservation].value;
             && row.status == RESERVED && FindMovement(v.movements, r.scope, r.key).None?
             && row.Key() in v.stock && var now := v.stock[row.Key()];
             && row.quantity <= now.onHand && row.quantity <= now.reserved
             && now' == StockRow(now.onHand - row.quantity, now.reserved - row.quantity)
             && m == Movement(r.scope, row.warehouse, row.item, ISSUE, row.quantity, r.key)
             && tx5.stock == tx.stock[row.Key() := now'] && tx5.log == tx.log + [m]
             && tx5.rows == tx.rows[r.reservation := row.(status := FULFILLED)]
    ensures View(c, tx5) == Apply(View(c, tx), cat, tx.calls[0])
    ensures !Fails(View(c, tx), cat, tx.calls[0])
  {
    var v' := Apply(View(c, tx), cat, tx.calls[0]);
    assert View(c, tx5).stock == v'.stock;
    assert View(c, tx5).reservations == v'.reservations;
    assert View(c, tx5).movements == v'.movements;
  }

  /** Every call refines its function. */
  lemma SoloCallRefines(s: System, t: TxId, c: Tables, cat: Catalogue, tx: Tx)
    requires At(s, t, c, cat, tx) && tx.calls != [] && tx.pc == Ready
    ensures exists n: nat :: Settled(Statements(s, t, n), t, c, cat, tx)
  {
    var n: nat;
    match tx.calls[0]
    case Receive(_, _, _, _, _) => n := SoloDeposit(s, t, c, cat, tx);
    case Return(_, _, _, _, _) => n := SoloDeposit(s, t, c, cat, tx);
    case Reserve(_, _, _, _) => n := SoloReserve(s, t, c, cat, tx);
    case Release(_, _) => n := SoloRelease(s, t, c, cat, tx);
    case Fulfil(_, _, _) => n := SoloFulfil(s, t, c, cat, tx);
  }
}
