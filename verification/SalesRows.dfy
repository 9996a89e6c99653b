/**
  What every interleaving does to reservation rows: in the committed tables and in every
  open transaction's view they change nothing but their status, and leave RESERVED only once.
  With it goes what a completion's operation key in the log means.
 */
module SalesRows {
  import opened Wrappers
  import opened InventoryTables
  import opened InventorySpec
  import opened InventoryBySource
  import opened InventoryConcurrency
  import opened InventoryInterleaving
  import opened InventorySafety
  import opened SalesDeliveries

  /** Completion keys come from issues, each for the row its key names. */
  predicate KeyMatches(r: Request) {
    && (r.Receive? || r.Return? ==> !CompletionKey(r.key))
    && (r.Fulfil? && CompletionKey(r.key) ==> r.key.reservation == r.reservation)
  }

  ghost predicate KeysMatch(calls: seq<Request>) {
    forall n :: 0 <= n < |calls| ==> KeyMatches(calls[n])
  }

  /** The movement is that of the issue under way, whose row is not marked yet. */
  predicate BeingIssued(tx: Tx, m: Movement) {
    && tx.pc.IssueLogged? && tx.calls != [] && tx.calls[0].Fulfil? && m.key.RowKey?
    && m.key.reservation == tx.calls[0].reservation
  }

  ghost predicate OwnKeysHonest(rows: seq<Option<Reservation>>, tx: Tx) {
    forall j :: 0 <= j < |tx.log| ==> HonestKey(rows, tx.log[j]) || BeingIssued(tx, tx.log[j])
  }

  function Rows(c: Tables, tx: Tx): seq<Option<Reservation>> { ViewRows(c.reservations, tx.rows) }

  ghost predicate RowsOk(c: Tables, tx: Tx) {
    && KeysMatch(tx.calls)
    && OnlyStatusMoves(c.reservations, Rows(c, tx))
    && OwnKeysHonest(Rows(c, tx), tx)
  }

  ghost predicate RowsInv(s: System) {
    && Inv(s)
    && HonestKeys(s.committed)
    && forall t :: t in s.txs ==> RowsOk(s.committed, s.txs[t])
  }

  // ------------------------------------------------------- one's own writes

  lemma MovesKeepHonest(rows: seq<Option<Reservation>>, rows': seq<Option<Reservation>>, m: Movement)
    requires OnlyStatusMoves(rows, rows') && HonestKey(rows, m)
    ensures HonestKey(rows', m)
  {
  }

  /** No row written: at most a call finished. */
  lemma QuietOk(c: Tables, tx: Tx, tx': Tx)
    requires RowsOk(c, tx) && tx'.rows == tx.rows && tx'.log == tx.log && !tx.pc.IssueLogged?
    requires tx'.calls == tx.calls || (tx.calls != [] && tx'.calls == tx.calls[1..])
    ensures RowsOk(c, tx') && OnlyStatusMoves(Rows(c, tx), Rows(c, tx'))
  {
    forall j | 0 <= j < |tx'.log| ensures HonestKey(Rows(c, tx'), tx'.log[j]) {
      assert HonestKey(Rows(c, tx), tx.log[j]) || BeingIssued(tx, tx.log[j]);
    }
  }

  lemma LoggedOk(c: Tables, tx: Tx, m: Movement, pc: Pc, calls: seq<Request>)
    requires RowsOk(c, tx) && !tx.pc.IssueLogged?
    requires calls == tx.calls || (tx.calls != [] && calls == tx.calls[1..])
    requires CompletionKey(m.key) ==> BeingIssued(Logged(tx, m, pc, calls), m)
    ensures RowsOk(c, Logged(tx, m, pc, calls)) && OnlyStatusMoves(Rows(c, tx), Rows(c, Logged(tx, m, pc, calls)))
  {
    var tx' := Logged(tx, m, pc, calls);
    forall j | 0 <= j < |tx'.log| ensures HonestKey(Rows(c, tx'), tx'.log[j]) || BeingIssued(tx', tx'.log[j]) {
      if j < |tx.log| {
        assert tx'.log[j] == tx.log[j];
        assert HonestKey(Rows(c, tx), tx.log[j]) || BeingIssued(tx, tx.log[j]);
      }
    }
  }

  /** A RESERVED row of the view gets its final status, and the call is over. */
  lemma MarkedOk(c: Tables, tx: Tx, tx': Tx, i: nat, row: Reservation, status: ReservationStatus)
    requires RowsOk(c, tx) && tx.calls != [] && tx'.calls == tx.calls[1..] && tx'.log == tx.log
    requires i < |c.reservations| && Rows(c, tx)[i] == Some(row) && row.status == RESERVED
    requires tx'.rows == tx.rows[i := row.(status := status)]
    requires tx.pc.IssueLogged? ==> status == FULFILLED && tx.calls[0].Fulfil? && tx.calls[0].reservation == i
    ensures RowsOk(c, tx') && OnlyStatusMoves(Rows(c, tx), Rows(c, tx'))
    ensures Rows(c, tx')[i] == Some(row.(status := status))
  {
    var v, v' := Rows(c, tx), Rows(c, tx');
    assert v' == v[i := Some(row.(status := status))];
    OnlyStatusMovesTransitive(c.reservations, v, v');
    forall j | 0 <= j < |tx'.log| ensures HonestKey(v', tx'.log[j]) {
      if HonestKey(v, tx.log[j]) {
        MovesKeepHonest(v, v', tx.log[j]);
      } else {
        assert BeingIssued(tx, tx.log[j]);
      }
    }
  }

  lemma SlotOk(c: Tables, c': Tables, tx: Tx)
    requires RowsOk(c, tx) && c'.reservations == c.reservations + [None]
    requires forall i :: i in tx.rows ==> i < |c.reservations|
    ensures RowsOk(c', tx) && OnlyStatusMoves(Rows(c, tx), Rows(c', tx))
  {
    var v, v' := Rows(c, tx), Rows(c', tx);
    assert v' == v + [None];
    forall j | 0 <= j < |tx.log| ensures HonestKey(v', tx.log[j]) || BeingIssued(tx, tx.log[j]) {
      if HonestKey(v, tx.log[j]) {
        MovesKeepHonest(v, v', tx.log[j]);
      }
    }
  }

  lemma InsertedOk(c: Tables, c': Tables, tx: Tx, tx': Tx, row: Reservation)
    requires RowsOk(c, tx) && tx.pc == Counted && tx.calls != [] && tx'.calls == tx.calls[1..] && tx'.log == tx.log
    requires c'.reservations == c.reservations + [None] && tx'.rows == tx.rows[|c.reservations| := row]
    requires forall i :: i in tx.rows ==> i < |c.reservations|
    ensures RowsOk(c', tx') && OnlyStatusMoves(Rows(c, tx), Rows(c', tx'))
  {
    var v, v' := Rows(c, tx), Rows(c', tx');
    assert v' == v + [Some(row)];
    forall j | 0 <= j < |tx'.log| ensures HonestKey(v', tx'.log[j]) {
      assert HonestKey(v, tx.log[j]) || BeingIssued(tx, tx.log[j]);
      MovesKeepHonest(v, v', tx.log[j]);
    }
  }

  // ---------------------------------------------------------- one statement

  /** An issue under a completion's key that is over has left its row FULFILLED. */
  ghost predicate FinishesIssued(c: Tables, tx: Tx, tx': Tx) {
    tx.calls != [] && tx'.calls != tx.calls && tx.calls[0].Fulfil? && CompletionKey(tx.calls[0].key) ==>
      Fulfilled(Rows(c, tx'), tx.calls[0].reservation)
  }

  /** A release that is over has left its row not RESERVED. */
  ghost predicate FinishesReleased(c: Tables, tx: Tx, tx': Tx) {
    tx.calls != [] && tx'.calls != tx.calls && tx.calls[0].Release? ==>
      NotReserved(Rows(c, tx'), tx.calls[0].reservation)
  }

  predicate NotReserved(rows: seq<Option<Reservation>>, i: nat) {
    i < |rows| && rows[i].Some? && rows[i].value.status != RESERVED
  }

  ghost predicate Advanced(s: System, s': System, t: TxId) {
    && (s'.committed == s.committed || s'.committed == s.committed.(reservations := s.committed.reservations + [None]))
    && (forall u :: u in s'.txs && u != t ==> u in s.txs && s'.txs[u] == s.txs[u])
    && (forall u :: u in s.txs && u != t ==> u in s'.txs)
    && (t in s'.txs ==> t in s.txs && AdvancedTx(s.committed, s'.committed, s.txs[t], s'.txs[t]))
  }

  /** Where an own row comes from: it was there, it updates a committed row, or this call has inserted it. */
  ghost predicate OwnRowsFrom(c: Tables, c': Tables, tx: Tx, tx': Tx) {
    forall i :: i in tx'.rows ==>
      || i in tx.rows
      || (i < |c.reservations| && c.reservations[i].Some?)
      || (i == |c.reservations| && |c'.reservations| > i && tx.calls != [] && tx.calls[0].Reserve?
          && tx'.rows[i].source == tx.calls[0].source)
  }

  ghost predicate AdvancedTx(c: Tables, c': Tables, tx: Tx, tx': Tx) {
    && OwnRowsFrom(c, c', tx, tx')
    && RowsOk(c', tx') && OnlyStatusMoves(Rows(c, tx), Rows(c', tx'))
    && (tx'.calls == tx.calls || (tx.calls != [] && tx'.calls == tx.calls[1..]))
    && FinishesIssued(c', tx, tx') && FinishesReleased(c', tx, tx')
  }

  lemma EndAdvances(s: System, t: TxId)
    ensures Advanced(s, End(s, t), t)
  {
  }

  lemma StaysAdvanced(s: System, t: TxId)
    requires RowsInv(s) && t in s.txs
    ensures Advanced(s, s, t)
  {
  }

  /** A statement that writes no row. */
  lemma QuietAdvances(s: System, t: TxId, l: Option<Lock>, tx': Tx)
    requires RowsInv(s) && t in s.txs && tx'.rows == s.txs[t].rows && tx'.log == s.txs[t].log
    requires !s.txs[t].pc.IssueLogged?
    requires tx'.calls == s.txs[t].calls || (s.txs[t].calls != [] && tx'.calls == s.txs[t].calls[1..])
    requires FinishesIssued(s.committed, s.txs[t], tx') && FinishesReleased(s.committed, s.txs[t], tx')
    ensures Advanced(s, if l.Some? then Take(s, t, l.value, tx') else Goto(s, t, tx'), t)
  {
    hide Inv, HonestKeys;
    QuietOk(s.committed, s.txs[t], tx');
  }

  lemma PriorAdvances(s: System, t: TxId, absent: Pc)
    requires RowsInv(s) && t in s.txs && s.txs[t].calls != [] && s.txs[t].calls[0].Reserve? && !s.txs[t].pc.IssueLogged?
    ensures Advanced(s, PriorStep(s, t, s.txs[t], absent), t)
  {
    EndAdvances(s, t);
    QuietAdvances(s, t, None, s.txs[t].(pc := absent));
    QuietAdvances(s, t, None, Finished(s.txs[t]));
  }

  lemma StartAdvances(s: System, t: TxId, k: StockKey)
    requires RowsInv(s) && t in s.txs && (s.txs[t].pc == Looked || s.txs[t].pc == Admitted)
    ensures Advanced(s, AdmitStep(s, t, s.txs[t], k), t) && Advanced(s, EnsureStep(s, t, s.txs[t], k), t)
  {
    var tx := s.txs[t];
    EndAdvances(s, t);
    StaysAdvanced(s, t);
    QuietAdvances(s, t, None, tx.(pc := Admitted));
    QuietAdvances(s, t, None, tx.(pc := Ensured));
    QuietAdvances(s, t, Some(StockLock(k)), tx.(pc := Ensured, stock := tx.stock[k := StockRow(0, 0)]));
  }

  lemma NotLogged(s: System, t: TxId)
    requires RowsInv(s) && t in s.txs && (s.txs[t].calls == [] || !s.txs[t].calls[0].Fulfil?)
    ensures !s.txs[t].pc.IssueLogged?
  {
    hide RowsOk, HonestKeys;
    assert TxOk(s.committed, s.locks, t, s.txs[t]);
  }

  lemma ReserveAdvances(s: System, t: TxId)
    requires RowsInv(s) && t in s.txs && s.txs[t].calls != [] && s.txs[t].calls[0].Reserve?
    ensures Advanced(s, ReserveStep(s, t, s.txs[t]), t)
  {
    hide RowsInv, Advanced, RowsOk;
    var tx := s.txs[t];
    NotLogged(s, t);
    match tx.pc
    case Ready => if tx.calls[0].quantity > 0 { PriorAdvances(s, t, Looked); } else { EndAdvances(s, t); }
    case Looked => StartAdvances(s, t, CallKey(tx.calls[0]));
    case Admitted => StartAdvances(s, t, CallKey(tx.calls[0]));
    case Ensured => LockStockAdvances(s, t);
    case StockLocked(row) => PriorAdvances(s, t, LookedAgain(row));
    case LookedAgain(row) => CountAdvances(s, t, row);
    case Counted => InsertAdvances(s, t);
    case _ => StaysAdvanced(s, t);
  }

  lemma LockStockAdvances(s: System, t: TxId)
    requires RowsInv(s) && t in s.txs && s.txs[t].calls != [] && s.txs[t].calls[0].Reserve? && s.txs[t].pc == Ensured
    ensures Advanced(s, ReserveStep(s, t, s.txs[t]), t)
  {
    var tx := s.txs[t];
    var k, v := CallKey(tx.calls[0]), View(s.committed, tx);
    EndAdvances(s, t);
    StaysAdvanced(s, t);
    if k in v.stock {
      QuietAdvances(s, t, Some(StockLock(k)), tx.(pc := StockLocked(v.stock[k])));
    }
  }

  lemma CountAdvances(s: System, t: TxId, row: StockRow)
    requires RowsInv(s) && t in s.txs && s.txs[t].calls != [] && s.txs[t].calls[0].Reserve?
    requires s.txs[t].pc == LookedAgain(row)
    ensures Advanced(s, ReserveStep(s, t, s.txs[t]), t)
  {
    var tx := s.txs[t];
    var k, v := CallKey(tx.calls[0]), View(s.committed, tx);
    StaysAdvanced(s, t);
    if row.onHand - row.reserved < tx.calls[0].quantity {
      EndAdvances(s, t);
    } else if k !in v.stock {
      QuietAdvances(s, t, None, tx.(pc := Counted));
    } else if Free(s.locks, t, StockLock(k)) {
      var now' := v.stock[k].(reserved := v.stock[k].reserved + tx.calls[0].quantity);
      QuietAdvances(s, t, Some(StockLock(k)), tx.(pc := Counted, stock := tx.stock[k := now']));
      CountTakes(s, t, tx, row, now');
    }
  }

  lemma InsertAdvances(s: System, t: TxId)
    requires RowsInv(s) && t in s.txs && s.txs[t].calls != [] && s.txs[t].calls[0].Reserve? && s.txs[t].pc == Counted
    ensures Advanced(s, ReserveStep(s, t, s.txs[t]), t)
  {
    var tx, r := s.txs[t], s.txs[t].calls[0];
    var s' := ReserveStep(s, t, tx);
    assert TxOk(s.committed, s.locks, t, tx);
    InsertedOk(s.committed, s'.committed, tx, s'.txs[t],
      Reservation(r.source, r.warehouse, r.item, r.quantity, RESERVED));
  }

  lemma ReleaseAdvances(s: System, t: TxId)
    requires RowsInv(s) && t in s.txs && s.txs[t].calls != [] && s.txs[t].calls[0].Release?
    ensures Advanced(s, ReleaseStep(s, t, s.txs[t]), t)
  {
    hide RowsInv, Advanced, RowsOk;
    var tx := s.txs[t];
    NotLogged(s, t);
    match tx.pc
    case Ready => LockForReleaseAdvances(s, t);
    case ReleaseLocked(row) => UncountAdvances(s, t, row);
    case ReleaseCounted(row) => MarkAdvances(s, t, row, RELEASED);
    case _ => StaysAdvanced(s, t);
  }

  lemma LockForReleaseAdvances(s: System, t: TxId)
    requires RowsInv(s) && t in s.txs && s.txs[t].calls != [] && s.txs[t].calls[0].Release? && s.txs[t].pc == Ready
    ensures Advanced(s, ReleaseStep(s, t, s.txs[t]), t)
  {
    var tx := s.txs[t];
    var r, i, v := tx.calls[0], tx.calls[0].reservation, View(s.committed, tx);
    EndAdvances(s, t);
    StaysAdvanced(s, t);
    if Visible(v, r.scope, i) {
      if v.reservations[i].value.status == RELEASED {
        QuietAdvances(s, t, Some(RowLock(i)), Finished(tx));
      } else if v.reservations[i].value.status == RESERVED {
        QuietAdvances(s, t, Some(RowLock(i)), tx.(pc := ReleaseLocked(v.reservations[i].value)));
      }
    }
  }

  lemma UncountAdvances(s: System, t: TxId, row: Reservation)
    requires RowsInv(s) && t in s.txs && s.txs[t].calls != [] && s.txs[t].calls[0].Release?
    requires s.txs[t].pc == ReleaseLocked(row)
    ensures Advanced(s, ReleaseStep(s, t, s.txs[t]), t)
  {
    var tx := s.txs[t];
    var k, v := row.Key(), View(s.committed, tx);
    StaysAdvanced(s, t);
    if k !in v.stock {
      QuietAdvances(s, t, None, tx.(pc := ReleaseCounted(row)));
    } else if Free(s.locks, t, StockLock(k)) {
      var now' := v.stock[k].(reserved := v.stock[k].reserved - row.quantity);
      QuietAdvances(s, t, Some(StockLock(k)), tx.(pc := ReleaseCounted(row), stock := tx.stock[k := now']));
      UncountTakes(s, t, tx, row, now');
    }
  }

  lemma HeldToMark(s: System, t: TxId, row: Reservation)
    requires Inv(s) && t in s.txs && s.txs[t].calls != [] && s.txs[t].pc in {ReleaseCounted(row), IssueLogged(row)}
    ensures (s.txs[t].calls[0].Release? && s.txs[t].pc.ReleaseCounted?) || (s.txs[t].calls[0].Fulfil?
      && s.txs[t].pc.IssueLogged?)
    ensures var i := s.txs[t].calls[0].reservation;
            i < |s.committed.reservations| && Rows(s.committed, s.txs[t])[i] == Some(row) && row.status == RESERVED
  {
    assert TxOk(s.committed, s.locks, t, s.txs[t]);
  }

  lemma MarkAdvances(s: System, t: TxId, row: Reservation, status: ReservationStatus)
    requires RowsInv(s) && t in s.txs && s.txs[t].calls != []
    requires (s.txs[t].pc == ReleaseCounted(row) && status == RELEASED)
      || (s.txs[t].pc == IssueLogged(row) && status == FULFILLED)
    ensures var tx, i := s.txs[t], s.txs[t].calls[0].reservation;
            Advanced(s, Take(s, t, RowLock(i), Finished(tx.(rows := tx.rows[i := row.(status := status)]))), t)
  {
    hide Inv, HonestKeys;
    HeldToMark(s, t, row);
    var tx, i := s.txs[t], s.txs[t].calls[0].reservation;
    MarkedOk(s.committed, tx, Finished(tx.(rows := tx.rows[i := row.(status := status)])), i, row, status);
  }

  lemma FulfilAdvances(s: System, t: TxId)
    requires RowsInv(s) && t in s.txs && s.txs[t].calls != [] && s.txs[t].calls[0].Fulfil?
    ensures Advanced(s, FulfilStep(s, t, s.txs[t]), t)
  {
    hide RowsInv, Advanced, RowsOk;
    var tx := s.txs[t];
    match tx.pc
    case Ready => LockForIssueAdvances(s, t);
    case IssueLocked(row) => KeyLookupAdvances(s, t, row);
    case KeyUnused(row) => IssueCountAdvances(s, t, row);
    case IssueCounted(row) => LogAdvances(s, t, IssueMovement(tx.calls[0], row), IssueLogged(row), tx.calls);
    case IssueLogged(row) => MarkAdvances(s, t, row, FULFILLED);
    case _ => StaysAdvanced(s, t);
  }

  lemma LockForIssueAdvances(s: System, t: TxId)
    requires RowsInv(s) && t in s.txs && s.txs[t].calls != [] && s.txs[t].calls[0].Fulfil? && s.txs[t].pc == Ready
    ensures Advanced(s, FulfilStep(s, t, s.txs[t]), t)
  {
    var tx := s.txs[t];
    var r, i, v := tx.calls[0], tx.calls[0].reservation, View(s.committed, tx);
    EndAdvances(s, t);
    StaysAdvanced(s, t);
    if Visible(v, r.scope, i) {
      if v.reservations[i].value.status == FULFILLED {
        QuietAdvances(s, t, Some(RowLock(i)), Finished(tx));
      } else if v.reservations[i].value.status == RESERVED {
        QuietAdvances(s, t, Some(RowLock(i)), tx.(pc := IssueLocked(v.reservations[i].value)));
      }
    }
  }

  /** Between a movement and its row's update the log is ahead of the rows, and only then. */
  lemma ViewHonest(c: Tables, a: Tx)
    requires HonestKeys(c) && RowsOk(c, a) && !a.pc.IssueLogged?
    ensures HonestKeys(View(c, a))
  {
    var v := View(c, a);
    forall j | 0 <= j < |v.movements| ensures HonestKey(v.reservations, v.movements[j]) {
      if j < |c.movements| {
        assert HonestKey(c.reservations, c.movements[j]);
        MovesKeepHonest(c.reservations, v.reservations, c.movements[j]);
      } else {
        assert HonestKey(v.reservations, a.log[j - |c.movements|]) || BeingIssued(a, a.log[j - |c.movements|]);
      }
    }
  }

  /** The lookup never finds a completion's key: it would name a row issued before. */
  lemma CompletionKeyUnused(s: System, t: TxId, row: Reservation)
    requires RowsInv(s) && t in s.txs && s.txs[t].calls != [] && s.txs[t].calls[0].Fulfil?
    requires s.txs[t].pc == IssueLocked(row)
    requires CompletionKey(s.txs[t].calls[0].key)
    ensures FindMovement(View(s.committed, s.txs[t]).movements, s.txs[t].calls[0].scope, s.txs[t].calls[0].key).None?
  {
    var tx, r := s.txs[t], s.txs[t].calls[0];
    var v := View(s.committed, tx);
    assert TxOk(s.committed, s.locks, t, tx) && KeyMatches(r);
    ViewHonest(s.committed, tx);
    if KeyUsed(v.movements, r.scope, r.key) {
      HonestKeyUsed(v, r.scope, r.key.base, r.reservation);
    }
  }

  lemma KeyLookupAdvances(s: System, t: TxId, row: Reservation)
    requires RowsInv(s) && t in s.txs && s.txs[t].calls != [] && s.txs[t].calls[0].Fulfil?
    requires s.txs[t].pc == IssueLocked(row)
    ensures Advanced(s, FulfilStep(s, t, s.txs[t]), t)
  {
    var tx := s.txs[t];
    if FindMovement(View(s.committed, tx).movements, tx.calls[0].scope, tx.calls[0].key).None? {
      QuietAdvances(s, t, None, tx.(pc := KeyUnused(row)));
    } else {
      if CompletionKey(tx.calls[0].key) {
        CompletionKeyUnused(s, t, row);
      }
      QuietAdvances(s, t, None, Finished(tx));
    }
  }

  lemma IssueCountAdvances(s: System, t: TxId, row: Reservation)
    requires RowsInv(s) && t in s.txs && s.txs[t].calls != [] && s.txs[t].calls[0].Fulfil?
    requires s.txs[t].pc == KeyUnused(row)
    ensures Advanced(s, FulfilStep(s, t, s.txs[t]), t)
  {
    var tx := s.txs[t];
    var k, v := row.Key(), View(s.committed, tx);
    EndAdvances(s, t);
    StaysAdvanced(s, t);
    if k in v.stock && Free(s.locks, t, StockLock(k)) && v.stock[k].onHand >= row.quantity
      && v.stock[k].reserved >= row.quantity {
      var now' := StockRow(v.stock[k].onHand - row.quantity, v.stock[k].reserved - row.quantity);
      QuietAdvances(s, t, Some(StockLock(k)), tx.(pc := IssueCounted(row), stock := tx.stock[k := now']));
      IssueCountTakes(s, t, tx, row, now');
    }
  }

  lemma LogAdvances(s: System, t: TxId, m: Movement, pc: Pc, calls: seq<Request>)
    requires RowsInv(s) && t in s.txs && s.txs[t].calls != [] && !s.txs[t].calls[0].Release?
    requires !s.txs[t].pc.IssueLogged?
    requires m.key == (if s.txs[t].calls[0].Reserve? then m.key else s.txs[t].calls[0].key)
    requires if s.txs[t].calls[0].Fulfil? then calls == s.txs[t].calls && pc.IssueLogged?
             else calls == s.txs[t].calls[1..] && (s.txs[t].calls[0].Receive? || s.txs[t].calls[0].Return?)
    ensures Advanced(s, LogStep(s, t, s.txs[t], m, pc, calls), t)
  {
    EndAdvances(s, t);
    StaysAdvanced(s, t);
    assert KeyMatches(s.txs[t].calls[0]);
    LoggedOk(s.committed, s.txs[t], m, pc, calls);
  }

  lemma DepositAdvances(s: System, t: TxId)
    requires RowsInv(s) && t in s.txs && s.txs[t].calls != []
    requires (s.txs[t].calls[0].Receive? || s.txs[t].calls[0].Return?)
    ensures Advanced(s, DepositStep(s, t, s.txs[t]), t)
  {
    hide RowsInv, Advanced, RowsOk;
    var tx := s.txs[t];
    NotLogged(s, t);
    match tx.pc
    case Ready =>
      EndAdvances(s, t);
      QuietAdvances(s, t, None, tx.(pc := Looked));
      QuietAdvances(s, t, None, Finished(tx));
    case Looked => StartAdvances(s, t, CallKey(tx.calls[0]));
    case Admitted => StartAdvances(s, t, CallKey(tx.calls[0]));
    case Ensured => DepositCountAdvances(s, t);
    case Deposited => LogAdvances(s, t, DepositMovement(tx.calls[0]), Ready, tx.calls[1..]);
    case _ => StaysAdvanced(s, t);
  }

  lemma DepositCountAdvances(s: System, t: TxId)
    requires RowsInv(s) && t in s.txs && s.txs[t].calls != []
    requires (s.txs[t].calls[0].Receive? || s.txs[t].calls[0].Return?)
    requires s.txs[t].pc == Ensured
    ensures Advanced(s, DepositStep(s, t, s.txs[t]), t)
  {
    var tx := s.txs[t];
    var k, v := CallKey(tx.calls[0]), View(s.committed, tx);
    StaysAdvanced(s, t);
    if k !in v.stock {
      QuietAdvances(s, t, None, tx.(pc := Deposited));
    } else if Free(s.locks, t, StockLock(k)) {
      var now' := v.stock[k].(onHand := v.stock[k].onHand + tx.calls[0].quantity);
      QuietAdvances(s, t, Some(StockLock(k)), tx.(pc := Deposited, stock := tx.stock[k := now']));
      DepositCountTakes(s, t, tx, now');
    }
  }

  lemma StepAdvances(s: System, t: TxId)
    requires RowsInv(s) && t in s.txs && s.txs[t].calls != []
    ensures Advanced(s, Step(s, t), t)
  {
    match s.txs[t].calls[0]
    case Reserve(_, _, _, _) => ReserveAdvances(s, t);
    case Release(_, _) => ReleaseAdvances(s, t);
    case Fulfil(_, _, _) => FulfilAdvances(s, t);
    case Receive(_, _, _, _, _) => DepositAdvances(s, t);
    case Return(_, _, _, _, _) => DepositAdvances(s, t);
  }

  // ------------------------------------------------------------ every event

  /** From one state to a later one: the committed rows and every view change statuses only. */
  ghost predicate ViewsMove(s: System, s': System) {
    && OnlyStatusMoves(s.committed.reservations, s'.committed.reservations)
    && forall u :: u in s.txs && u in s'.txs ==>
        OnlyStatusMoves(Rows(s.committed, s.txs[u]), Rows(s'.committed, s'.txs[u]))
  }

  lemma SlotKeepsHonest(c: Tables, c': Tables)
    requires HonestKeys(c) && c'.reservations == c.reservations + [None] && c'.movements == c.movements
    ensures HonestKeys(c')
  {
    forall j | 0 <= j < |c'.movements| ensures HonestKey(c'.reservations, c'.movements[j]) {
      assert HonestKey(c.reservations, c.movements[j]);
    }
  }

  lemma AdvancedKeeps(s: System, s': System, t: TxId)
    requires RowsInv(s) && Inv(s') && t in s.txs && Advanced(s, s', t)
    ensures RowsInv(s') && ViewsMove(s, s')
  {
    forall u | u in s'.txs
      ensures RowsOk(s'.committed, s'.txs[u])
      ensures OnlyStatusMoves(Rows(s.committed, s.txs[u]), Rows(s'.committed, s'.txs[u]))
    {
      if u != t && s'.committed != s.committed {
        assert TxOk(s.committed, s.locks, u, s.txs[u]);
        SlotOk(s.committed, s'.committed, s.txs[u]);
      }
    }
    if s'.committed != s.committed {
      SlotKeepsHonest(s.committed, s'.committed);
    }
  }

  /** Another transaction's view when `a` commits: the two have written different rows. */
  lemma CommitKeepsRows(c: Tables, a: Tx, b: Tx)
    requires RowsOk(c, a) && RowsOk(c, b) && (forall i :: i in a.rows ==> i !in b.rows)
    ensures RowsOk(View(c, a), b) && OnlyStatusMoves(Rows(c, b), Rows(View(c, a), b))
  {
    var v, v' := Rows(c, b), Rows(View(c, a), b);
    assert OnlyStatusMoves(v, v');
    forall j | 0 <= j < |b.log| ensures HonestKey(v', b.log[j]) || BeingIssued(b, b.log[j]) {
      if HonestKey(v, b.log[j]) {
        MovesKeepHonest(v, v', b.log[j]);
      }
    }
  }

  lemma CommitRows(s: System, t: TxId)
    requires RowsInv(s) && t in s.txs && s.txs[t].calls == []
    ensures RowsInv(Commit(s, t)) && ViewsMove(s, Commit(s, t))
    ensures Commit(s, t).committed.reservations == Rows(s.committed, s.txs[t])
  {
    var s' := Commit(s, t);
    assert TxOk(s.committed, s.locks, t, s.txs[t]);
    CommitKeeps(s, t);
    ViewHonest(s.committed, s.txs[t]);
    forall u | u in s'.txs
      ensures RowsOk(s'.committed, s'.txs[u])
      ensures OnlyStatusMoves(Rows(s.committed, s.txs[u]), Rows(s'.committed, s'.txs[u]))
    {
      assert TxOk(s.committed, s.locks, u, s.txs[u]);
      LocksKeepApart(s.committed, s.locks, t, s.txs[t], u, s.txs[u]);
      CommitKeepsRows(s.committed, s.txs[t], s.txs[u]);
    }
  }

  lemma StepRows(s: System, t: TxId)
    requires RowsInv(s) && t in s.txs && s.txs[t].calls != []
    ensures RowsInv(Step(s, t)) && ViewsMove(s, Step(s, t)) && Advanced(s, Step(s, t), t)
  {
    StepKeeps(s, t);
    StepAdvances(s, t);
    AdvancedKeeps(s, Step(s, t), t);
  }

  lemma EndRows(s: System, t: TxId)
    requires RowsInv(s)
    ensures RowsInv(End(s, t)) && ViewsMove(s, End(s, t))
  {
    EndKeeps(s, t);
  }

  lemma BeginRows(s: System, t: TxId, calls: seq<Request>)
    requires RowsInv(s) && t !in s.txs && KeysMatch(calls)
    ensures RowsInv(Goto(s, t, Tx(calls, Ready, map[], map[], [])))
    ensures ViewsMove(s, Goto(s, t, Tx(calls, Ready, map[], map[], [])))
  {
    hide Inv, HonestKeys;
    BeginKeeps(s, t, calls);
  }

  lemma StaysRows(s: System, c: Catalogue)
    requires RowsInv(s)
    ensures ViewsMove(s, s) && RowsInv(s.(catalogue := c)) && ViewsMove(s, s.(catalogue := c))
  {
  }

  lemma HappenRows(s: System, e: Event)
    requires RowsInv(s) && (e.Begin? ==> KeysMatch(e.calls))
    ensures RowsInv(Happen(s, e)) && ViewsMove(s, Happen(s, e))
  {
    hide RowsInv, ViewsMove, KeysMatch;
    StaysRows(s, s.catalogue);
    match e
    case Begin(t, calls) => if t !in s.txs { BeginRows(s, t, calls); }
    case Statement(t) =>
      if t in s.txs {
        if s.txs[t].calls == [] {
          CommitRows(s, t);
        } else {
          StepRows(s, t);
        }
      }
    case Abort(t) => EndRows(s, t);
    case Recatalogue(c) => StaysRows(s, c);
  }

  ghost predicate BeginsMatch(events: seq<Event>) {
    forall n :: 0 <= n < |events| && events[n].Begin? ==> KeysMatch(events[n].calls)
  }

  lemma {:induction false} ExecRows(s: System, events: seq<Event>)
    requires RowsInv(s) && BeginsMatch(events)
    ensures RowsInv(Exec(s, events))
    ensures OnlyStatusMoves(s.committed.reservations, Exec(s, events).committed.reservations)
    decreases |events|
  {
    if events != [] {
      var s1 := Happen(s, events[0]);
      HappenRows(s, events[0]);
      assert forall n :: 0 <= n < |events[1..]| ==> events[1..][n] == events[n + 1];
      ExecRows(s1, events[1..]);
      OnlyStatusMovesTransitive(
        s.committed.reservations, s1.committed.reservations, Exec(s1, events[1..]).committed.reservations);
    }
  }

  /**
    Whatever overlaps, a committed row that is RELEASED or FULFILLED stays exactly as it is, and a
    committed movement under a completion's key belongs to a FULFILLED row.
   */
  lemma EveryInterleavingKeepsFinalRows(first: seq<Event>, later: seq<Event>, i: nat)
    requires BeginsMatch(first) && BeginsMatch(later)
    requires NotReserved(Exec(START, first).committed.reservations, i)
    ensures var rows := Exec(START, first).committed.reservations;
            var s := Exec(Exec(START, first), later);
            && i < |s.committed.reservations| && s.committed.reservations[i] == rows[i] && HonestKeys(s.committed)
  {
    EmptyIsBalanced();
    ExecRows(START, first);
    ExecRows(Exec(START, first), later);
  }
}
