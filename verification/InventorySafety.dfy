/** Each statement keeps the invariant; so does every run of statements. */
module InventorySafety {
  import opened Wrappers
  import opened InventoryTables
  import opened InventorySpec
  import opened InventoryConcurrency
  import opened InventoryInterleaving

  /** A step that moves only the program counter or the list of calls. */
  lemma MovePc(c: Tables, locks: map<Lock, TxId>, locks': map<Lock, TxId>, t: TxId, tx: Tx, tx': Tx)
    requires TxOk(c, locks, t, tx)
    requires tx'.stock == tx.stock && tx'.rows == tx.rows && tx'.log == tx.log
    requires forall l :: Holds(locks, t, l) ==> Holds(locks', t, l)
    requires forall k :: PendingClaim(tx', k) == PendingClaim(tx, k) && PendingNet(tx', k) == PendingNet(tx, k)
    requires PcOk(View(c, tx'), locks', t, tx')
    ensures TxOk(c, locks', t, tx')
  {
    var v := View(c, tx);
    assert View(c, tx') == v;
    forall k ensures ViewBalancedAt(v, tx', k) {
      assert ViewBalancedAt(v, tx, k);
    }
  }

  /** A step that writes one stock row it then holds. */
  lemma WriteStock(c: Tables, locks: map<Lock, TxId>, t: TxId, tx: Tx, tx': Tx, k: StockKey, row: StockRow)
    requires TxOk(c, locks, t, tx)
    requires tx'.stock == tx.stock[k := row] && tx'.rows == tx.rows && tx'.log == tx.log
    requires 0 <= row.reserved <= row.onHand
    requires row.reserved - StockAt(View(c, tx).stock, k).reserved == PendingClaim(tx', k) - PendingClaim(tx, k)
    requires row.onHand - StockAt(View(c, tx).stock, k).onHand == PendingNet(tx', k) - PendingNet(tx, k)
    requires forall o :: o != k ==>
      PendingClaim(tx', o) == PendingClaim(tx, o) && PendingNet(tx', o) == PendingNet(tx, o)
    requires PcOk(View(c, tx'), locks[StockLock(k) := t], t, tx')
    ensures TxOk(c, locks[StockLock(k) := t], t, tx')
  {
    assert View(c, tx').stock == View(c, tx).stock[k := row];
    RestockBalances(View(c, tx), tx, tx', k, row);
  }

  lemma RestockBalances(v: Tables, tx: Tx, tx': Tx, k: StockKey, row: StockRow)
    requires ViewBalanced(v, tx) && 0 <= row.reserved <= row.onHand
    requires row.reserved - StockAt(v.stock, k).reserved == PendingClaim(tx', k) - PendingClaim(tx, k)
    requires row.onHand - StockAt(v.stock, k).onHand == PendingNet(tx', k) - PendingNet(tx, k)
    requires forall o :: o != k ==>
      PendingClaim(tx', o) == PendingClaim(tx, o) && PendingNet(tx', o) == PendingNet(tx, o)
    ensures ViewBalanced(v.(stock := v.stock[k := row]), tx')
  {
    var v' := v.(stock := v.stock[k := row]);
    forall o ensures ViewBalancedAt(v', tx', o) {
      assert ViewBalancedAt(v, tx, o);
    }
  }

  /** A step that appends one movement to its own log. */
  lemma WriteLog(c: Tables, locks: map<Lock, TxId>, t: TxId, tx: Tx, tx': Tx, m: Movement)
    requires TxOk(c, locks, t, tx)
    requires tx'.stock == tx.stock && tx'.rows == tx.rows && tx'.log == tx.log + [m]
    requires forall k :: PendingClaim(tx', k) == PendingClaim(tx, k)
    requires forall k :: PendingNet(tx', k) + Share(m, k) == PendingNet(tx, k)
    requires PcOk(View(c, tx'), locks, t, tx')
    ensures TxOk(c, locks, t, tx')
  {
    var v, v' := View(c, tx), View(c, tx');
    assert v'.movements == v.movements + [m];
    forall k ensures ViewBalancedAt(v', tx', k) {
      assert ViewBalancedAt(v, tx, k);
      NetAppend(v.movements, m, k);
    }
  }

  /** A step that overwrites one reservation row it holds. */
  lemma WriteRow(c: Tables, locks: map<Lock, TxId>, t: TxId, tx: Tx, tx': Tx, i: nat, row: Reservation)
    requires TxOk(c, locks, t, tx) && i < |c.reservations| && row.quantity > 0
    requires tx'.stock == tx.stock && tx'.rows == tx.rows[i := row] && tx'.log == tx.log
    requires forall k ::
      PendingClaim(tx', k) + Claim(Some(row), k) == PendingClaim(tx, k) + Claim(View(c, tx).reservations[i], k)
    requires forall k :: PendingNet(tx', k) == PendingNet(tx, k)
    requires PcOk(View(c, tx'), locks[RowLock(i) := t], t, tx')
    ensures TxOk(c, locks[RowLock(i) := t], t, tx')
  {
    var v, v' := View(c, tx), View(c, tx');
    assert v'.reservations == v.reservations[i := Some(row)];
    forall k ensures ViewBalancedAt(v', tx', k) {
      assert ViewBalancedAt(v, tx, k);
      ClaimedUpdate(v.reservations, i, Some(row), k);
    }
  }

  // ----------------------------------------------------------- shared steps

  lemma AdmitKeeps(s: System, t: TxId, tx: Tx, k: StockKey)
    requires Inv(s) && t in s.txs && s.txs[t] == tx && tx.pc == Looked
    ensures Inv(AdmitStep(s, t, tx, k))
  {
    EndKeeps(s, t);
    var tx' := tx.(pc := Admitted);
    MovePc(s.committed, s.locks, s.locks, t, tx, tx');
    GotoKeeps(s, t, tx');
  }

  lemma EnsureKeeps(s: System, t: TxId, tx: Tx, k: StockKey)
    requires Inv(s) && t in s.txs && s.txs[t] == tx && tx.pc == Admitted && k == CallKey(tx.calls[0])
    ensures Inv(EnsureStep(s, t, tx, k))
  {
    var v := View(s.committed, tx);
    if k in v.stock {
      MovePc(s.committed, s.locks, s.locks, t, tx, tx.(pc := Ensured));
    } else if Free(s.locks, t, StockLock(k)) {
      var tx' := tx.(pc := Ensured, stock := tx.stock[k := StockRow(0, 0)]);
      WriteStock(s.committed, s.locks, t, tx, tx', k, StockRow(0, 0));
      TakeKeeps(s, t, StockLock(k), tx');
    }
  }

  lemma PriorKeeps(s: System, t: TxId, tx: Tx, absent: Pc)
    requires Inv(s) && t in s.txs && s.txs[t] == tx && tx.calls != [] && Adds(tx.calls[0]) && tx.calls[0].Reserve?
    requires (tx.pc == Ready && absent == Looked) || (tx.pc.StockLocked? && absent == LookedAgain(tx.pc.row))
    ensures Inv(PriorStep(s, t, tx, absent))
  {
    EndKeeps(s, t);
    MovePc(s.committed, s.locks, s.locks, t, tx, tx.(pc := absent));
    MovePc(s.committed, s.locks, s.locks, t, tx, Finished(tx));
  }

  // ---------------------------------------------------------------- reserve

  lemma ReserveStepKeeps(s: System, t: TxId, tx: Tx)
    requires Inv(s) && t in s.txs && s.txs[t] == tx && tx.calls != [] && tx.calls[0].Reserve?
    ensures Inv(ReserveStep(s, t, tx))
  {
    EndKeeps(s, t);
    var k := CallKey(tx.calls[0]);
    match tx.pc
    case Ready => if tx.calls[0].quantity > 0 { PriorKeeps(s, t, tx, Looked); }
    case Looked => AdmitKeeps(s, t, tx, k);
    case Admitted => EnsureKeeps(s, t, tx, k);
    case Ensured => LockStockKeeps(s, t, tx);
    case StockLocked(row) => PriorKeeps(s, t, tx, LookedAgain(row));
    case LookedAgain(row) => CountKeeps(s, t, tx, row);
    case Counted => InsertKeeps(s, t, tx);
    case _ =>
  }

  lemma LockStockKeeps(s: System, t: TxId, tx: Tx)
    requires Inv(s) && t in s.txs && s.txs[t] == tx && tx.calls != [] && tx.calls[0].Reserve? && tx.pc == Ensured
    ensures Inv(ReserveStep(s, t, tx))
  {
    var k := CallKey(tx.calls[0]);
    var v := View(s.committed, tx);
    if Free(s.locks, t, StockLock(k)) {
      var tx' := tx.(pc := StockLocked(v.stock[k]));
      MovePc(s.committed, s.locks, s.locks[StockLock(k) := t], t, tx, tx');
      TakeKeeps(s, t, StockLock(k), tx');
    }
  }

  lemma CountKeeps(s: System, t: TxId, tx: Tx, row: StockRow)
    requires Inv(s) && t in s.txs && s.txs[t] == tx && tx.calls != [] && tx.calls[0].Reserve?
    requires tx.pc == LookedAgain(row)
    ensures Inv(ReserveStep(s, t, tx))
  {
    var r := tx.calls[0];
    var k := CallKey(r);
    if row.onHand - row.reserved < r.quantity {
      EndKeeps(s, t);
    } else {
      var row' := row.(reserved := row.reserved + r.quantity);
      var tx' := tx.(pc := Counted, stock := tx.stock[k := row']);
      var s' := Take(s, t, StockLock(k), tx');
      assert Inv(s') by {
        CountOk(s.committed, s.locks, t, tx, row);
        TakeKeeps(s, t, StockLock(k), tx');
      }
      assert ReserveStep(s, t, tx) == s' by { CountTakes(s, t, tx, row, row'); }
    }
  }

  lemma CountTakes(s: System, t: TxId, tx: Tx, row: StockRow, now': StockRow)
    requires tx.calls != [] && tx.calls[0].Reserve? && tx.pc == LookedAgain(row)
    requires CallKey(tx.calls[0]) in View(s.committed, tx).stock && Free(s.locks, t, StockLock(CallKey(tx.calls[0])))
    requires row.onHand - row.reserved >= tx.calls[0].quantity
    requires var now := View(s.committed, tx).stock[CallKey(tx.calls[0])];
             now' == now.(reserved := now.reserved + tx.calls[0].quantity)
    ensures ReserveStep(s, t, tx) ==
              Take(s, t, StockLock(CallKey(tx.calls[0])),
                tx.(pc := Counted, stock := tx.stock[CallKey(tx.calls[0]) := now']))
  {
  }

  lemma CountOk(c: Tables, locks: map<Lock, TxId>, t: TxId, tx: Tx, row: StockRow)
    requires TxOk(c, locks, t, tx) && tx.calls != [] && tx.calls[0].Reserve? && tx.pc == LookedAgain(row)
    requires row.onHand - row.reserved >= tx.calls[0].quantity
    ensures var k := CallKey(tx.calls[0]);
            var row' := row.(reserved := row.reserved + tx.calls[0].quantity);
            TxOk(c, locks[StockLock(k) := t], t, tx.(pc := Counted, stock := tx.stock[k := row']))
  {
    var k := CallKey(tx.calls[0]);
    var row' := row.(reserved := row.reserved + tx.calls[0].quantity);
    assert ViewBalancedAt(View(c, tx), tx, k);
    WriteStock(c, locks, t, tx, tx.(pc := Counted, stock := tx.stock[k := row']), k, row');
  }

  /** The INSERT that completes a reservation. */
  lemma InsertKeeps(s: System, t: TxId, tx: Tx)
    requires Inv(s) && t in s.txs && s.txs[t] == tx && tx.calls != [] && tx.calls[0].Reserve? && tx.pc == Counted
    ensures Inv(ReserveStep(s, t, tx))
  {
    var r := tx.calls[0];
    var n := |s.committed.reservations|;
    var row := Reservation(r.source, r.warehouse, r.item, r.quantity, RESERVED);
    var s' := s.(committed := s.committed.(reservations := s.committed.reservations + [None]));
    EmptySlotKeeps(s);
    var tx' := Finished(tx.(rows := tx.rows[n := row]));
    assert n !in tx.rows;
    WriteRow(s'.committed, s.locks, t, tx, tx', n, row);
    TakeKeeps(s', t, RowLock(n), tx');
  }

  lemma EmptySlotKeeps(s: System)
    requires Inv(s)
    ensures Inv(s.(committed := s.committed.(reservations := s.committed.reservations + [None])))
  {
    var c := s.committed.(reservations := s.committed.reservations + [None]);
    InsertKeepsBalance(s.committed);
    forall u | u in s.txs ensures TxOk(c, s.locks, u, s.txs[u]) {
      InsertKeepsOther(s.committed, s.locks, u, s.txs[u]);
    }
  }

  // ---------------------------------------------------------------- release

  /** The stock row of a held RESERVED row exists and covers it. */
  lemma HeldIsCovered(c: Tables, locks: map<Lock, TxId>, t: TxId, tx: Tx, i: nat, row: Reservation)
    requires TxOk(c, locks, t, tx)
    requires HeldRow(View(c, tx), locks, t, i, row)
    requires forall k :: PendingClaim(tx, k) == 0
    ensures var v := View(c, tx);
            row.Key() in v.stock && 0 < row.quantity <= v.stock[row.Key()].reserved <= v.stock[row.Key()].onHand
  {
    var v := View(c, tx);
    assert ViewBalancedAt(v, tx, row.Key());
    ClaimedAtLeast(v.reservations, i, row.Key());
  }

  lemma LockRowKeeps(s: System, t: TxId, tx: Tx, i: nat, tx': Tx)
    requires Inv(s) && t in s.txs && s.txs[t] == tx && tx.pc == Ready && tx.calls != []
    requires Free(s.locks, t, RowLock(i)) && i < |s.committed.reservations|
    requires tx' == tx.(calls := tx'.calls, pc := tx'.pc)
    requires forall k :: PendingClaim(tx', k) == 0 && PendingNet(tx', k) == 0
    requires PcOk(View(s.committed, tx), s.locks[RowLock(i) := t], t, tx')
    ensures Inv(Take(s, t, RowLock(i), tx'))
  {
    assert View(s.committed, tx') == View(s.committed, tx);
    MovePc(s.committed, s.locks, s.locks[RowLock(i) := t], t, tx, tx');
    TakeKeeps(s, t, RowLock(i), tx');
  }

  lemma ReleaseStepKeeps(s: System, t: TxId, tx: Tx)
    requires Inv(s) && t in s.txs && s.txs[t] == tx && tx.calls != [] && tx.calls[0].Release?
    ensures Inv(ReleaseStep(s, t, tx))
  {
    EndKeeps(s, t);
    var i := tx.calls[0].reservation;
    var v := View(s.committed, tx);
    match tx.pc
    case Ready =>
      if Free(s.locks, t, RowLock(i)) && Visible(v, tx.calls[0].scope, i) {
        if v.reservations[i].value.status == RELEASED {
          LockRowKeeps(s, t, tx, i, Finished(tx));
        } else if v.reservations[i].value.status == RESERVED {
          LockRowKeeps(s, t, tx, i, tx.(pc := ReleaseLocked(v.reservations[i].value)));
        }
      }
    case ReleaseLocked(row) => UncountKeeps(s, t, tx, row);
    case ReleaseCounted(row) => MarkReleasedKeeps(s, t, tx, row);
    case _ =>
  }

  lemma UncountKeeps(s: System, t: TxId, tx: Tx, row: Reservation)
    requires Inv(s) && t in s.txs && s.txs[t] == tx && tx.calls != [] && tx.calls[0].Release?
    requires tx.pc == ReleaseLocked(row)
    ensures Inv(ReleaseStep(s, t, tx))
  {
    var k := row.Key();
    HeldIsCovered(s.committed, s.locks, t, tx, tx.calls[0].reservation, row);
    if Free(s.locks, t, StockLock(k)) {
      var now := View(s.committed, tx).stock[k];
      var now' := now.(reserved := now.reserved - row.quantity);
      var tx' := tx.(pc := ReleaseCounted(row), stock := tx.stock[k := now']);
      var s' := Take(s, t, StockLock(k), tx');
      assert Inv(s') by {
        UncountOk(s.committed, s.locks, t, tx, row, now');
        TakeKeeps(s, t, StockLock(k), tx');
      }
      assert ReleaseStep(s, t, tx) == s' by { UncountTakes(s, t, tx, row, now'); }
    } else {
      assert ReleaseStep(s, t, tx) == s;
    }
  }

  lemma UncountTakes(s: System, t: TxId, tx: Tx, row: Reservation, now': StockRow)
    requires tx.calls != [] && tx.calls[0].Release? && tx.pc == ReleaseLocked(row)
    requires row.Key() in View(s.committed, tx).stock && Free(s.locks, t, StockLock(row.Key()))
    requires var now := View(s.committed, tx).stock[row.Key()]; now' == now.(reserved := now.reserved - row.quantity)
    ensures ReleaseStep(s, t, tx) ==
              Take(s, t, StockLock(row.Key()), tx.(pc := ReleaseCounted(row), stock := tx.stock[row.Key() := now']))
  {
  }

  lemma UncountOk(c: Tables, locks: map<Lock, TxId>, t: TxId, tx: Tx, row: Reservation, now': StockRow)
    requires TxOk(c, locks, t, tx) && tx.calls != [] && tx.calls[0].Release? && tx.pc == ReleaseLocked(row)
    requires row.Key() in View(c, tx).stock && 0 < row.quantity <= View(c, tx).stock[row.Key()].reserved
    requires var now := View(c, tx).stock[row.Key()]; now' == now.(reserved := now.reserved - row.quantity)
    ensures TxOk(c, locks[StockLock(row.Key()) := t], t,
                 tx.(pc := ReleaseCounted(row), stock := tx.stock[row.Key() := now']))
  {
    assert ViewBalancedAt(View(c, tx), tx, row.Key());
    WriteStock(c, locks, t, tx, tx.(pc := ReleaseCounted(row), stock := tx.stock[row.Key() := now']), row.Key(), now');
  }

  lemma MarkReleasedKeeps(s: System, t: TxId, tx: Tx, row: Reservation)
    requires Inv(s) && t in s.txs && s.txs[t] == tx && tx.calls != [] && tx.calls[0].Release?
    requires tx.pc == ReleaseCounted(row)
    ensures Inv(ReleaseStep(s, t, tx))
  {
    var i := tx.calls[0].reservation;
    var tx' := Finished(tx.(rows := tx.rows[i := row.(status := RELEASED)]));
    WriteRow(s.committed, s.locks, t, tx, tx', i, row.(status := RELEASED));
    TakeKeeps(s, t, RowLock(i), tx');
  }

  // ----------------------------------------------------------------- fulfil

  lemma FulfilStepKeeps(s: System, t: TxId, tx: Tx)
    requires Inv(s) && t in s.txs && s.txs[t] == tx && tx.calls != [] && tx.calls[0].Fulfil?
    ensures Inv(FulfilStep(s, t, tx))
  {
    EndKeeps(s, t);
    match tx.pc
    case Ready => LockForIssueKeeps(s, t, tx);
    case IssueLocked(row) => KeyLookupKeeps(s, t, tx, row);
    case KeyUnused(row) => IssueCountKeeps(s, t, tx, row);
    case IssueCounted(row) => IssueLogKeeps(s, t, tx, row);
    case IssueLogged(row) => MarkFulfilledKeeps(s, t, tx, row);
    case _ =>
  }

  lemma KeyLookupKeeps(s: System, t: TxId, tx: Tx, row: Reservation)
    requires Inv(s) && t in s.txs && s.txs[t] == tx && tx.calls != [] && tx.calls[0].Fulfil?
    requires tx.pc == IssueLocked(row)
    ensures Inv(FulfilStep(s, t, tx))
  {
    var tx' := if FindMovement(View(s.committed, tx).movements, tx.calls[0].scope, tx.calls[0].key).Some?
               then Finished(tx) else tx.(pc := KeyUnused(row));
    MovePc(s.committed, s.locks, s.locks, t, tx, tx');
    GotoKeeps(s, t, tx');
  }

  lemma LockForIssueKeeps(s: System, t: TxId, tx: Tx)
    requires Inv(s) && t in s.txs && s.txs[t] == tx && tx.calls != [] && tx.calls[0].Fulfil? && tx.pc == Ready
    ensures Inv(FulfilStep(s, t, tx))
  {
    EndKeeps(s, t);
    var i := tx.calls[0].reservation;
    var v := View(s.committed, tx);
    if Free(s.locks, t, RowLock(i)) && Visible(v, tx.calls[0].scope, i) {
      if v.reservations[i].value.status == FULFILLED {
        LockRowKeeps(s, t, tx, i, Finished(tx));
      } else if v.reservations[i].value.status == RESERVED {
        LockRowKeeps(s, t, tx, i, tx.(pc := IssueLocked(v.reservations[i].value)));
      }
    }
  }

  lemma IssueCountKeeps(s: System, t: TxId, tx: Tx, row: Reservation)
    requires Inv(s) && t in s.txs && s.txs[t] == tx && tx.calls != [] && tx.calls[0].Fulfil? && tx.pc == KeyUnused(row)
    ensures Inv(FulfilStep(s, t, tx))
  {
    var k := row.Key();
    HeldIsCovered(s.committed, s.locks, t, tx, tx.calls[0].reservation, row);
    if Free(s.locks, t, StockLock(k)) {
      var now := View(s.committed, tx).stock[k];
      var now' := StockRow(now.onHand - row.quantity, now.reserved - row.quantity);
      var tx' := tx.(pc := IssueCounted(row), stock := tx.stock[k := now']);
      var s' := Take(s, t, StockLock(k), tx');
      assert Inv(s') by {
        IssueCountOk(s.committed, s.locks, t, tx, row, now');
        TakeKeeps(s, t, StockLock(k), tx');
      }
      assert FulfilStep(s, t, tx) == s' by { IssueCountTakes(s, t, tx, row, now'); }
    } else {
      assert FulfilStep(s, t, tx) == s;
    }
  }

  lemma IssueCountTakes(s: System, t: TxId, tx: Tx, row: Reservation, now': StockRow)
    requires tx.calls != [] && tx.calls[0].Fulfil? && tx.pc == KeyUnused(row)
    requires row.Key() in View(s.committed, tx).stock && Free(s.locks, t, StockLock(row.Key()))
    requires var now := View(s.committed, tx).stock[row.Key()];
      row.quantity <= now.onHand && row.quantity <= now.reserved
    requires var now := View(s.committed, tx).stock[row.Key()];
             now' == StockRow(now.onHand - row.quantity, now.reserved - row.quantity)
    ensures FulfilStep(s, t, tx) ==
              Take(s, t, StockLock(row.Key()), tx.(pc := IssueCounted(row), stock := tx.stock[row.Key() := now']))
  {
  }

  lemma IssueCountOk(c: Tables, locks: map<Lock, TxId>, t: TxId, tx: Tx, row: Reservation, now': StockRow)
    requires TxOk(c, locks, t, tx) && tx.calls != [] && tx.calls[0].Fulfil? && tx.pc == KeyUnused(row)
    requires row.Key() in View(c, tx).stock && 0 < row.quantity <= View(c, tx).stock[row.Key()].reserved
    requires var now := View(c, tx).stock[row.Key()];
             now' == StockRow(now.onHand - row.quantity, now.reserved - row.quantity)
    ensures TxOk(c, locks[StockLock(row.Key()) := t], t,
                 tx.(pc := IssueCounted(row), stock := tx.stock[row.Key() := now']))
  {
    assert ViewBalancedAt(View(c, tx), tx, row.Key());
    WriteStock(c, locks, t, tx, tx.(pc := IssueCounted(row), stock := tx.stock[row.Key() := now']), row.Key(), now');
  }

  lemma IssueLogOk(c: Tables, locks: map<Lock, TxId>, t: TxId, tx: Tx, tx': Tx, row: Reservation, m: Movement)
    requires TxOk(c, locks, t, tx) && tx.calls != [] && tx.calls[0].Fulfil? && tx.pc == IssueCounted(row)
    requires m == Movement(tx.calls[0].scope, row.warehouse, row.item, ISSUE, row.quantity, tx.calls[0].key)
    requires tx' == tx.(pc := IssueLogged(row), log := tx.log + [m])
    ensures TxOk(c, locks, t, tx')
  {
    WriteLog(c, locks, t, tx, tx', m);
  }

  lemma LogStepKeeps(s: System, t: TxId, tx: Tx, m: Movement, pc: Pc, calls: seq<Request>)
    requires Inv(s) && t in s.txs && s.txs[t] == tx
    requires TxOk(s.committed, s.locks, t, Logged(tx, m, pc, calls))
    ensures Inv(LogStep(s, t, tx, m, pc, calls))
  {
    var l := KeyLockOf(m);
    EndKeeps(s, t);
    if Free(s.locks, t, l) {
      OthersKeepLocks(s.committed, s.locks, s.locks[l := t], t, Logged(tx, m, pc, calls));
      TakeKeeps(s, t, l, Logged(tx, m, pc, calls));
    }
  }

  lemma IssueLogKeeps(s: System, t: TxId, tx: Tx, row: Reservation)
    requires Inv(s) && t in s.txs && s.txs[t] == tx && tx.calls != [] && tx.calls[0].Fulfil?
    requires tx.pc == IssueCounted(row)
    ensures Inv(FulfilStep(s, t, tx))
  {
    var m := IssueMovement(tx.calls[0], row);
    IssueLogOk(s.committed, s.locks, t, tx, Logged(tx, m, IssueLogged(row), tx.calls), row, m);
    LogStepKeeps(s, t, tx, m, IssueLogged(row), tx.calls);
  }

  lemma MarkFulfilledKeeps(s: System, t: TxId, tx: Tx, row: Reservation)
    requires Inv(s) && t in s.txs && s.txs[t] == tx && tx.calls != [] && tx.calls[0].Fulfil?
    requires tx.pc == IssueLogged(row)
    ensures Inv(FulfilStep(s, t, tx))
  {
    var i := tx.calls[0].reservation;
    var tx' := Finished(tx.(rows := tx.rows[i := row.(status := FULFILLED)]));
    WriteRow(s.committed, s.locks, t, tx, tx', i, row.(status := FULFILLED));
    TakeKeeps(s, t, RowLock(i), tx');
  }

  // ----------------------------------------------------- receive and return

  lemma DepositStepKeeps(s: System, t: TxId, tx: Tx)
    requires Inv(s) && t in s.txs && s.txs[t] == tx && tx.calls != [] && (tx.calls[0].Receive? || tx.calls[0].Return?)
    ensures Inv(DepositStep(s, t, tx))
  {
    EndKeeps(s, t);
    var k := CallKey(tx.calls[0]);
    match tx.pc
    case Ready => OperationLookupKeeps(s, t, tx);
    case Looked => AdmitKeeps(s, t, tx, k);
    case Admitted => EnsureKeeps(s, t, tx, k);
    case Ensured => DepositCountKeeps(s, t, tx);
    case Deposited => DepositLogKeeps(s, t, tx);
    case _ =>
  }

  lemma OperationLookupKeeps(s: System, t: TxId, tx: Tx)
    requires Inv(s) && t in s.txs && s.txs[t] == tx && tx.calls != [] && (tx.calls[0].Receive? || tx.calls[0].Return?)
    requires tx.pc == Ready
    ensures Inv(DepositStep(s, t, tx))
  {
    EndKeeps(s, t);
    if tx.calls[0].quantity > 0 {
      var tx' := if FindMovement(View(s.committed, tx).movements, tx.calls[0].scope, tx.calls[0].key).None?
                 then tx.(pc := Looked) else Finished(tx);
      MovePc(s.committed, s.locks, s.locks, t, tx, tx');
      GotoKeeps(s, t, tx');
    }
  }

  lemma DepositCountKeeps(s: System, t: TxId, tx: Tx)
    requires Inv(s) && t in s.txs && s.txs[t] == tx && tx.calls != [] && (tx.calls[0].Receive? || tx.calls[0].Return?)
    requires tx.pc == Ensured
    ensures Inv(DepositStep(s, t, tx))
  {
    hide Claimed, Net;
    var r := tx.calls[0];
    var k := CallKey(r);
    if Free(s.locks, t, StockLock(k)) {
      var now := View(s.committed, tx).stock[k];
      var now' := now.(onHand := now.onHand + r.quantity);
      var tx' := tx.(pc := Deposited, stock := tx.stock[k := now']);
      var s' := Take(s, t, StockLock(k), tx');
      assert Inv(s') by {
        DepositCountOk(s.committed, s.locks, t, tx);
        TakeKeeps(s, t, StockLock(k), tx');
      }
      assert DepositStep(s, t, tx) == s' by { DepositCountTakes(s, t, tx, now'); }
    } else {
      assert DepositStep(s, t, tx) == s;
    }
  }

  lemma DepositCountTakes(s: System, t: TxId, tx: Tx, now': StockRow)
    requires tx.calls != [] && (tx.calls[0].Receive? || tx.calls[0].Return?) && tx.pc == Ensured
    requires CallKey(tx.calls[0]) in View(s.committed, tx).stock && Free(s.locks, t, StockLock(CallKey(tx.calls[0])))
    requires var now := View(s.committed, tx).stock[CallKey(tx.calls[0])];
      now' == now.(onHand := now.onHand + tx.calls[0].quantity)
    ensures DepositStep(s, t, tx) ==
              Take(s, t, StockLock(CallKey(tx.calls[0])),
                tx.(pc := Deposited, stock := tx.stock[CallKey(tx.calls[0]) := now']))
  {
  }

  lemma DepositCountOk(c: Tables, locks: map<Lock, TxId>, t: TxId, tx: Tx)
    requires TxOk(c, locks, t, tx) && tx.calls != [] && (tx.calls[0].Receive? || tx.calls[0].Return?)
    requires tx.pc == Ensured
    ensures var k := CallKey(tx.calls[0]);
            var now := View(c, tx).stock[k];
            var now' := now.(onHand := now.onHand + tx.calls[0].quantity);
            TxOk(c, locks[StockLock(k) := t], t, tx.(pc := Deposited, stock := tx.stock[k := now']))
  {
    var k := CallKey(tx.calls[0]);
    assert ViewBalancedAt(View(c, tx), tx, k);
    var now := View(c, tx).stock[k];
    var now' := now.(onHand := now.onHand + tx.calls[0].quantity);
    WriteStock(c, locks, t, tx, tx.(pc := Deposited, stock := tx.stock[k := now']), k, now');
  }

  lemma DepositLogKeeps(s: System, t: TxId, tx: Tx)
    requires Inv(s) && t in s.txs && s.txs[t] == tx && tx.calls != [] && (tx.calls[0].Receive? || tx.calls[0].Return?)
    requires tx.pc == Deposited
    ensures Inv(DepositStep(s, t, tx))
  {
    var m := DepositMovement(tx.calls[0]);
    WriteLog(s.committed, s.locks, t, tx, Logged(tx, m, Ready, tx.calls[1..]), m);
    LogStepKeeps(s, t, tx, m, Ready, tx.calls[1..]);
  }

  // ------------------------------------------------------------- every event

  lemma HappenKeeps(s: System, e: Event)
    requires Inv(s)
    ensures Inv(Happen(s, e))
  {
    match e
    case Begin(t, calls) => if t !in s.txs { BeginKeeps(s, t, calls); }
    case Statement(t) => if t in s.txs { StepKeeps(s, t); }
    case Abort(t) => EndKeeps(s, t);
    case Recatalogue(c) =>
  }

  lemma BeginKeeps(s: System, t: TxId, calls: seq<Request>)
    requires Inv(s)
    ensures Inv(Goto(s, t, Tx(calls, Ready, map[], map[], [])))
  {
    var tx := Tx(calls, Ready, map[], map[], []);
    var v := View(s.committed, tx);
    assert v.reservations == s.committed.reservations && v.stock == s.committed.stock
      && v.movements == s.committed.movements;
    forall k ensures ViewBalancedAt(v, tx, k) {
      assert BalancedAt(s.committed, k);
    }
  }

  lemma StepKeeps(s: System, t: TxId)
    requires Inv(s) && t in s.txs
    ensures Inv(Step(s, t))
  {
    var tx := s.txs[t];
    if tx.calls == [] {
      CommitKeeps(s, t);
    } else {
      match tx.calls[0]
      case Reserve(_, _, _, _) => ReserveStepKeeps(s, t, tx);
      case Release(_, _) => ReleaseStepKeeps(s, t, tx);
      case Fulfil(_, _, _) => FulfilStepKeeps(s, t, tx);
      case Receive(_, _, _, _, _) => DepositStepKeeps(s, t, tx);
      case Return(_, _, _, _, _) => DepositStepKeeps(s, t, tx);
    }
  }

  lemma {:induction false} ExecKeeps(s: System, events: seq<Event>)
    requires Inv(s)
    ensures Inv(Exec(s, events))
    decreases |events|
  {
    if events != [] {
      HappenKeeps(s, events[0]);
      ExecKeeps(Happen(s, events[0]), events[1..]);
    }
  }

  /**
    Whatever the interleaving, every committed state has 0 <= reserved <= on hand in every
    stock row, reserved quantities equal to the RESERVED reservations, and on-hand
    quantities equal to the movement log.
   */
  lemma EveryInterleavingBalances(events: seq<Event>)
    ensures Balanced(Exec(START, events).committed)
  {
    EmptyIsBalanced();
    ExecKeeps(START, events);
  }

  /** No interleaving reaches the throw for insufficient reserved stock. */
  lemma NoInterleavingRunsShort(events: seq<Event>, t: TxId)
    requires var s := Exec(START, events);
      t in s.txs && s.txs[t].pc.KeyUnused? && s.txs[t].calls != [] && s.txs[t].calls[0].Fulfil?
    ensures var s := Exec(START, events);
            t in Step(s, t).txs && (Step(s, t) == s || Step(s, t).txs[t].pc == IssueCounted(s.txs[t].pc.held))
  {
    var s := Exec(START, events);
    EmptyIsBalanced();
    ExecKeeps(START, events);
    HeldIsCovered(s.committed, s.locks, t, s.txs[t], s.txs[t].calls[0].reservation, s.txs[t].pc.held);
  }
}
