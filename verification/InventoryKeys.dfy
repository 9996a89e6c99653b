/**
  At most one movement per tenant, branch and operation key, whatever overlaps: a call's own
  lookup comes early, and it is the unique index that stops the second of two inserts.
 */
module InventoryKeys {
  import opened Wrappers
  import opened InventoryTables
  import opened InventorySpec
  import opened InventoryConcurrency
  import opened InventoryInterleaving
  import opened InventorySafety

  ghost predicate KeysOnce(log: seq<Movement>) {
    forall i, j :: 0 <= i < j < |log| ==> KeyLockOf(log[i]) != KeyLockOf(log[j])
  }

  /** What a transaction has logged it holds the index entry of. */
  ghost predicate OwnKeys(c: Tables, locks: map<Lock, TxId>, t: TxId, tx: Tx) {
    && KeysOnce(c.movements + tx.log)
    && forall i :: 0 <= i < |tx.log| ==> Holds(locks, t, KeyLockOf(tx.log[i]))
  }

  ghost predicate KeysInv(s: System) {
    && KeysOnce(s.committed.movements)
    && forall t :: t in s.txs ==> OwnKeys(s.committed, s.locks, t, s.txs[t])
  }

  lemma SameLogs(c: Tables, c': Tables, locks: map<Lock, TxId>, locks': map<Lock, TxId>, t: TxId, tx: Tx, tx': Tx)
    requires OwnKeys(c, locks, t, tx) && tx'.log == tx.log && c'.movements == c.movements
    requires forall l :: Holds(locks, t, l) ==> Holds(locks', t, l)
    ensures OwnKeys(c', locks', t, tx')
  {
  }

  /** What every statement but a commit leaves: others as they were, and one's own log the same or one longer. */
  ghost predicate LogsKept(s: System, s': System, t: TxId) {
    && s'.committed.movements == s.committed.movements
    && (forall u :: u in s'.txs && u != t ==> u in s.txs && s'.txs[u] == s.txs[u])
    && (forall u, l :: (u != t || t in s'.txs) && Holds(s.locks, u, l) ==> Holds(s'.locks, u, l))
    && (t in s'.txs ==> t in s.txs && LogKept(s, s', t))
  }

  ghost predicate LogKept(s: System, s': System, t: TxId)
    requires t in s.txs && t in s'.txs
  {
    || s'.txs[t].log == s.txs[t].log
    || exists m :: s'.txs[t].log == s.txs[t].log + [m] && Inserted(s, s', t, m)
  }

  ghost predicate Inserted(s: System, s': System, t: TxId, m: Movement)
    requires t in s.txs
  {
    Holds(s'.locks, t, KeyLockOf(m)) && !KeyUsed(s.committed.movements + s.txs[t].log, m.scope, m.key)
  }

  lemma EndKeepsLogs(s: System, t: TxId)
    ensures LogsKept(s, End(s, t), t)
  {
  }

  lemma GotoKeepsLogs(s: System, t: TxId, tx: Tx)
    requires t in s.txs && tx.log == s.txs[t].log
    ensures LogsKept(s, Goto(s, t, tx), t)
  {
  }

  lemma TakeKeepsLogs(s: System, t: TxId, l: Lock, tx: Tx)
    requires t in s.txs && tx.log == s.txs[t].log && Free(s.locks, t, l)
    ensures LogsKept(s, Take(s, t, l, tx), t)
  {
  }

  lemma LogStepInserts(s: System, t: TxId, m: Movement, pc: Pc, calls: seq<Request>)
    requires t in s.txs
    ensures LogsKept(s, LogStep(s, t, s.txs[t], m, pc, calls), t)
  {
    var s' := LogStep(s, t, s.txs[t], m, pc, calls);
    EndKeepsLogs(s, t);
    if Free(s.locks, t, KeyLockOf(m)) && FindMovement(View(s.committed, s.txs[t]).movements, m.scope, m.key).None? {
      assert Inserted(s, s', t, m);
      assert s'.txs[t].log == s.txs[t].log + [m];
    }
  }

  lemma PriorKeepsLogs(s: System, t: TxId, absent: Pc)
    requires t in s.txs && s.txs[t].calls != [] && s.txs[t].calls[0].Reserve?
    ensures LogsKept(s, PriorStep(s, t, s.txs[t], absent), t)
  {
    EndKeepsLogs(s, t);
    GotoKeepsLogs(s, t, s.txs[t].(pc := absent));
    GotoKeepsLogs(s, t, Finished(s.txs[t]));
  }

  lemma StartKeepsLogs(s: System, t: TxId, k: StockKey)
    requires t in s.txs
    ensures LogsKept(s, AdmitStep(s, t, s.txs[t], k), t) && LogsKept(s, EnsureStep(s, t, s.txs[t], k), t)
  {
    EndKeepsLogs(s, t);
  }

  lemma ReserveKeepsLogs(s: System, t: TxId)
    requires Inv(s) && t in s.txs && s.txs[t].calls != [] && s.txs[t].calls[0].Reserve?
    ensures LogsKept(s, ReserveStep(s, t, s.txs[t]), t)
  {
    var tx := s.txs[t];
    match tx.pc
    case Ready => if tx.calls[0].quantity > 0 { PriorKeepsLogs(s, t, Looked); } else { EndKeepsLogs(s, t); }
    case Looked => StartKeepsLogs(s, t, CallKey(tx.calls[0]));
    case Admitted => StartKeepsLogs(s, t, CallKey(tx.calls[0]));
    case Ensured => LockStockKeepsLogs(s, t);
    case StockLocked(row) => PriorKeepsLogs(s, t, LookedAgain(row));
    case LookedAgain(row) => CountKeepsLogs(s, t, row);
    case Counted => InsertKeepsLogs(s, t);
    case _ =>
  }

  lemma LockStockKeepsLogs(s: System, t: TxId)
    requires t in s.txs && s.txs[t].calls != [] && s.txs[t].calls[0].Reserve? && s.txs[t].pc == Ensured
    ensures LogsKept(s, ReserveStep(s, t, s.txs[t]), t)
  {
    var tx := s.txs[t];
    var k := CallKey(tx.calls[0]);
    var v := View(s.committed, tx);
    EndKeepsLogs(s, t);
    if Free(s.locks, t, StockLock(k)) && k in v.stock {
      TakeKeepsLogs(s, t, StockLock(k), tx.(pc := StockLocked(v.stock[k])));
    }
  }

  lemma CountKeepsLogs(s: System, t: TxId, row: StockRow)
    requires t in s.txs && s.txs[t].calls != [] && s.txs[t].calls[0].Reserve? && s.txs[t].pc == LookedAgain(row)
    ensures LogsKept(s, ReserveStep(s, t, s.txs[t]), t)
  {
    var tx := s.txs[t];
    var k := CallKey(tx.calls[0]);
    var v := View(s.committed, tx);
    if row.onHand - row.reserved < tx.calls[0].quantity {
      EndKeepsLogs(s, t);
    } else if k !in v.stock {
      GotoKeepsLogs(s, t, tx.(pc := Counted));
    } else if Free(s.locks, t, StockLock(k)) {
      var now := v.stock[k];
      var now' := now.(reserved := now.reserved + tx.calls[0].quantity);
      TakeKeepsLogs(s, t, StockLock(k), tx.(pc := Counted, stock := tx.stock[k := now']));
      CountTakes(s, t, tx, row, now');
    }
  }

  lemma InsertKeepsLogs(s: System, t: TxId)
    requires Inv(s) && t in s.txs && s.txs[t].calls != [] && s.txs[t].calls[0].Reserve? && s.txs[t].pc == Counted
    ensures LogsKept(s, ReserveStep(s, t, s.txs[t]), t)
  {
    NewLockKeepsLogs(s, ReserveStep(s, t, s.txs[t]), t, RowLock(|s.committed.reservations|));
  }

  lemma NewLockKeepsLogs(s: System, s': System, t: TxId, l: Lock)
    requires t in s.txs && t in s'.txs && s'.txs == s.txs[t := s'.txs[t]] && s'.txs[t].log == s.txs[t].log
    requires s'.locks == s.locks[l := t] && s'.committed.movements == s.committed.movements
    requires Free(s.locks, t, l)
    ensures LogsKept(s, s', t)
  {
  }

  lemma ReleaseKeepsLogs(s: System, t: TxId)
    requires Inv(s) && t in s.txs && s.txs[t].calls != [] && s.txs[t].calls[0].Release?
    ensures LogsKept(s, ReleaseStep(s, t, s.txs[t]), t)
  {
    var tx := s.txs[t];
    match tx.pc
    case Ready => LockForReleaseKeepsLogs(s, t);
    case ReleaseLocked(row) => UncountKeepsLogs(s, t, row);
    case ReleaseCounted(row) => MarkKeepsLogs(s, t, row, RELEASED);
    case _ =>
  }

  lemma LockForReleaseKeepsLogs(s: System, t: TxId)
    requires t in s.txs && s.txs[t].calls != [] && s.txs[t].calls[0].Release? && s.txs[t].pc == Ready
    ensures LogsKept(s, ReleaseStep(s, t, s.txs[t]), t)
  {
    var tx := s.txs[t];
    var r, i, v := tx.calls[0], tx.calls[0].reservation, View(s.committed, tx);
    EndKeepsLogs(s, t);
    if Free(s.locks, t, RowLock(i)) && Visible(v, r.scope, i) {
      TakeKeepsLogs(s, t, RowLock(i), Finished(tx));
      TakeKeepsLogs(s, t, RowLock(i), tx.(pc := ReleaseLocked(v.reservations[i].value)));
    }
  }

  lemma UncountKeepsLogs(s: System, t: TxId, row: Reservation)
    requires t in s.txs && s.txs[t].calls != [] && s.txs[t].calls[0].Release? && s.txs[t].pc == ReleaseLocked(row)
    ensures LogsKept(s, ReleaseStep(s, t, s.txs[t]), t)
  {
    var tx := s.txs[t];
    var k, v := row.Key(), View(s.committed, tx);
    if k !in v.stock {
      GotoKeepsLogs(s, t, tx.(pc := ReleaseCounted(row)));
    } else if Free(s.locks, t, StockLock(k)) {
      var now' := v.stock[k].(reserved := v.stock[k].reserved - row.quantity);
      TakeKeepsLogs(s, t, StockLock(k), tx.(pc := ReleaseCounted(row), stock := tx.stock[k := now']));
      UncountTakes(s, t, tx, row, now');
    }
  }

  lemma MarkKeepsLogs(s: System, t: TxId, row: Reservation, status: ReservationStatus)
    requires Inv(s) && t in s.txs && s.txs[t].pc in {ReleaseCounted(row), IssueLogged(row)}
    ensures var tx, i := s.txs[t], s.txs[t].calls[0].reservation;
            LogsKept(s, Take(s, t, RowLock(i), Finished(tx.(rows := tx.rows[i := row.(status := status)]))), t)
  {
    var tx, i := s.txs[t], s.txs[t].calls[0].reservation;
    assert TxOk(s.committed, s.locks, t, tx);
    TakeKeepsLogs(s, t, RowLock(i), Finished(tx.(rows := tx.rows[i := row.(status := status)])));
  }

  lemma FulfilKeepsLogs(s: System, t: TxId)
    requires Inv(s) && t in s.txs && s.txs[t].calls != [] && s.txs[t].calls[0].Fulfil?
    ensures LogsKept(s, FulfilStep(s, t, s.txs[t]), t)
  {
    var tx := s.txs[t];
    match tx.pc
    case Ready => LockForIssueKeepsLogs(s, t);
    case IssueLocked(row) =>
      GotoKeepsLogs(s, t, Finished(tx));
      GotoKeepsLogs(s, t, tx.(pc := KeyUnused(row)));
    case KeyUnused(row) => IssueCountKeepsLogs(s, t, row);
    case IssueCounted(row) => LogStepInserts(s, t, IssueMovement(tx.calls[0], row), IssueLogged(row), tx.calls);
    case IssueLogged(row) => MarkKeepsLogs(s, t, row, FULFILLED);
    case _ =>
  }

  lemma LockForIssueKeepsLogs(s: System, t: TxId)
    requires t in s.txs && s.txs[t].calls != [] && s.txs[t].calls[0].Fulfil? && s.txs[t].pc == Ready
    ensures LogsKept(s, FulfilStep(s, t, s.txs[t]), t)
  {
    var tx := s.txs[t];
    var r, i, v := tx.calls[0], tx.calls[0].reservation, View(s.committed, tx);
    EndKeepsLogs(s, t);
    if Free(s.locks, t, RowLock(i)) && Visible(v, r.scope, i) {
      TakeKeepsLogs(s, t, RowLock(i), Finished(tx));
      TakeKeepsLogs(s, t, RowLock(i), tx.(pc := IssueLocked(v.reservations[i].value)));
    }
  }

  lemma IssueCountKeepsLogs(s: System, t: TxId, row: Reservation)
    requires t in s.txs && s.txs[t].calls != [] && s.txs[t].calls[0].Fulfil? && s.txs[t].pc == KeyUnused(row)
    ensures LogsKept(s, FulfilStep(s, t, s.txs[t]), t)
  {
    var tx := s.txs[t];
    var k, v := row.Key(), View(s.committed, tx);
    EndKeepsLogs(s, t);
    if k in v.stock && Free(s.locks, t, StockLock(k)) && v.stock[k].onHand >= row.quantity
      && v.stock[k].reserved >= row.quantity {
      var now' := StockRow(v.stock[k].onHand - row.quantity, v.stock[k].reserved - row.quantity);
      TakeKeepsLogs(s, t, StockLock(k), tx.(pc := IssueCounted(row), stock := tx.stock[k := now']));
      IssueCountTakes(s, t, tx, row, now');
    }
  }

  lemma DepositKeepsLogs(s: System, t: TxId)
    requires t in s.txs && s.txs[t].calls != [] && (s.txs[t].calls[0].Receive? || s.txs[t].calls[0].Return?)
    ensures LogsKept(s, DepositStep(s, t, s.txs[t]), t)
  {
    var tx := s.txs[t];
    match tx.pc
    case Ready =>
      EndKeepsLogs(s, t);
      GotoKeepsLogs(s, t, tx.(pc := Looked));
      GotoKeepsLogs(s, t, Finished(tx));
    case Looked => StartKeepsLogs(s, t, CallKey(tx.calls[0]));
    case Admitted => StartKeepsLogs(s, t, CallKey(tx.calls[0]));
    case Ensured => DepositCountKeepsLogs(s, t);
    case Deposited => LogStepInserts(s, t, DepositMovement(tx.calls[0]), Ready, tx.calls[1..]);
    case _ =>
  }

  lemma DepositCountKeepsLogs(s: System, t: TxId)
    requires t in s.txs && s.txs[t].calls != [] && (s.txs[t].calls[0].Receive? || s.txs[t].calls[0].Return?)
    requires s.txs[t].pc == Ensured
    ensures LogsKept(s, DepositStep(s, t, s.txs[t]), t)
  {
    var tx := s.txs[t];
    var k, v := CallKey(tx.calls[0]), View(s.committed, tx);
    if k !in v.stock {
      GotoKeepsLogs(s, t, tx.(pc := Deposited));
    } else if Free(s.locks, t, StockLock(k)) {
      var now' := v.stock[k].(onHand := v.stock[k].onHand + tx.calls[0].quantity);
      TakeKeepsLogs(s, t, StockLock(k), tx.(pc := Deposited, stock := tx.stock[k := now']));
      DepositCountTakes(s, t, tx, now');
    }
  }

  lemma StepKeepsLogs(s: System, t: TxId)
    requires Inv(s) && t in s.txs && s.txs[t].calls != []
    ensures LogsKept(s, Step(s, t), t)
  {
    match s.txs[t].calls[0]
    case Reserve(_, _, _, _) => ReserveKeepsLogs(s, t);
    case Release(_, _) => ReleaseKeepsLogs(s, t);
    case Fulfil(_, _, _) => FulfilKeepsLogs(s, t);
    case Receive(_, _, _, _, _) => DepositKeepsLogs(s, t);
    case Return(_, _, _, _, _) => DepositKeepsLogs(s, t);
  }

  // -------------------------------------------------------------- invariant

  lemma UnusedKeyIsNew(log: seq<Movement>, m: Movement)
    requires KeysOnce(log) && !KeyUsed(log, m.scope, m.key)
    ensures KeysOnce(log + [m])
  {
    forall i | 0 <= i < |log| ensures KeyLockOf(log[i]) != KeyLockOf(m) {
      assert !SameOperation(log[i], m.scope, m.key);
    }
  }

  lemma KeptLogsKeepKeys(s: System, s': System, t: TxId)
    requires KeysInv(s) && LogsKept(s, s', t)
    ensures KeysInv(s')
  {
    forall u | u in s'.txs ensures OwnKeys(s'.committed, s'.locks, u, s'.txs[u]) {
      if u != t || s'.txs[u].log == s.txs[u].log {
        SameLogs(s.committed, s'.committed, s.locks, s'.locks, u, s.txs[u], s'.txs[u]);
      } else {
        var m :| s'.txs[t].log == s.txs[t].log + [m] && Inserted(s, s', t, m);
        UnusedKeyIsNew(s.committed.movements + s.txs[t].log, m);
        assert s.committed.movements + (s.txs[t].log + [m]) == s.committed.movements + s.txs[t].log + [m];
      }
    }
  }

  /** Two open transactions have logged different keys, each holding its own. */
  lemma CommitKeepsOwnKeys(c: Tables, locks: map<Lock, TxId>, t: TxId, a: Tx, u: TxId, b: Tx)
    requires t != u && OwnKeys(c, locks, t, a) && OwnKeys(c, locks, u, b)
    ensures OwnKeys(View(c, a), locks, u, b)
  {
    var log, all := c.movements + b.log, c.movements + a.log + b.log;
    var n, p := |c.movements|, |c.movements + a.log|;
    forall i, j | 0 <= i < j < |all| ensures KeyLockOf(all[i]) != KeyLockOf(all[j]) {
      if j < p {
        assert (c.movements + a.log)[i] == all[i] && (c.movements + a.log)[j] == all[j];
      } else if n <= i < p {
        assert all[i] == a.log[i - n] && all[j] == b.log[j - p];
        assert Holds(locks, t, KeyLockOf(a.log[i - n])) && Holds(locks, u, KeyLockOf(b.log[j - p]));
      } else {
        var i' := if i < n then i else i - (p - n);
        assert log[i'] == all[i] && log[j - (p - n)] == all[j];
      }
    }
  }

  lemma CommitKeepsKeys(s: System, t: TxId)
    requires KeysInv(s) && t in s.txs
    ensures KeysInv(Commit(s, t))
  {
    var s' := Commit(s, t);
    forall u | u in s'.txs ensures OwnKeys(s'.committed, s'.locks, u, s'.txs[u]) {
      CommitKeepsOwnKeys(s.committed, s.locks, t, s.txs[t], u, s.txs[u]);
      SameLogs(s'.committed, s'.committed, s.locks, s'.locks, u, s.txs[u], s'.txs[u]);
    }
  }

  lemma HappenKeepsKeys(s: System, e: Event)
    requires Inv(s) && KeysInv(s)
    ensures KeysInv(Happen(s, e))
  {
    match e
    case Begin(t, calls) => assert s.committed.movements + [] == s.committed.movements;
    case Statement(t) =>
      if t in s.txs {
        if s.txs[t].calls == [] {
          CommitKeepsKeys(s, t);
        } else {
          StepKeepsLogs(s, t);
          KeptLogsKeepKeys(s, Step(s, t), t);
        }
      }
    case Abort(t) =>
      EndKeepsLogs(s, t);
      KeptLogsKeepKeys(s, End(s, t), t);
    case Recatalogue(c) =>
  }

  lemma {:induction false} ExecKeepsKeys(s: System, events: seq<Event>)
    requires Inv(s) && KeysInv(s)
    ensures KeysInv(Exec(s, events))
    decreases |events|
  {
    if events != [] {
      HappenKeeps(s, events[0]);
      HappenKeepsKeys(s, events[0]);
      ExecKeepsKeys(Happen(s, events[0]), events[1..]);
    }
  }

  /**
    However receipts, returns and issues overlap, no two committed movements have the same
    tenant, branch and operation key: a repeated request deposits or issues at most once.
   */
  lemma EveryInterleavingLogsOnce(events: seq<Event>, i: nat, j: nat)
    requires i < j < |Exec(START, events).committed.movements|
    ensures var log := Exec(START, events).committed.movements;
            !SameOperation(log[i], log[j].scope, log[j].key)
  {
    EmptyIsBalanced();
    ExecKeepsKeys(START, events);
  }
}
