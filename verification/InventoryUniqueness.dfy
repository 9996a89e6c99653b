/**
  At most one reservation per source and item.

  It rests on the row lock followed by the second lookup, so it needs every request
  for a source and item to name the same warehouse: `home` says which.
 */
module InventoryUniqueness {
  import opened Wrappers
  import opened InventoryTables
  import opened InventorySpec
  import opened InventoryConcurrency
  import opened InventoryInterleaving
  import opened InventorySafety

  type Home = (Source, Uuid) -> Uuid

  ghost predicate AtHome(calls: seq<Request>, home: Home) {
    forall i :: 0 <= i < |calls| && calls[i].Reserve? ==> calls[i].warehouse == home(calls[i].source, calls[i].item)
  }

  ghost predicate EventsAtHome(events: seq<Event>, home: Home) {
    forall i :: 0 <= i < |events| && events[i].Begin? ==> AtHome(events[i].calls, home)
  }

  ghost predicate RowsAtHome(rows: seq<Option<Reservation>>, home: Home) {
    forall i :: 0 <= i < |rows| && rows[i].Some? ==>
      rows[i].value.warehouse == home(rows[i].value.source, rows[i].value.item)
  }

  /** An own row either updates a committed row of the same source and item, or is new and its stock row is held. */
  ghost predicate OwnRowOk(c: Tables, locks: map<Lock, TxId>, t: TxId, i: nat, row: Reservation)
    requires i < |c.reservations|
  {
    if c.reservations[i].Some? then Matches(c.reservations[i], row.source, row.item)
    else Holds(locks, t, StockLock(row.Key()))
  }

  ghost predicate Absent(rows: seq<Option<Reservation>>, source: Source, item: Uuid) {
    forall i :: 0 <= i < |rows| ==> !Matches(rows[i], source, item)
  }

  ghost predicate Alone(c: Tables, locks: map<Lock, TxId>, t: TxId, tx: Tx, home: Home) {
    && AtHome(tx.calls, home)
    && RowsAtHome(View(c, tx).reservations, home)
    && OneRowPerSource(View(c, tx).reservations)
    && (forall i :: i in tx.rows ==> i < |c.reservations| && OwnRowOk(c, locks, t, i, tx.rows[i]))
    && (tx.pc.LookedAgain? || tx.pc.Counted? ==>
          && tx.calls != [] && tx.calls[0].Reserve?
          && Absent(View(c, tx).reservations, tx.calls[0].source, tx.calls[0].item)
          && Holds(locks, t, StockLock(CallKey(tx.calls[0]))))
  }

  ghost predicate Unique(s: System, home: Home) {
    && Inv(s)
    && RowsAtHome(s.committed.reservations, home)
    && OneRowPerSource(s.committed.reservations)
    && forall t :: t in s.txs ==> Alone(s.committed, s.locks, t, s.txs[t], home)
  }

  /** Two transactions cannot both hold a stock row, so they do not insert for the same source and item. */
  lemma CommitKeepsAlone(c: Tables, locks: map<Lock, TxId>, t: TxId, a: Tx, u: TxId, b: Tx, home: Home)
    requires t != u && Alone(c, locks, t, a, home) && Alone(c, locks, u, b, home)
    requires forall i :: i in a.rows ==> i !in b.rows
    ensures Alone(View(c, a), locks, u, b, home)
  {
    var va, vb, v := View(c, a).reservations, View(c, b).reservations, View(View(c, a), b).reservations;
    assert forall i :: 0 <= i < |v| ==> v[i] == if i in b.rows then vb[i] else va[i];
    forall i, j | 0 <= i < |v| && 0 <= j < |v| && i != j && v[i].Some? && v[j].Some?
      ensures v[i].value.source != v[j].value.source || v[i].value.item != v[j].value.item
    {
      if i !in b.rows {
        ApartRows(c, locks, t, a, u, b, home, i, j);
      } else if j !in b.rows {
        ApartRows(c, locks, t, a, u, b, home, j, i);
      }
    }
    if b.pc.LookedAgain? || b.pc.Counted? {
      forall i | 0 <= i < |v| ensures !Matches(v[i], b.calls[0].source, b.calls[0].item) {
        assert !Matches(vb[i], b.calls[0].source, b.calls[0].item);
        if i in a.rows && c.reservations[i].None? {
          assert RowsAtHome(va, home);
        }
      }
    }
  }

  lemma ApartRows(c: Tables, locks: map<Lock, TxId>, t: TxId, a: Tx, u: TxId, b: Tx, home: Home, i: nat, j: nat)
    requires t != u && Alone(c, locks, t, a, home) && Alone(c, locks, u, b, home)
    requires forall n :: n in a.rows ==> n !in b.rows
    requires i < |c.reservations| && j < |c.reservations| && i != j
    requires i !in b.rows && View(c, a).reservations[i].Some?
    requires var v := View(View(c, a), b).reservations; v[j].Some?
    ensures var v := View(View(c, a), b).reservations;
            v[i].value.source != v[j].value.source || v[i].value.item != v[j].value.item
  {
    var va, vb, v := View(c, a).reservations, View(c, b).reservations, View(View(c, a), b).reservations;
    if j !in b.rows {
      assert v[i] == va[i] && v[j] == va[j];
    } else if c.reservations[j].Some? {
      assert Matches(c.reservations[j], b.rows[j].source, b.rows[j].item);
      assert va[j] == c.reservations[j];
    } else if c.reservations[i].Some? {
      assert vb[i] == c.reservations[i] && vb[j] == v[j];
    } else {
      // Both rows are new: each transaction holds the stock row its own row names.
      assert va[i] == Some(a.rows[i]) && vb[j] == Some(b.rows[j]);
    }
  }

  // ------------------------------------------------ what a step leaves alone

  /** Other transactions keep their writes and their locks. */
  ghost predicate OthersUntouched(s: System, s': System, t: TxId) {
    && s'.txs.Keys - {t} == s.txs.Keys - {t}
    && (forall u :: u in s'.txs && u != t ==> u in s.txs && s'.txs[u] == s.txs[u])
    && (forall u, l :: u != t && Holds(s.locks, u, l) ==> Holds(s'.locks, u, l))
  }

  lemma OthersStayAlone(s: System, s': System, t: TxId, home: Home)
    requires Unique(s, home) && OthersUntouched(s, s', t)
    requires s'.committed.reservations == s.committed.reservations
          || s'.committed.reservations == s.committed.reservations + [None]
    ensures forall u :: u in s'.txs && u != t ==> Alone(s'.committed, s'.locks, u, s'.txs[u], home)
  {
    forall u | u in s'.txs && u != t ensures Alone(s'.committed, s'.locks, u, s'.txs[u], home) {
      assert u in s'.txs.Keys - {t};
      assert Alone(s.committed, s.locks, u, s.txs[u], home);
      SlotKeepsAlone(s.committed, s'.committed, s.locks, s'.locks, u, s.txs[u], home);
    }
  }

  lemma SlotKeepsAlone(
    c: Tables, c': Tables, locks: map<Lock, TxId>, locks': map<Lock, TxId>, u: TxId, b: Tx, home: Home)
    requires Alone(c, locks, u, b, home)
    requires forall l :: Holds(locks, u, l) ==> Holds(locks', u, l)
    requires c'.reservations == c.reservations || c'.reservations == c.reservations + [None]
    ensures Alone(c', locks', u, b, home)
  {
    var v, v' := View(c, b).reservations, View(c', b).reservations;
    assert v' == v || v' == v + [None];
  }

  /** The stepping transaction, when it writes no reservation row. */
  lemma MoveKeepsAlone(c: Tables, locks: map<Lock, TxId>, locks': map<Lock, TxId>, t: TxId, tx: Tx, tx': Tx, home: Home)
    requires Alone(c, locks, t, tx, home)
    requires forall l :: Holds(locks, t, l) ==> Holds(locks', t, l)
    requires tx'.rows == tx.rows
    requires tx'.calls == tx.calls || (tx.calls != [] && tx'.calls == tx.calls[1..])
    requires tx'.pc.LookedAgain? || tx'.pc.Counted? ==>
      && tx'.calls != [] && tx'.calls[0].Reserve?
      && Absent(View(c, tx).reservations, tx'.calls[0].source, tx'.calls[0].item)
      && Holds(locks', t, StockLock(CallKey(tx'.calls[0])))
    ensures Alone(c, locks', t, tx', home)
  {
    assert View(c, tx').reservations == View(c, tx).reservations;
  }

  /** Changing a held row's status keeps its source and item. */
  lemma StatusKeepsAlone(
    c: Tables, locks: map<Lock, TxId>, t: TxId, tx: Tx, tx': Tx, i: nat, row: Reservation, status: ReservationStatus,
      home: Home)
    requires Alone(c, locks, t, tx, home) && tx.calls != [] && tx'.calls == tx.calls[1..] && tx'.pc == Ready
    requires i < |c.reservations| && View(c, tx).reservations[i] == Some(row)
    requires tx'.rows == tx.rows[i := row.(status := status)]
    ensures Alone(c, locks[RowLock(i) := t], t, tx', home)
  {
    var v, v' := View(c, tx).reservations, View(c, tx').reservations;
    assert v' == v[i := Some(row.(status := status))];
    SameRows(v, v', home);
  }

  lemma SameRows(v: seq<Option<Reservation>>, v': seq<Option<Reservation>>, home: Home)
    requires RowsAtHome(v, home) && OneRowPerSource(v) && |v'| == |v|
    requires forall n :: 0 <= n < |v| && v'[n].Some? ==>
      v[n].Some? && v'[n].value.(status := v[n].value.status) == v[n].value
    ensures RowsAtHome(v', home) && OneRowPerSource(v')
  {
  }

  /** The INSERT, after the second lookup found nothing under the stock row's lock. */
  lemma InsertKeepsAlone(c: Tables, locks: map<Lock, TxId>, t: TxId, tx: Tx, home: Home)
    requires Alone(c, locks, t, tx, home) && tx.pc == Counted && tx.calls != [] && tx.calls[0].Reserve?
    requires forall i :: i in tx.rows ==> i < |c.reservations|
    ensures var n := |c.reservations|;
            var r := tx.calls[0];
            var row := Reservation(r.source, r.warehouse, r.item, r.quantity, RESERVED);
            Alone(c.(reservations := c.reservations + [None]), locks[RowLock(n) := t], t,
                  Finished(tx.(rows := tx.rows[n := row])), home)
  {
    var n := |c.reservations|;
    var r := tx.calls[0];
    var row := Reservation(r.source, r.warehouse, r.item, r.quantity, RESERVED);
    var c' := c.(reservations := c.reservations + [None]);
    var tx' := Finished(tx.(rows := tx.rows[n := row]));
    var v, v' := View(c, tx).reservations, View(c', tx').reservations;
    assert v' == v + [Some(row)];
    forall i, j | 0 <= i < j < |v'| && v'[i].Some? && v'[j].Some?
      ensures v'[i].value.source != v'[j].value.source || v'[i].value.item != v'[j].value.item
    {
      if j == |v| {
        assert !Matches(v[i], r.source, r.item);
      }
    }
    assert row.Key() == CallKey(r);
  }

  // --------------------------------------------------------------- each step

  ghost predicate StepsAlone(s: System, s': System, t: TxId, home: Home) {
    && OthersUntouched(s, s', t)
    && (t in s'.txs ==> Alone(s'.committed, s'.locks, t, s'.txs[t], home))
    && (s'.committed == s.committed || s'.committed == s.committed.(reservations := s.committed.reservations + [None]))
  }

  lemma EndsAlone(s: System, t: TxId, home: Home)
    ensures StepsAlone(s, End(s, t), t, home)
  {
  }

  lemma MovesAlone(s: System, t: TxId, l: Option<Lock>, tx': Tx, home: Home)
    requires Unique(s, home) && t in s.txs && (l.Some? ==> Free(s.locks, t, l.value))
    requires tx'.rows == s.txs[t].rows
    requires tx'.calls == s.txs[t].calls || (s.txs[t].calls != [] && tx'.calls == s.txs[t].calls[1..])
    requires tx'.pc.LookedAgain? || tx'.pc.Counted? ==>
      && tx'.calls != [] && tx'.calls[0].Reserve?
      && Absent(View(s.committed, s.txs[t]).reservations, tx'.calls[0].source, tx'.calls[0].item)
      && Holds(s.locks, t, StockLock(CallKey(tx'.calls[0])))
    ensures StepsAlone(s, if l.Some? then Take(s, t, l.value, tx') else Goto(s, t, tx'), t, home)
  {
    var locks' := if l.Some? then s.locks[l.value := t] else s.locks;
    MoveKeepsAlone(s.committed, s.locks, locks', t, s.txs[t], tx', home);
    var s' := if l.Some? then Take(s, t, l.value, tx') else Goto(s, t, tx');
    assert OthersUntouched(s, s', t) by { MovesUntouched(s, t, l, tx'); }
  }

  lemma MovesUntouched(s: System, t: TxId, l: Option<Lock>, tx': Tx)
    requires t in s.txs && (l.Some? ==> Free(s.locks, t, l.value))
    ensures OthersUntouched(s, if l.Some? then Take(s, t, l.value, tx') else Goto(s, t, tx'), t)
  {
  }

  lemma PriorAlone(s: System, t: TxId, absent: Pc, home: Home)
    requires Unique(s, home) && t in s.txs && s.txs[t].calls != [] && s.txs[t].calls[0].Reserve?
    requires absent == Looked || (s.txs[t].pc.StockLocked? && absent == LookedAgain(s.txs[t].pc.row))
    ensures StepsAlone(s, PriorStep(s, t, s.txs[t], absent), t, home)
  {
    var tx := s.txs[t];
    var rows := View(s.committed, tx).reservations;
    var prior := FindReservation(rows, tx.calls[0].source, tx.calls[0].item);
    assert TxOk(s.committed, s.locks, t, tx);
    if prior.None? {
      MovesAlone(s, t, None, tx.(pc := absent), home);
    } else if rows[prior.value].value.quantity != tx.calls[0].quantity {
      EndsAlone(s, t, home);
    } else {
      MovesAlone(s, t, None, Finished(tx), home);
    }
  }

  lemma AdmitAlone(s: System, t: TxId, k: StockKey, home: Home)
    requires Unique(s, home) && t in s.txs
    ensures StepsAlone(s, AdmitStep(s, t, s.txs[t], k), t, home)
  {
    EndsAlone(s, t, home);
    MovesAlone(s, t, None, s.txs[t].(pc := Admitted), home);
  }

  lemma EnsureAlone(s: System, t: TxId, k: StockKey, home: Home)
    requires Unique(s, home) && t in s.txs
    ensures StepsAlone(s, EnsureStep(s, t, s.txs[t], k), t, home)
  {
    var tx := s.txs[t];
    if k in View(s.committed, tx).stock {
      MovesAlone(s, t, None, tx.(pc := Ensured), home);
    } else if Free(s.locks, t, StockLock(k)) {
      MovesAlone(s, t, Some(StockLock(k)), tx.(pc := Ensured, stock := tx.stock[k := StockRow(0, 0)]), home);
    }
  }

  lemma ReserveStepAlone(s: System, t: TxId, home: Home)
    requires Unique(s, home) && t in s.txs && s.txs[t].calls != [] && s.txs[t].calls[0].Reserve?
    ensures StepsAlone(s, ReserveStep(s, t, s.txs[t]), t, home)
  {
    var tx := s.txs[t];
    var k := CallKey(tx.calls[0]);
    match tx.pc
    case Ready => if tx.calls[0].quantity > 0 { PriorAlone(s, t, Looked, home); } else { EndsAlone(s, t, home); }
    case Looked => AdmitAlone(s, t, k, home);
    case Admitted => EnsureAlone(s, t, k, home);
    case Ensured => LockStockAlone(s, t, home);
    case StockLocked(row) => PriorAlone(s, t, LookedAgain(row), home);
    case LookedAgain(row) => CountAlone(s, t, row, home);
    case Counted =>
      assert TxOk(s.committed, s.locks, t, tx);
      InsertKeepsAlone(s.committed, s.locks, t, tx, home);
    case _ =>
  }

  lemma LockStockAlone(s: System, t: TxId, home: Home)
    requires Unique(s, home) && t in s.txs && s.txs[t].calls != [] && s.txs[t].calls[0].Reserve?
    requires s.txs[t].pc == Ensured
    ensures StepsAlone(s, ReserveStep(s, t, s.txs[t]), t, home)
  {
    var tx := s.txs[t];
    var k := CallKey(tx.calls[0]);
    var v := View(s.committed, tx);
    if Free(s.locks, t, StockLock(k)) {
      if k in v.stock {
        MovesAlone(s, t, Some(StockLock(k)), tx.(pc := StockLocked(v.stock[k])), home);
      } else {
        EndsAlone(s, t, home);
      }
    }
  }

  lemma CountAlone(s: System, t: TxId, row: StockRow, home: Home)
    requires Unique(s, home) && t in s.txs && s.txs[t].calls != [] && s.txs[t].calls[0].Reserve?
    requires s.txs[t].pc == LookedAgain(row)
    ensures StepsAlone(s, ReserveStep(s, t, s.txs[t]), t, home)
  {
    var tx := s.txs[t];
    var r := tx.calls[0];
    var k := CallKey(r);
    var v := View(s.committed, tx);
    assert TxOk(s.committed, s.locks, t, tx) && Alone(s.committed, s.locks, t, tx, home);
    if row.onHand - row.reserved < r.quantity {
      EndsAlone(s, t, home);
    } else {
      var now := v.stock[k];
      var tx' := tx.(pc := Counted, stock := tx.stock[k := now.(reserved := now.reserved + r.quantity)]);
      MovesAlone(s, t, Some(StockLock(k)), tx', home);
    }
  }

  lemma ReleaseStepAlone(s: System, t: TxId, home: Home)
    requires Unique(s, home) && t in s.txs && s.txs[t].calls != [] && s.txs[t].calls[0].Release?
    ensures StepsAlone(s, ReleaseStep(s, t, s.txs[t]), t, home)
  {
    var tx := s.txs[t];
    var i := tx.calls[0].reservation;
    var v := View(s.committed, tx);
    assert TxOk(s.committed, s.locks, t, tx);
    match tx.pc
    case Ready => LockForReleaseAlone(s, t, home);
    case ReleaseLocked(row) => UncountAlone(s, t, row, home);
    case ReleaseCounted(row) =>
      StatusKeepsAlone(s.committed, s.locks, t, tx, Finished(tx.(rows := tx.rows[i := row.(status := RELEASED)])), i,
        row, RELEASED, home);
    case _ =>
  }

  lemma LockForReleaseAlone(s: System, t: TxId, home: Home)
    requires Unique(s, home) && t in s.txs && s.txs[t].calls != [] && s.txs[t].calls[0].Release? && s.txs[t].pc == Ready
    ensures StepsAlone(s, ReleaseStep(s, t, s.txs[t]), t, home)
  {
    var tx := s.txs[t];
    var i := tx.calls[0].reservation;
    var v := View(s.committed, tx);
    if Free(s.locks, t, RowLock(i)) {
      if !Visible(v, tx.calls[0].scope, i) || v.reservations[i].value.status == FULFILLED {
        EndsAlone(s, t, home);
      } else {
        var row := v.reservations[i].value;
        var tx' := if row.status == RELEASED then Finished(tx) else tx.(pc := ReleaseLocked(row));
        MovesAlone(s, t, Some(RowLock(i)), tx', home);
      }
    }
  }

  lemma UncountAlone(s: System, t: TxId, row: Reservation, home: Home)
    requires Unique(s, home) && t in s.txs && s.txs[t].calls != [] && s.txs[t].calls[0].Release?
    requires s.txs[t].pc == ReleaseLocked(row)
    ensures StepsAlone(s, ReleaseStep(s, t, s.txs[t]), t, home)
  {
    var tx := s.txs[t];
    var k := row.Key();
    HeldIsCovered(s.committed, s.locks, t, tx, tx.calls[0].reservation, row);
    if Free(s.locks, t, StockLock(k)) {
      var now := View(s.committed, tx).stock[k];
      var now' := now.(reserved := now.reserved - row.quantity);
      var tx' := tx.(pc := ReleaseCounted(row), stock := tx.stock[k := now']);
      var s' := Take(s, t, StockLock(k), tx');
      assert StepsAlone(s, s', t, home) by { MovesAlone(s, t, Some(StockLock(k)), tx', home); }
      assert ReleaseStep(s, t, tx) == s' by { UncountTakes(s, t, tx, row, now'); }
    } else {
      assert ReleaseStep(s, t, tx) == s;
    }
  }

  lemma LogAlone(s: System, t: TxId, m: Movement, pc: Pc, calls: seq<Request>, home: Home)
    requires Unique(s, home) && t in s.txs && s.txs[t].calls != []
    requires calls == s.txs[t].calls || calls == s.txs[t].calls[1..]
    requires !pc.LookedAgain? && !pc.Counted?
    ensures StepsAlone(s, LogStep(s, t, s.txs[t], m, pc, calls), t, home)
  {
    var tx := s.txs[t];
    if Free(s.locks, t, KeyLockOf(m)) {
      if FindMovement(View(s.committed, tx).movements, m.scope, m.key).Some? {
        EndsAlone(s, t, home);
      } else {
        MovesAlone(s, t, Some(KeyLockOf(m)), Logged(tx, m, pc, calls), home);
      }
    }
  }

  lemma FulfilStepAlone(s: System, t: TxId, home: Home)
    requires Unique(s, home) && t in s.txs && s.txs[t].calls != [] && s.txs[t].calls[0].Fulfil?
    ensures StepsAlone(s, FulfilStep(s, t, s.txs[t]), t, home)
  {
    var tx := s.txs[t];
    var r := tx.calls[0];
    match tx.pc
    case Ready => LockForIssueAlone(s, t, home);
    case IssueLocked(row) => KeyLookupAlone(s, t, row, home);
    case KeyUnused(row) => IssueCountAlone(s, t, row, home);
    case IssueCounted(row) => LogAlone(s, t, IssueMovement(r, row), IssueLogged(row), tx.calls, home);
    case IssueLogged(row) => MarkFulfilledAlone(s, t, row, home);
    case _ =>
  }

  lemma MarkFulfilledAlone(s: System, t: TxId, row: Reservation, home: Home)
    requires Unique(s, home) && t in s.txs && s.txs[t].calls != [] && s.txs[t].calls[0].Fulfil?
    requires s.txs[t].pc == IssueLogged(row)
    ensures StepsAlone(s, FulfilStep(s, t, s.txs[t]), t, home)
  {
    var tx := s.txs[t];
    var i := tx.calls[0].reservation;
    assert TxOk(s.committed, s.locks, t, tx);
    StatusKeepsAlone(s.committed, s.locks, t, tx, Finished(tx.(rows := tx.rows[i := row.(status := FULFILLED)])), i,
      row, FULFILLED, home);
  }

  lemma LockForIssueAlone(s: System, t: TxId, home: Home)
    requires Unique(s, home) && t in s.txs && s.txs[t].calls != [] && s.txs[t].calls[0].Fulfil? && s.txs[t].pc == Ready
    ensures StepsAlone(s, FulfilStep(s, t, s.txs[t]), t, home)
  {
    var tx := s.txs[t];
    var i := tx.calls[0].reservation;
    var v := View(s.committed, tx);
    if Free(s.locks, t, RowLock(i)) {
      if !Visible(v, tx.calls[0].scope, i) || v.reservations[i].value.status == RELEASED {
        EndsAlone(s, t, home);
      } else {
        var row := v.reservations[i].value;
        var tx' := if row.status == FULFILLED then Finished(tx) else tx.(pc := IssueLocked(row));
        MovesAlone(s, t, Some(RowLock(i)), tx', home);
      }
    }
  }

  lemma KeyLookupAlone(s: System, t: TxId, row: Reservation, home: Home)
    requires Unique(s, home) && t in s.txs && s.txs[t].calls != [] && s.txs[t].calls[0].Fulfil?
    requires s.txs[t].pc == IssueLocked(row)
    ensures StepsAlone(s, FulfilStep(s, t, s.txs[t]), t, home)
  {
    var tx := s.txs[t];
    var tx' := if FindMovement(View(s.committed, tx).movements, tx.calls[0].scope, tx.calls[0].key).Some?
               then Finished(tx) else tx.(pc := KeyUnused(row));
    MovesAlone(s, t, None, tx', home);
  }

  lemma IssueCountAlone(s: System, t: TxId, row: Reservation, home: Home)
    requires Unique(s, home) && t in s.txs && s.txs[t].calls != [] && s.txs[t].calls[0].Fulfil?
    requires s.txs[t].pc == KeyUnused(row)
    ensures StepsAlone(s, FulfilStep(s, t, s.txs[t]), t, home)
  {
    hide Alone;
    var tx := s.txs[t];
    var k := row.Key();
    HeldIsCovered(s.committed, s.locks, t, tx, tx.calls[0].reservation, row);
    if Free(s.locks, t, StockLock(k)) {
      var now := View(s.committed, tx).stock[k];
      var now' := StockRow(now.onHand - row.quantity, now.reserved - row.quantity);
      var tx' := tx.(pc := IssueCounted(row), stock := tx.stock[k := now']);
      var s' := Take(s, t, StockLock(k), tx');
      assert StepsAlone(s, s', t, home) by { MovesAlone(s, t, Some(StockLock(k)), tx', home); }
      assert FulfilStep(s, t, tx) == s' by { IssueCountTakes(s, t, tx, row, now'); }
    } else {
      assert FulfilStep(s, t, tx) == s;
    }
  }

  lemma DepositStepAlone(s: System, t: TxId, home: Home)
    requires Unique(s, home) && t in s.txs && s.txs[t].calls != []
    requires (s.txs[t].calls[0].Receive? || s.txs[t].calls[0].Return?)
    ensures StepsAlone(s, DepositStep(s, t, s.txs[t]), t, home)
  {
    var tx := s.txs[t];
    var r := tx.calls[0];
    match tx.pc
    case Ready => OperationLookupAlone(s, t, home);
    case Looked => AdmitAlone(s, t, CallKey(r), home);
    case Admitted => EnsureAlone(s, t, CallKey(r), home);
    case Ensured => DepositCountAlone(s, t, home);
    case Deposited => LogAlone(s, t, DepositMovement(r), Ready, tx.calls[1..], home);
    case _ =>
  }

  lemma OperationLookupAlone(s: System, t: TxId, home: Home)
    requires Unique(s, home) && t in s.txs && s.txs[t].calls != []
    requires (s.txs[t].calls[0].Receive? || s.txs[t].calls[0].Return?)
    requires s.txs[t].pc == Ready
    ensures StepsAlone(s, DepositStep(s, t, s.txs[t]), t, home)
  {
    var tx := s.txs[t];
    EndsAlone(s, t, home);
    var tx' := if FindMovement(View(s.committed, tx).movements, tx.calls[0].scope, tx.calls[0].key).None?
               then tx.(pc := Looked) else Finished(tx);
    MovesAlone(s, t, None, tx', home);
  }

  lemma DepositCountAlone(s: System, t: TxId, home: Home)
    requires Unique(s, home) && t in s.txs && s.txs[t].calls != []
    requires (s.txs[t].calls[0].Receive? || s.txs[t].calls[0].Return?)
    requires s.txs[t].pc == Ensured
    ensures StepsAlone(s, DepositStep(s, t, s.txs[t]), t, home)
  {
    var tx := s.txs[t];
    var k := CallKey(tx.calls[0]);
    var v := View(s.committed, tx);
    if k !in v.stock {
      MovesAlone(s, t, None, tx.(pc := Deposited), home);
    } else if Free(s.locks, t, StockLock(k)) {
      var now := v.stock[k];
      var now' := now.(onHand := now.onHand + tx.calls[0].quantity);
      var tx' := tx.(pc := Deposited, stock := tx.stock[k := now']);
      MovesAlone(s, t, Some(StockLock(k)), tx', home);
      assert DepositStep(s, t, tx) == Take(s, t, StockLock(k), tx') by { DepositCountTakes(s, t, tx, now'); }
    }
  }

  // ------------------------------------------------------------- every event

  lemma CommitAlone(s: System, t: TxId, home: Home)
    requires Unique(s, home) && t in s.txs
    ensures var s' := Commit(s, t);
            && RowsAtHome(s'.committed.reservations, home)
            && OneRowPerSource(s'.committed.reservations)
            && forall u :: u in s'.txs ==> Alone(s'.committed, s'.locks, u, s'.txs[u], home)
  {
    var c, a, s' := s.committed, s.txs[t], Commit(s, t);
    assert Alone(c, s.locks, t, a, home) && TxOk(c, s.locks, t, a);
    forall u | u in s'.txs ensures Alone(s'.committed, s'.locks, u, s'.txs[u], home) {
      var b := s.txs[u];
      assert Alone(c, s.locks, u, b, home) && TxOk(c, s.locks, u, b);
      LocksKeepApart(c, s.locks, t, a, u, b);
      CommitKeepsAlone(c, s.locks, t, a, u, b, home);
      SlotKeepsAlone(View(c, a), View(c, a), s.locks, s'.locks, u, b, home);
    }
  }

  lemma StepIsUnique(s: System, t: TxId, home: Home)
    requires Unique(s, home) && t in s.txs
    ensures Unique(Step(s, t), home)
  {
    var tx := s.txs[t];
    StepKeeps(s, t);
    if tx.calls == [] {
      CommitAlone(s, t, home);
    } else {
      StepStaysAlone(s, t, home);
      StepsAloneIsUnique(s, Step(s, t), t, home);
    }
  }

  lemma StepStaysAlone(s: System, t: TxId, home: Home)
    requires Unique(s, home) && t in s.txs && s.txs[t].calls != []
    ensures StepsAlone(s, Step(s, t), t, home)
  {
    match s.txs[t].calls[0]
    case Reserve(_, _, _, _) => ReserveStepAlone(s, t, home);
    case Release(_, _) => ReleaseStepAlone(s, t, home);
    case Fulfil(_, _, _) => FulfilStepAlone(s, t, home);
    case Receive(_, _, _, _, _) => DepositStepAlone(s, t, home);
    case Return(_, _, _, _, _) => DepositStepAlone(s, t, home);
  }

  lemma StepsAloneIsUnique(s: System, s': System, t: TxId, home: Home)
    requires Unique(s, home) && Inv(s') && StepsAlone(s, s', t, home)
    ensures Unique(s', home)
  {
    OthersStayAlone(s, s', t, home);
  }

  lemma HappenIsUnique(s: System, e: Event, home: Home)
    requires Unique(s, home) && (e.Begin? ==> AtHome(e.calls, home))
    ensures Unique(Happen(s, e), home)
  {
    HappenKeeps(s, e);
    match e
    case Begin(t, calls) => if t !in s.txs { BeginIsAlone(s, t, calls, home); }
    case Statement(t) => if t in s.txs { StepIsUnique(s, t, home); }
    case Abort(t) => EndsAlone(s, t, home); OthersStayAlone(s, End(s, t), t, home);
    case Recatalogue(c) =>
  }

  lemma BeginIsAlone(s: System, t: TxId, calls: seq<Request>, home: Home)
    requires Unique(s, home) && AtHome(calls, home)
    ensures Alone(s.committed, s.locks, t, Tx(calls, Ready, map[], map[], []), home)
  {
    assert View(s.committed, Tx(calls, Ready, map[], map[], [])).reservations == s.committed.reservations;
  }

  lemma {:induction false} ExecIsUnique(s: System, events: seq<Event>, home: Home)
    requires Unique(s, home) && EventsAtHome(events, home)
    ensures Unique(Exec(s, events), home)
    decreases |events|
  {
    if events != [] {
      HappenIsUnique(s, events[0], home);
      ExecIsUnique(Happen(s, events[0]), events[1..], home);
    }
  }

  /**
    When all requests for a source and item name the same warehouse, no interleaving
    commits two reservations for one source and item.
   */
  lemma EveryInterleavingIsUnique(events: seq<Event>, home: Home)
    requires EventsAtHome(events, home)
    ensures OneRowPerSource(Exec(START, events).committed.reservations)
  {
    EmptyIsBalanced();
    ExecIsUnique(START, events, home);
  }
}
