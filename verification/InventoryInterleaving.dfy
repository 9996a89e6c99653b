/**
  Every interleaving keeps the committed tables balanced.

  The invariant speaks of each open transaction's own view of the tables: there the
  balance holds up to the amount of the one statement pair it is in the middle of.
 */
module InventoryInterleaving {
  import opened Wrappers
  import opened InventoryTables
  import opened InventorySpec
  import opened InventoryConcurrency

  // -------------------------------------------------------------- invariant

  /** Reserved quantity already in the stock row but not yet in the reservations. */
  function PendingClaim(tx: Tx, k: StockKey): int {
    match tx.pc
    case Counted =>
      if tx.calls != [] && tx.calls[0].Reserve? && CallKey(tx.calls[0]) == k then tx.calls[0].quantity else 0
    case ReleaseCounted(row) => if row.Key() == k then -row.quantity else 0
    case IssueCounted(row) => if row.Key() == k then -row.quantity else 0
    case IssueLogged(row) => if row.Key() == k then -row.quantity else 0
    case _ => 0
  }

  /** On-hand quantity already in the stock row but not yet in the movement log. */
  function PendingNet(tx: Tx, k: StockKey): int {
    match tx.pc
    case Deposited =>
      if tx.calls != [] && (tx.calls[0].Receive? || tx.calls[0].Return?) && CallKey(tx.calls[0]) == k
      then tx.calls[0].quantity else 0
    case IssueCounted(row) => if row.Key() == k then -row.quantity else 0
    case _ => 0
  }

  ghost predicate ViewBalancedAt(v: Tables, tx: Tx, k: StockKey) {
    var row := StockAt(v.stock, k);
    && row.reserved == Claimed(v.reservations, k) + PendingClaim(tx, k)
    && row.onHand == Net(v.movements, k) + PendingNet(tx, k)
    && 0 <= row.reserved <= row.onHand
  }

  ghost predicate ViewBalanced(v: Tables, tx: Tx) {
    PositiveRows(v.reservations) && forall k :: ViewBalancedAt(v, tx, k)
  }

  /** Whatever a transaction has written, it holds the lock of. */
  ghost predicate WritesLocked(c: Tables, locks: map<Lock, TxId>, t: TxId, tx: Tx) {
    && (forall k :: k in tx.stock ==> Holds(locks, t, StockLock(k)))
    && (forall i :: i in tx.rows ==> i < |c.reservations| && Holds(locks, t, RowLock(i)))
  }

  ghost predicate HeldRow(v: Tables, locks: map<Lock, TxId>, t: TxId, i: nat, row: Reservation) {
    i < |v.reservations| && Holds(locks, t, RowLock(i)) && v.reservations[i] == Some(row) && row.status == RESERVED
  }

  ghost predicate HeldStock(v: Tables, locks: map<Lock, TxId>, t: TxId, k: StockKey, row: StockRow) {
    Holds(locks, t, StockLock(k)) && k in v.stock && v.stock[k] == row
  }

  /** What the statements of the current call that already ran have established. */
  ghost predicate PcOk(v: Tables, locks: map<Lock, TxId>, t: TxId, tx: Tx) {
    && (!tx.pc.Ready? ==> tx.calls != [])
    && match tx.pc
       case Ready => true
       case Looked => Adds(tx.calls[0])
       case Admitted => Adds(tx.calls[0])
       case Ensured => Adds(tx.calls[0]) && CallKey(tx.calls[0]) in v.stock
       case StockLocked(row) => Adds(tx.calls[0]) && tx.calls[0].Reserve?
         && HeldStock(v, locks, t, CallKey(tx.calls[0]), row)
       case LookedAgain(row) => Adds(tx.calls[0]) && tx.calls[0].Reserve?
         && HeldStock(v, locks, t, CallKey(tx.calls[0]), row)
       case Counted => Adds(tx.calls[0]) && tx.calls[0].Reserve?
       case Deposited => Adds(tx.calls[0]) && !tx.calls[0].Reserve?
       case ReleaseLocked(row) => tx.calls[0].Release? && HeldRow(v, locks, t, tx.calls[0].reservation, row)
       case ReleaseCounted(row) => tx.calls[0].Release? && HeldRow(v, locks, t, tx.calls[0].reservation, row)
       case IssueLocked(row) =>
         && tx.calls[0].Fulfil? && row.source.scope == tx.calls[0].scope
         && HeldRow(v, locks, t, tx.calls[0].reservation, row)
       case KeyUnused(row) =>
         && tx.calls[0].Fulfil? && row.source.scope == tx.calls[0].scope
         && HeldRow(v, locks, t, tx.calls[0].reservation, row)
       case IssueCounted(row) =>
         && tx.calls[0].Fulfil? && row.source.scope == tx.calls[0].scope
         && HeldRow(v, locks, t, tx.calls[0].reservation, row)
       case IssueLogged(row) => tx.calls[0].Fulfil? && HeldRow(v, locks, t, tx.calls[0].reservation, row)
  }

  predicate Adds(r: Request) {
    !r.Release? && !r.Fulfil? && r.quantity > 0
  }

  ghost predicate TxOk(c: Tables, locks: map<Lock, TxId>, t: TxId, tx: Tx) {
    && WritesLocked(c, locks, t, tx)
    && ViewBalanced(View(c, tx), tx)
    && PcOk(View(c, tx), locks, t, tx)
  }

  ghost predicate LocksExist(c: Tables, locks: map<Lock, TxId>) {
    forall i: nat :: RowLock(i) in locks ==> i < |c.reservations|
  }

  ghost predicate Inv(s: System) {
    && Balanced(s.committed)
    && LocksExist(s.committed, s.locks)
    && forall t :: t in s.txs ==> TxOk(s.committed, s.locks, t, s.txs[t])
  }

  // ------------------------------------------------------ steps of the frame

  lemma GotoKeeps(s: System, t: TxId, tx: Tx)
    requires Inv(s) && TxOk(s.committed, s.locks, t, tx)
    ensures Inv(Goto(s, t, tx))
  {
  }

  lemma TakeKeeps(s: System, t: TxId, l: Lock, tx: Tx)
    requires Inv(s) && Free(s.locks, t, l) && TxOk(s.committed, s.locks[l := t], t, tx)
    requires l.RowLock? ==> l.row < |s.committed.reservations|
    ensures Inv(Take(s, t, l, tx))
  {
    var s' := Take(s, t, l, tx);
    forall u | u in s'.txs ensures TxOk(s'.committed, s'.locks, u, s'.txs[u]) {
      if u != t {
        OthersKeepLocks(s.committed, s.locks, s'.locks, u, s.txs[u]);
      }
    }
  }

  lemma OthersKeepLocks(c: Tables, locks: map<Lock, TxId>, locks': map<Lock, TxId>, u: TxId, tx: Tx)
    requires TxOk(c, locks, u, tx)
    requires forall l :: Holds(locks, u, l) ==> Holds(locks', u, l)
    ensures TxOk(c, locks', u, tx)
  {
  }

  lemma EndKeeps(s: System, t: TxId)
    requires Inv(s)
    ensures Inv(End(s, t))
  {
    var s' := End(s, t);
    forall u | u in s'.txs ensures TxOk(s'.committed, s'.locks, u, s'.txs[u]) {
      OthersKeepLocks(s.committed, s.locks, s'.locks, u, s.txs[u]);
    }
  }

  // ------------------------------------------------------- commits of others

  ghost predicate Apart(a: Tx, b: Tx) {
    && (forall k :: k in a.stock ==> k !in b.stock)
    && (forall i :: i in a.rows ==> i !in b.rows)
  }

  lemma LocksKeepApart(c: Tables, locks: map<Lock, TxId>, t: TxId, a: Tx, u: TxId, b: Tx)
    requires t != u && WritesLocked(c, locks, t, a) && WritesLocked(c, locks, u, b)
    ensures Apart(a, b)
  {
    forall k | k in a.stock ensures k !in b.stock {
      assert Holds(locks, t, StockLock(k));
    }
    forall i | i in a.rows ensures i !in b.rows {
      assert Holds(locks, t, RowLock(i));
    }
  }

  /** Disjoint sets of written rows shift a sum independently. */
  lemma {:induction false} ClaimedApart(
    rows: seq<Option<Reservation>>, a: map<nat, Reservation>, b: map<nat, Reservation>, k: StockKey)
    requires forall i :: i in a ==> i !in b
    ensures Claimed(ViewRows(ViewRows(rows, a), b), k) - Claimed(ViewRows(rows, a), k)
         == Claimed(ViewRows(rows, b), k) - Claimed(rows, k)
  {
    if rows != [] {
      var n := |rows| - 1;
      ClaimedApart(rows[..n], a, b, k);
      assert ViewRows(rows, a)[..n] == ViewRows(rows[..n], a);
      assert ViewRows(rows, b)[..n] == ViewRows(rows[..n], b);
      assert ViewRows(ViewRows(rows, a), b)[..n] == ViewRows(ViewRows(rows[..n], a), b);
    }
  }

  /** Another transaction's view stays balanced when `a` commits. */
  lemma CommitKeepsViewAt(c: Tables, a: Tx, b: Tx, k: StockKey)
    requires Apart(a, b) && a.pc == Ready
    requires BalancedAt(c, k) && ViewBalancedAt(View(c, a), a, k) && ViewBalancedAt(View(c, b), b, k)
    ensures ViewBalancedAt(View(View(c, a), b), b, k)
  {
    ClaimedApart(c.reservations, a.rows, b.rows, k);
    NetConcat(c.movements, a.log, k);
    NetConcat(c.movements, b.log, k);
    NetConcat(c.movements + a.log, b.log, k);
  }

  lemma CommitKeepsOther(c: Tables, locks: map<Lock, TxId>, t: TxId, a: Tx, u: TxId, b: Tx)
    requires t != u && Balanced(c) && TxOk(c, locks, t, a) && TxOk(c, locks, u, b) && a.pc == Ready
    ensures TxOk(View(c, a), locks, u, b)
  {
    LocksKeepApart(c, locks, t, a, u, b);
    var v, v' := View(c, b), View(View(c, a), b);
    forall k ensures ViewBalancedAt(v', b, k) {
      assert BalancedAt(c, k) && ViewBalancedAt(View(c, a), a, k) && ViewBalancedAt(v, b, k);
      CommitKeepsViewAt(c, a, b, k);
    }
    CommitKeepsPc(c, locks, t, a, u, b);
  }

  lemma CommitKeepsPc(c: Tables, locks: map<Lock, TxId>, t: TxId, a: Tx, u: TxId, b: Tx)
    requires t != u && WritesLocked(c, locks, t, a) && PcOk(View(c, b), locks, u, b)
    ensures PcOk(View(View(c, a), b), locks, u, b)
  {
    var v, v' := View(c, b), View(View(c, a), b);
    assert forall k :: k in v.stock ==> k in v'.stock;
    assert forall k :: Holds(locks, u, StockLock(k)) && k in v.stock ==> v'.stock[k] == v.stock[k];
    assert forall i: nat :: Holds(locks, u, RowLock(i)) && i < |v.reservations| ==>
      v'.reservations[i] == v.reservations[i];
  }

  lemma CommitKeeps(s: System, t: TxId)
    requires Inv(s) && t in s.txs && s.txs[t].pc == Ready
    ensures Inv(Commit(s, t))
  {
    var c, tx := s.committed, s.txs[t];
    var s' := s.(committed := View(c, tx), txs := s.txs - {t});
    assert Balanced(s'.committed) by {
      forall k ensures BalancedAt(s'.committed, k) {
        assert ViewBalancedAt(View(c, tx), tx, k);
      }
    }
    forall u | u in s'.txs ensures TxOk(s'.committed, s'.locks, u, s'.txs[u]) {
      CommitKeepsOther(c, s.locks, t, tx, u, s.txs[u]);
    }
    EndKeeps(s', t);
    assert End(s', t) == Commit(s, t);
  }

  // ------------------------------------------------------ inserts of others

  lemma InsertKeepsOther(c: Tables, locks: map<Lock, TxId>, u: TxId, b: Tx)
    requires TxOk(c, locks, u, b)
    ensures TxOk(c.(reservations := c.reservations + [None]), locks, u, b)
  {
    var c' := c.(reservations := c.reservations + [None]);
    var v, v' := View(c, b), View(c', b);
    assert v'.reservations == v.reservations + [None] && v'.stock == v.stock && v'.movements == v.movements;
    forall k ensures ViewBalancedAt(v', b, k) {
      assert ViewBalancedAt(v, b, k);
      ClaimedAppend(v.reservations, None, k);
    }
  }

  lemma InsertKeepsBalance(c: Tables)
    requires Balanced(c)
    ensures Balanced(c.(reservations := c.reservations + [None]))
  {
    forall k ensures BalancedAt(c.(reservations := c.reservations + [None]), k) {
      assert BalancedAt(c, k);
      ClaimedAppend(c.reservations, None, k);
    }
  }
}
