/**
  Concurrent inventory transactions at the grain of SQL statements.

  A transaction runs a list of calls and commits at the end.  Its reads see committed
  rows and its own writes; an UPDATE, an INSERT and a SELECT ... FOR UPDATE take the
  row's lock and keep it until the transaction ends; a statement that needs a lock
  someone else holds waits, which here means that its step changes nothing.
 */
module InventoryConcurrency {
  import opened Wrappers
  import opened InventoryTables
  import opened InventorySpec

  type TxId = nat

  /** The last kind stands for the unique index on operation keys: an inserted key not yet committed. */
  datatype Lock = StockLock(key: StockKey) | RowLock(row: nat)
    | KeyLock(tenant: Uuid, branch: Uuid, operation: OperationKey)

  /** Where a transaction stands inside its current call: the last statement it ran. */
  datatype Pc =
    | Ready                               // between calls
    | Looked                              // the first lookup found nothing
    | Admitted                            // warehouse and item are active
    | Ensured                             // the stock row exists
    | StockLocked(row: StockRow)          // reserve: SELECT ... FOR UPDATE on the stock row
    | LookedAgain(row: StockRow)          // reserve: the second lookup found nothing
    | Counted                             // reserve: stock updated, row not yet inserted
    | Deposited                           // receive, return: stock updated, movement not yet inserted
    | ReleaseLocked(held: Reservation)    // release: the row is locked and RESERVED
    | ReleaseCounted(held: Reservation)   // release: stock updated, row not yet RELEASED
    | IssueLocked(held: Reservation)      // fulfil: the row is locked and RESERVED
    | KeyUnused(held: Reservation)        // fulfil: no movement has the operation key
    | IssueCounted(held: Reservation)     // fulfil: stock updated, movement not yet inserted
    | IssueLogged(held: Reservation)      // fulfil: movement inserted, row not yet FULFILLED

  datatype Tx = Tx(
    calls: seq<Request>, pc: Pc,
    stock: map<StockKey, StockRow>, rows: map<nat, Reservation>, log: seq<Movement>)

  datatype System = System(
    committed: Tables, catalogue: Catalogue, txs: map<TxId, Tx>, locks: map<Lock, TxId>)

  const START := System(EMPTY, Catalogue({}, {}), map[], map[])

  datatype Event =
    | Begin(tx: TxId, calls: seq<Request>)
    | Statement(tx: TxId)
    | Abort(tx: TxId)
    | Recatalogue(catalogue: Catalogue)

  // ------------------------------------------------------------------ views

  function ViewRows(rows: seq<Option<Reservation>>, own: map<nat, Reservation>): (v: seq<Option<Reservation>>)
    ensures |v| == |rows|
    ensures forall i :: 0 <= i < |v| ==> v[i] == if i in own then Some(own[i]) else rows[i]
  {
    seq(|rows|, i requires 0 <= i < |rows| => if i in own then Some(own[i]) else rows[i])
  }

  function View(c: Tables, tx: Tx): Tables {
    Tables(c.stock + tx.stock, ViewRows(c.reservations, tx.rows), c.movements + tx.log)
  }

  predicate Free(locks: map<Lock, TxId>, t: TxId, l: Lock) {
    l in locks ==> locks[l] == t
  }

  predicate Holds(locks: map<Lock, TxId>, t: TxId, l: Lock) {
    l in locks && locks[l] == t
  }

  function CallKey(r: Request): StockKey
    requires !r.Release? && !r.Fulfil?
  {
    if r.Reserve? then StockKey(r.source.scope.tenant, r.warehouse, r.item)
    else StockKey(r.scope.tenant, r.warehouse, r.item)
  }

  // ------------------------------------------------------------------ steps

  function Goto(s: System, t: TxId, tx: Tx): System {
    s.(txs := s.txs[t := tx])
  }

  function Take(s: System, t: TxId, l: Lock, tx: Tx): System {
    s.(txs := s.txs[t := tx], locks := s.locks[l := t])
  }

  /** The transaction is over and its locks are free; uncommitted writes are gone. */
  function End(s: System, t: TxId): System {
    s.(txs := s.txs - {t}, locks := map l | l in s.locks && s.locks[l] != t :: s.locks[l])
  }

  function Commit(s: System, t: TxId): System
    requires t in s.txs
  {
    End(s.(committed := View(s.committed, s.txs[t])), t)
  }

  function Finished(tx: Tx): Tx
    requires tx.calls != []
  {
    tx.(calls := tx.calls[1..], pc := Ready)
  }

  /** One statement of transaction `t`; a throw ends the transaction without a commit. */
  function Step(s: System, t: TxId): System
    requires t in s.txs
  {
    var tx := s.txs[t];
    if tx.calls == [] then Commit(s, t)
    else
      match tx.calls[0]
      case Reserve(_, _, _, _) => ReserveStep(s, t, tx)
      case Release(_, _) => ReleaseStep(s, t, tx)
      case Fulfil(_, _, _) => FulfilStep(s, t, tx)
      case Receive(_, _, _, _, _) => DepositStep(s, t, tx)
      case Return(_, _, _, _, _) => DepositStep(s, t, tx)
  }

  function AdmitStep(s: System, t: TxId, tx: Tx, k: StockKey): System {
    if CheckCatalogue(s.catalogue, k.tenant, k.warehouse, k.item).Some? then End(s, t)
    else Goto(s, t, tx.(pc := Admitted))
  }

  function EnsureStep(s: System, t: TxId, tx: Tx, k: StockKey): System {
    if k in View(s.committed, tx).stock then Goto(s, t, tx.(pc := Ensured))
    else if !Free(s.locks, t, StockLock(k)) then s
    else Take(s, t, StockLock(k), tx.(pc := Ensured, stock := tx.stock[k := StockRow(0, 0)]))
  }

  function ReserveStep(s: System, t: TxId, tx: Tx): System
    requires tx.calls != [] && tx.calls[0].Reserve?
  {
    var r := tx.calls[0];
    var k := CallKey(r);
    var v := View(s.committed, tx);
    match tx.pc
    case Ready =>
      if r.quantity <= 0 then End(s, t)
      else PriorStep(s, t, tx, Looked)
    case Looked => AdmitStep(s, t, tx, k)
    case Admitted => EnsureStep(s, t, tx, k)
    case Ensured =>
      if !Free(s.locks, t, StockLock(k)) then s
      else if k !in v.stock then End(s, t)
      else Take(s, t, StockLock(k), tx.(pc := StockLocked(v.stock[k])))
    case StockLocked(row) => PriorStep(s, t, tx, LookedAgain(row))
    case LookedAgain(row) =>
      if row.onHand - row.reserved < r.quantity then End(s, t)
      else if k !in v.stock then Goto(s, t, tx.(pc := Counted))
      else if !Free(s.locks, t, StockLock(k)) then s
      else
        var now := v.stock[k];
        Take(s, t, StockLock(k),
             tx.(pc := Counted, stock := tx.stock[k := now.(reserved := now.reserved + r.quantity)]))
    case Counted =>
      var n := |s.committed.reservations|;
      var tx' := Finished(tx.(rows := tx.rows[n := Reservation(r.source, r.warehouse, r.item, r.quantity, RESERVED)]));
      Take(s.(committed := s.committed.(reservations := s.committed.reservations + [None])), t, RowLock(n), tx')
    case _ => s
  }

  /** The lookup by source and item, first or second. */
  function PriorStep(s: System, t: TxId, tx: Tx, absent: Pc): System
    requires tx.calls != [] && tx.calls[0].Reserve?
  {
    var r := tx.calls[0];
    var v := View(s.committed, tx);
    var prior := FindReservation(v.reservations, r.source, r.item);
    if prior.None? then Goto(s, t, tx.(pc := absent))
    else if v.reservations[prior.value].value.quantity != r.quantity then End(s, t)
    else Goto(s, t, Finished(tx))
  }

  function ReleaseStep(s: System, t: TxId, tx: Tx): System
    requires tx.calls != [] && tx.calls[0].Release?
  {
    var r := tx.calls[0];
    var i := r.reservation;
    var v := View(s.committed, tx);
    match tx.pc
    case Ready =>
      if !Free(s.locks, t, RowLock(i)) then s
      else if !Visible(v, r.scope, i) then End(s, t)
      else
        var row := v.reservations[i].value;
        if row.status == RELEASED then Take(s, t, RowLock(i), Finished(tx))
        else if row.status == FULFILLED then End(s, t)
        else Take(s, t, RowLock(i), tx.(pc := ReleaseLocked(row)))
    case ReleaseLocked(row) =>
      var k := row.Key();
      if k !in v.stock then Goto(s, t, tx.(pc := ReleaseCounted(row)))
      else if !Free(s.locks, t, StockLock(k)) then s
      else
        var now := v.stock[k];
        Take(s, t, StockLock(k),
             tx.(pc := ReleaseCounted(row), stock := tx.stock[k := now.(reserved := now.reserved - row.quantity)]))
    case ReleaseCounted(row) =>
      Take(s, t, RowLock(i), Finished(tx.(rows := tx.rows[i := row.(status := RELEASED)])))
    case _ => s
  }

  /** The guard of the stock update looks at the row before the update waits for its lock. */
  function FulfilStep(s: System, t: TxId, tx: Tx): System
    requires tx.calls != [] && tx.calls[0].Fulfil?
  {
    var r := tx.calls[0];
    var i := r.reservation;
    var v := View(s.committed, tx);
    match tx.pc
    case Ready =>
      if !Free(s.locks, t, RowLock(i)) then s
      else if !Visible(v, r.scope, i) then End(s, t)
      else
        var row := v.reservations[i].value;
        if row.status == FULFILLED then Take(s, t, RowLock(i), Finished(tx))
        else if row.status == RELEASED then End(s, t)
        else Take(s, t, RowLock(i), tx.(pc := IssueLocked(row)))
    case IssueLocked(row) =>
      if FindMovement(v.movements, r.scope, r.key).Some? then Goto(s, t, Finished(tx))
      else Goto(s, t, tx.(pc := KeyUnused(row)))
    case KeyUnused(row) =>
      var k := row.Key();
      if k !in v.stock || v.stock[k].onHand < row.quantity || v.stock[k].reserved < row.quantity then End(s, t)
      else if !Free(s.locks, t, StockLock(k)) then s
      else
        var now := v.stock[k];
        Take(s, t, StockLock(k),
             tx.(pc := IssueCounted(row),
                 stock := tx.stock[k := StockRow(now.onHand - row.quantity, now.reserved - row.quantity)]))
    case IssueCounted(row) =>
      LogStep(s, t, tx, IssueMovement(r, row), IssueLogged(row), tx.calls)
    case IssueLogged(row) =>
      Take(s, t, RowLock(i), Finished(tx.(rows := tx.rows[i := row.(status := FULFILLED)])))
    case _ => s
  }

  function DepositStep(s: System, t: TxId, tx: Tx): System
    requires tx.calls != [] && (tx.calls[0].Receive? || tx.calls[0].Return?)
  {
    var r := tx.calls[0];
    var k := CallKey(r);
    var v := View(s.committed, tx);
    match tx.pc
    case Ready =>
      if r.quantity <= 0 then End(s, t)
      else if FindMovement(v.movements, r.scope, r.key).None? then Goto(s, t, tx.(pc := Looked))
      else if r.Receive? && k !in v.stock then End(s, t)
      else Goto(s, t, Finished(tx))
    case Looked => AdmitStep(s, t, tx, k)
    case Admitted => EnsureStep(s, t, tx, k)
    case Ensured =>
      if k !in v.stock then Goto(s, t, tx.(pc := Deposited))
      else if !Free(s.locks, t, StockLock(k)) then s
      else
        var now := v.stock[k];
        Take(s, t, StockLock(k),
             tx.(pc := Deposited, stock := tx.stock[k := now.(onHand := now.onHand + r.quantity)]))
    case Deposited =>
      LogStep(s, t, tx, DepositMovement(r), Ready, tx.calls[1..])
    case _ => s
  }

  /**
    The INSERT of a movement: it waits while another transaction has inserted the operation key
    and not finished, and throws when the key is there.
   */
  function LogStep(s: System, t: TxId, tx: Tx, m: Movement, pc: Pc, calls: seq<Request>): System {
    if !Free(s.locks, t, KeyLockOf(m)) then s
    else if FindMovement(View(s.committed, tx).movements, m.scope, m.key).Some? then End(s, t)
    else Take(s, t, KeyLockOf(m), Logged(tx, m, pc, calls))
  }

  function KeyLockOf(m: Movement): Lock { KeyLock(m.scope.tenant, m.scope.branch, m.key) }

  function Logged(tx: Tx, m: Movement, pc: Pc, calls: seq<Request>): Tx {
    tx.(calls := calls, pc := pc, log := tx.log + [m])
  }

  function IssueMovement(r: Request, row: Reservation): Movement
    requires r.Fulfil?
  {
    Movement(r.scope, row.warehouse, row.item, ISSUE, row.quantity, r.key)
  }

  function DepositMovement(r: Request): Movement
    requires r.Receive? || r.Return?
  {
    Movement(r.scope, r.warehouse, r.item, if r.Receive? then RECEIPT else RETURN, r.quantity, r.key)
  }

  function Happen(s: System, e: Event): System {
    match e
    case Begin(t, calls) => if t in s.txs then s else Goto(s, t, Tx(calls, Ready, map[], map[], []))
    case Statement(t) => if t in s.txs then Step(s, t) else s
    case Abort(t) => if t in s.txs then End(s, t) else s
    case Recatalogue(c) => s.(catalogue := c)
  }

  /** Any interleaving: events in any order from any number of transactions. */
  function Exec(s: System, events: seq<Event>): System
    decreases |events|
  {
    if events == [] then s else Exec(Happen(s, events[0]), events[1..])
  }
}
