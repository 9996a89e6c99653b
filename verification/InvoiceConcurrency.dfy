/**
  Invoice transitions that overlap, statement by statement.  The status is read without a lock;
  the updates of an issue match a draft only, the last update matches a version only.
 */
module InvoiceConcurrency {
  import opened Wrappers
  import opened Commercial
  import opened InvoiceIssue

  type TxId = nat

  /** Where a transition stands; the row is the invoice as first read. */
  datatype Pc =
    | Waiting
    | Seen(row: Invoice)
    | Snapshotted
    | Submitted
    | Marked
    | Moved

  /** The row and the posting are this transaction's own, unseen by others until it commits. */
  datatype Tx = Tx(
    scope: Scope, id: nat, idText: string, to: InvoiceStatus, expected: int, tax: Option<TaxResult>,
    pc: Pc, row: Option<Invoice>, posting: Option<Posting>)

  /** `locks` says who holds an invoice row; `served` lists what was committed, in commit order. */
  datatype System = System(books: Books, locks: map<nat, TxId>, txs: map<TxId, Tx>, served: seq<Action>)

  const NO_BOOKS := Books([], map[])
  const START := System(NO_BOOKS, map[], map[], [])

  datatype Event =
    | Begin(t: TxId, scope: Scope, id: nat, idText: string, to: InvoiceStatus, expected: int)
    | Next(t: TxId, tax: Option<TaxResult>)
    | Abort(t: TxId)
    | Other(action: Action)

  // ------------------------------------------------------------------ steps

  predicate Free(s: System, t: TxId, id: nat) { id in s.locks ==> s.locks[id] == t }

  predicate Holds(s: System, t: TxId, id: nat) { id in s.locks && s.locks[id] == t }

  function Held(s: System, t: TxId): set<nat> { set id | id in s.locks && s.locks[id] == t }

  function With(s: System, t: TxId, tx: Tx): System { s.(txs := s.txs[t := tx]) }

  /** The transaction is over, and so are its locks. */
  function End(s: System, t: TxId): System {
    s.(txs := s.txs - {t}, locks := map id | id in s.locks && s.locks[id] != t :: s.locks[id])
  }

  /** An update of the invoice row, which it locks. */
  function Write(s: System, t: TxId, tx: Tx, pc: Pc, row: Invoice): System {
    s.(txs := s.txs[t := tx.(pc := pc, row := Some(row))], locks := s.locks[tx.id := t])
  }

  /** The row as this transaction sees it now. */
  function Now(s: System, tx: Tx): Invoice
    requires tx.id < |s.books.invoices|
  {
    if tx.row.Some? then tx.row.value else s.books.invoices[tx.id]
  }

  function LookStep(s: System, t: TxId, tx: Tx): System {
    if tx.expected < 1 || !Visible(s.books, tx.scope, tx.id) || !Moves(s.books.invoices[tx.id].status, tx.to) then
      End(s, t)
    else With(s, t, tx.(pc := Seen(s.books.invoices[tx.id])))
  }

  predicate Usable(tax: Option<TaxResult>) { tax.Some? && tax.value.reference != "" && Storable(tax.value) }

  function Snapshotting(row: Invoice, tax: TaxResult): Invoice {
    row.(snapshot := Some(Stored(tax)), version := row.version + 1)
  }

  function SnapshotStep(s: System, t: TxId, tx: Tx, tax: Option<TaxResult>): System
    requires tx.id < |s.books.invoices|
  {
    if !Usable(tax) then End(s, t)
    else if !Free(s, t, tx.id) then s
    else if Now(s, tx).status != DRAFT then End(s, t)
    else Write(s, t, tx.(tax := tax), Snapshotted, Snapshotting(Now(s, tx), tax.value))
  }

  /** The posting's key names the invoice, so the row's lock keeps every other posting under it away. */
  function SubmitStep(s: System, t: TxId, tx: Tx): System
    requires tx.tax.Some?
  {
    var posted := Post(s.books.postings, tx.scope, InvoiceKey(tx.id), WantedPosting(tx.id, tx.idText, tx.tax.value)).1;
    if posted.None? then End(s, t) else With(s, t, tx.(pc := Submitted, posting := posted))
  }

  function Marking(row: Invoice, reference: string): Invoice {
    row.(financeReference := Some(reference), version := row.version + 1)
  }

  function MarkStep(s: System, t: TxId, tx: Tx): System
    requires tx.id < |s.books.invoices| && tx.posting.Some?
  {
    if !Free(s, t, tx.id) then s
    else if Now(s, tx).status != DRAFT then End(s, t)
    else Write(s, t, tx, Marked, Marking(Now(s, tx), tx.posting.value.reference))
  }

  function Moving(row: Invoice, to: InvoiceStatus): Invoice { row.(status := to, version := row.version + 1) }

  function ExpectedNow(tx: Tx): int { if tx.to == ISSUED then tx.expected + 2 else tx.expected }

  /** The last update asks for the version alone, whatever the status. */
  function MoveStep(s: System, t: TxId, tx: Tx): System
    requires tx.id < |s.books.invoices|
  {
    if !Free(s, t, tx.id) then s
    else if Now(s, tx).version != ExpectedNow(tx) then End(s, t)
    else Write(s, t, tx, Moved, Moving(Now(s, tx), tx.to))
  }

  function Written(b: Books, tx: Tx): Books
    requires tx.id < |b.invoices|
  {
    Books(if tx.row.Some? then b.invoices[tx.id := tx.row.value] else b.invoices,
          if tx.posting.Some? then b.postings[(tx.scope, InvoiceKey(tx.id)) := tx.posting.value] else b.postings)
  }

  function Call(tx: Tx): Action { Move(tx.scope, tx.id, tx.idText, tx.to, tx.expected, tx.tax) }

  function CommitStep(s: System, t: TxId, tx: Tx): System
    requires tx.id < |s.books.invoices|
  {
    End(s.(books := Written(s.books, tx), served := s.served + [Call(tx)]), t)
  }

  function NextStep(s: System, t: TxId, tax: Option<TaxResult>): System
    requires t in s.txs
  {
    var tx := s.txs[t];
    if tx.pc.Waiting? then LookStep(s, t, tx)
    else if tx.id >= |s.books.invoices| then s
    else
      match tx.pc
      case Seen(_) => if tx.to == ISSUED then SnapshotStep(s, t, tx, tax) else MoveStep(s, t, tx)
      case Snapshotted => if tx.tax.Some? then SubmitStep(s, t, tx) else s
      case Submitted => if tx.posting.Some? then MarkStep(s, t, tx) else s
      case Marked => MoveStep(s, t, tx)
      case Moved => CommitStep(s, t, tx)
  }

  /** Creations, edits and credit notes are one step each; an edit waits for the row. */
  function OtherStep(s: System, a: Action): System {
    match a
    case Move(_, _, _, _, _, _) => s
    case Edit(_, id, _, _) => if id in s.locks then s else s.(books := Act(s.books, a), served := s.served + [a])
    case _ => s.(books := Act(s.books, a), served := s.served + [a])
  }

  function Happen(s: System, e: Event): System {
    match e
    case Begin(t, scope, id, text, to, expected) =>
      if t in s.txs then s else With(s, t, Tx(scope, id, text, to, expected, None, Waiting, None, None))
    case Next(t, tax) => if t in s.txs then NextStep(s, t, tax) else s
    case Abort(t) => if t in s.txs then End(s, t) else s
    case Other(a) => OtherStep(s, a)
  }

  function Exec(s: System, events: seq<Event>): System
    decreases |events|
  {
    if events == [] then s else Exec(Happen(s, events[0]), events[1..])
  }

  // -------------------------------------------------------------- conditions

  /** A cancellation's expected version is at most the version it reads. */
  ghost predicate Timely(s: System, e: Event) {
    e.Next? && e.t in s.txs && s.txs[e.t].pc.Waiting? && s.txs[e.t].to == CANCELLED
    && Visible(s.books, s.txs[e.t].scope, s.txs[e.t].id) ==>
      s.txs[e.t].expected <= s.books.invoices[s.txs[e.t].id].version
  }

  /** The tax is that of the invoice as read, and line totals have four decimals. */
  ghost predicate Sound(s: System, e: Event) {
    match e
    case Next(t, tax) =>
      t in s.txs && s.txs[t].pc.Seen? && tax.Some? ==> tax.value.taxable == Taxable(s.txs[t].pc.row.lineTotals)
    case Other(a) => !a.Move? ==> Admissible(s.books, a)
    case _ => true
  }

  ghost predicate TimelyRun(s: System, events: seq<Event>)
    decreases |events|
  {
    events != [] ==> Timely(s, events[0]) && Sound(s, events[0]) && TimelyRun(Happen(s, events[0]), events[1..])
  }

  // --------------------------------------------------------------- invariant

  /** An invoice never goes back: its version grows with every change. */
  predicate Later(i: Invoice, j: Invoice) {
    && i.version <= j.version && (i.version == j.version ==> j == i)
    && j.scope == i.scope && j.lineTotals == i.lineTotals
  }

  /** The committed row a transition at work will change: its own draft. */
  predicate Draft(b: Books, tx: Tx) {
    && Visible(b, tx.scope, tx.id) && b.invoices[tx.id].status == DRAFT && tx.expected >= 1
  }

  predicate Issuing(b: Books, tx: Tx) {
    && tx.to == ISSUED && Draft(b, tx) && Usable(tx.tax)
    && tx.tax.value.taxable == Taxable(b.invoices[tx.id].lineTotals)
  }

  predicate PostingMade(b: Books, tx: Tx)
    requires tx.tax.Some?
  {
    && tx.posting.Some?
    && Post(b.postings, tx.scope, InvoiceKey(tx.id), WantedPosting(tx.id, tx.idText, tx.tax.value)).1 == tx.posting
  }

  function MarkedRow(b: Books, tx: Tx): Invoice
    requires Issuing(b, tx) && tx.posting.Some?
  {
    Marking(Snapshotting(b.invoices[tx.id], tx.tax.value), tx.posting.value.reference)
  }

  /** What the statements already run have established, seen from the committed books. */
  ghost predicate Knows(s: System, t: TxId, tx: Tx) {
    && (tx.row.Some? ==> Holds(s, t, tx.id))
    && match tx.pc
       case Waiting => tx.row.None? && tx.posting.None? && tx.tax.None?
       case Seen(row) =>
         && tx.row.None? && tx.posting.None? && tx.tax.None? && tx.expected >= 1 && Moves(row.status, tx.to)
         && (tx.to == CANCELLED ==> tx.expected <= row.version)
         && Visible(s.books, tx.scope, tx.id) && Later(row, s.books.invoices[tx.id])
       case Snapshotted =>
         && Issuing(s.books, tx) && tx.posting.None?
         && tx.row == Some(Snapshotting(s.books.invoices[tx.id], tx.tax.value))
       case Submitted =>
         && Issuing(s.books, tx) && PostingMade(s.books, tx)
         && tx.row == Some(Snapshotting(s.books.invoices[tx.id], tx.tax.value))
       case Marked =>
         && Issuing(s.books, tx) && PostingMade(s.books, tx) && tx.row == Some(MarkedRow(s.books, tx))
       case Moved =>
         && Draft(s.books, tx) && s.books.invoices[tx.id].version == tx.expected
         && if tx.to == ISSUED
            then
              && Issuing(s.books, tx) && PostingMade(s.books, tx)
              && tx.row == Some(Moving(MarkedRow(s.books, tx), ISSUED))
            else
              && tx.to == CANCELLED && tx.tax.None? && tx.posting.None?
              && tx.row == Some(Moving(s.books.invoices[tx.id], CANCELLED))
  }

  ghost predicate Inv(s: System) {
    && BooksOk(s.books)
    && s.books == Run(NO_BOOKS, s.served)
    && forall t :: t in s.txs ==> Knows(s, t, s.txs[t])
  }

  // ---------------------------------------------------------------- one step

  /** What other transactions rely on: their own row, the postings under its key, and that rows only get later. */
  ghost predicate Kept(b: Books, b': Books, held: set<nat>) {
    && |b.invoices| <= |b'.invoices|
    && (forall id :: 0 <= id < |b.invoices| ==> Later(b.invoices[id], b'.invoices[id]))
    && (forall id :: 0 <= id < |b.invoices| && id in held ==>
        b'.invoices[id] == b.invoices[id] && SamePosting(b, b', id))
  }

  predicate SamePosting(b: Books, b': Books, id: nat)
    requires id < |b.invoices|
  {
    var k := (b.invoices[id].scope, InvoiceKey(id));
    (k in b'.postings <==> k in b.postings) && (k in b.postings ==> b'.postings[k] == b.postings[k])
  }

  lemma SamePost(b: Books, b': Books, tx: Tx)
    requires Issuing(b, tx) && Issuing(b', tx) && SamePosting(b, b', tx.id)
    ensures PostingMade(b', tx) <==> PostingMade(b, tx)
  {
  }

  lemma KeptKnows(s: System, s': System, t: TxId, tx: Tx)
    requires Knows(s, t, tx) && Kept(s.books, s'.books, Held(s, t))
    requires forall id :: Holds(s, t, id) ==> Holds(s', t, id)
    ensures Knows(s', t, tx)
  {
    if tx.row.Some? {
      assert Holds(s, t, tx.id);
      if tx.pc.Submitted? || tx.pc.Marked? || (tx.pc.Moved? && tx.to == ISSUED) {
        SamePost(s.books, s'.books, tx);
      }
    }
  }

  lemma OthersKnow(s: System, s': System, t: TxId)
    requires Inv(s) && s'.books == s.books
    requires forall u :: u in s'.txs && u != t ==> u in s.txs && s'.txs[u] == s.txs[u]
    requires forall u, id :: u != t && Holds(s, u, id) ==> Holds(s', u, id)
    ensures forall u :: u in s'.txs && u != t ==> Knows(s', u, s'.txs[u])
  {
    forall u | u in s'.txs && u != t ensures Knows(s', u, s'.txs[u]) {
      KeptKnows(s, s', u, s.txs[u]);
    }
  }

  lemma EndKeeps(s: System, t: TxId)
    requires Inv(s)
    ensures Inv(End(s, t))
  {
    OthersKnow(s, End(s, t), t);
  }

  lemma WithKeeps(s: System, t: TxId, tx: Tx)
    requires Inv(s) && Knows(s, t, tx)
    ensures Inv(With(s, t, tx))
  {
    var s' := With(s, t, tx);
    OthersKnow(s, s', t);
    KeptKnows(s, s', t, tx);
  }

  lemma WriteKeeps(s: System, t: TxId, tx: Tx, pc: Pc, row: Invoice)
    requires Inv(s) && Free(s, t, tx.id)
    requires Knows(s.(locks := s.locks[tx.id := t]), t, tx.(pc := pc, row := Some(row)))
    ensures Inv(Write(s, t, tx, pc, row))
  {
    var s' := Write(s, t, tx, pc, row);
    OthersKnow(s, s', t);
    KeptKnows(s.(locks := s.locks[tx.id := t]), s', t, tx.(pc := pc, row := Some(row)));
  }

  lemma LookKeeps(s: System, t: TxId)
    requires Inv(s) && t in s.txs && s.txs[t].pc.Waiting?
    requires s.txs[t].to == CANCELLED && Visible(s.books, s.txs[t].scope, s.txs[t].id) ==>
      s.txs[t].expected <= s.books.invoices[s.txs[t].id].version
    ensures Inv(LookStep(s, t, s.txs[t]))
  {
    var tx := s.txs[t];
    EndKeeps(s, t);
    if tx.expected >= 1 && Visible(s.books, tx.scope, tx.id) && Moves(s.books.invoices[tx.id].status, tx.to) {
      WithKeeps(s, t, tx.(pc := Seen(s.books.invoices[tx.id])));
    }
  }

  lemma SnapshotKeeps(s: System, t: TxId, tax: Option<TaxResult>)
    requires Inv(s) && t in s.txs && s.txs[t].pc.Seen? && s.txs[t].to == ISSUED
    requires tax.Some? ==> tax.value.taxable == Taxable(s.txs[t].pc.row.lineTotals)
    ensures Inv(NextStep(s, t, tax))
  {
    var tx := s.txs[t];
    EndKeeps(s, t);
    assert Knows(s, t, tx);
    if Usable(tax) && Free(s, t, tx.id) && Now(s, tx).status == DRAFT {
      WriteKeeps(s, t, tx.(tax := tax), Snapshotted, Snapshotting(Now(s, tx), tax.value));
    }
  }

  lemma SubmitKeeps(s: System, t: TxId, tax: Option<TaxResult>)
    requires Inv(s) && t in s.txs && s.txs[t].pc == Snapshotted
    ensures Inv(NextStep(s, t, tax))
  {
    var tx := s.txs[t];
    EndKeeps(s, t);
    assert Knows(s, t, tx);
    var posted := Post(s.books.postings, tx.scope, InvoiceKey(tx.id), WantedPosting(tx.id, tx.idText, tx.tax.value)).1;
    if posted.Some? {
      WithKeeps(s, t, tx.(pc := Submitted, posting := posted));
    }
  }

  lemma MarkKeeps(s: System, t: TxId, tax: Option<TaxResult>)
    requires Inv(s) && t in s.txs && s.txs[t].pc == Submitted
    ensures Inv(NextStep(s, t, tax))
  {
    var tx := s.txs[t];
    assert Knows(s, t, tx);
    WriteKeeps(s, t, tx, Marked, MarkedRow(s.books, tx));
  }

  /**
    The version asked for is the one read, so the row is still the draft read; an issue has locked
    its draft before.
   */
  lemma MoveKeeps(s: System, t: TxId, tax: Option<TaxResult>)
    requires Inv(s) && t in s.txs && (s.txs[t].pc == Marked || (s.txs[t].pc.Seen? && s.txs[t].to != ISSUED))
    ensures Inv(NextStep(s, t, tax))
  {
    var tx := s.txs[t];
    EndKeeps(s, t);
    assert Knows(s, t, tx);
    if Free(s, t, tx.id) && Now(s, tx).version == ExpectedNow(tx) {
      WriteKeeps(s, t, tx, Moved, Moving(Now(s, tx), tx.to));
    }
  }

  // ---------------------------------------------------------------- commits

  lemma PostsAgain(b: Books, tx: Tx)
    requires BooksOk(b) && Issuing(b, tx) && PostingMade(b, tx)
    ensures Post(b.postings, tx.scope, InvoiceKey(tx.id), WantedPosting(tx.id, tx.idText, tx.tax.value)).0
         == b.postings[(tx.scope, InvoiceKey(tx.id)) := tx.posting.value]
  {
    assert InvoiceOk(b, tx.id);
  }

  /** At its commit a transition does what the call does alone on the committed books. */
  lemma CommitServes(s: System, t: TxId)
    requires BooksOk(s.books) && t in s.txs && s.txs[t].pc == Moved && Knows(s, t, s.txs[t])
    ensures var tx := s.txs[t];
            && Transition(s.books, tx.scope, tx.id, tx.idText, tx.to, tx.expected, tx.tax) ==
                Made(Written(s.books, tx), tx.id)
            && Admissible(s.books, Call(tx))
  {
    var tx := s.txs[t];
    if tx.to == ISSUED {
      PostsAgain(s.books, tx);
      assert tx.row.value == s.books.invoices[tx.id].(
        status := ISSUED, version := s.books.invoices[tx.id].version + 3,
        snapshot := Some(Stored(tx.tax.value)), financeReference := Some(tx.posting.value.reference));
    }
  }

  lemma {:induction false} RunOneMore(b: Books, actions: seq<Action>, a: Action)
    ensures Run(b, actions + [a]) == Act(Run(b, actions), a)
    decreases |actions|
  {
    if actions == [] {
      assert [a][1..] == [];
      assert Run(b, [a]) == Run(Act(b, a), [a][1..]);
    } else {
      assert (actions + [a])[1..] == actions[1..] + [a];
      RunOneMore(Act(b, actions[0]), actions[1..], a);
    }
  }

  /** What one committed call leaves for the transactions that hold other rows. */
  lemma ServedKeeps(s: System, s': System, t: TxId, a: Action)
    requires Inv(s) && s'.books == Act(s.books, a) && s'.served == s.served + [a] && Admissible(s.books, a)
    requires forall u :: u in s'.txs ==> u in s.txs && u != t && s'.txs[u] == s.txs[u]
    requires forall u, id :: u != t && Holds(s, u, id) ==> Holds(s', u, id)
    requires forall u :: u in s'.txs ==> Kept(s.books, s'.books, Held(s, u))
    ensures Inv(s')
  {
    ActKeeps(s.books, a);
    RunOneMore(NO_BOOKS, s.served, a);
    forall u | u in s'.txs ensures Knows(s', u, s'.txs[u]) {
      KeptKnows(s, s', u, s.txs[u]);
    }
  }

  lemma WrittenKept(s: System, t: TxId, u: TxId)
    requires t in s.txs && s.txs[t].pc == Moved && Knows(s, t, s.txs[t]) && u != t
    ensures Kept(s.books, Written(s.books, s.txs[t]), Held(s, u))
  {
  }

  lemma CommitKeeps(s: System, t: TxId)
    requires Inv(s) && t in s.txs && s.txs[t].pc == Moved
    ensures Inv(CommitStep(s, t, s.txs[t]))
  {
    var tx := s.txs[t];
    var s' := CommitStep(s, t, tx);
    CommitServes(s, t);
    forall u | u in s'.txs ensures Kept(s.books, s'.books, Held(s, u)) {
      WrittenKept(s, t, u);
    }
    ServedKeeps(s, s', t, Call(tx));
  }

  lemma OtherKept(s: System, a: Action, u: TxId)
    requires !a.Move? && (a.Edit? ==> a.id !in s.locks)
    ensures Kept(s.books, Act(s.books, a), Held(s, u))
  {
  }

  lemma OtherKeeps(s: System, a: Action)
    requires Inv(s) && !a.Move? && Admissible(s.books, a) && (a.Edit? ==> a.id !in s.locks)
    ensures Inv(s.(books := Act(s.books, a), served := s.served + [a]))
  {
    var s' := s.(books := Act(s.books, a), served := s.served + [a]);
    ActKeeps(s.books, a);
    RunOneMore(NO_BOOKS, s.served, a);
    forall u | u in s'.txs ensures Knows(s', u, s'.txs[u]) {
      OtherKept(s, a, u);
      KeptKnows(s, s', u, s.txs[u]);
    }
  }

  // --------------------------------------------------------------- every run

  lemma NextKeeps(s: System, t: TxId, tax: Option<TaxResult>)
    requires Inv(s) && t in s.txs && Timely(s, Next(t, tax)) && Sound(s, Next(t, tax))
    ensures Inv(NextStep(s, t, tax))
  {
    assert Knows(s, t, s.txs[t]);
    match s.txs[t].pc
    case Waiting => LookKeeps(s, t);
    case Seen(_) => if s.txs[t].to == ISSUED { SnapshotKeeps(s, t, tax); } else { MoveKeeps(s, t, tax); }
    case Snapshotted => SubmitKeeps(s, t, tax);
    case Submitted => MarkKeeps(s, t, tax);
    case Marked => MoveKeeps(s, t, tax);
    case Moved => CommitKeeps(s, t);
  }

  lemma HappenKeeps(s: System, e: Event)
    requires Inv(s) && Timely(s, e) && Sound(s, e)
    ensures Inv(Happen(s, e))
  {
    match e
    case Begin(t, scope, id, text, to, expected) =>
      if t !in s.txs {
        WithKeeps(s, t, Tx(scope, id, text, to, expected, None, Waiting, None, None));
      }
    case Next(t, tax) => if t in s.txs { NextKeeps(s, t, tax); }
    case Abort(t) => EndKeeps(s, t);
    case Other(a) => if !a.Move? && (a.Edit? ==> a.id !in s.locks) { OtherKeeps(s, a); }
  }

  lemma {:induction false} ExecKeeps(s: System, events: seq<Event>)
    requires Inv(s) && TimelyRun(s, events)
    ensures Inv(Exec(s, events))
    decreases |events|
  {
    if events != [] {
      HappenKeeps(s, events[0]);
      ExecKeeps(Happen(s, events[0]), events[1..]);
    }
  }

  /**
    When no cancellation expects a version above the one it reads, every interleaving leaves the
    books that its committed calls leave one after the other: in particular an invoice
    has a posting, for its own amount, exactly when it is ISSUED.
   */
  lemma EveryInterleavingIsSerial(events: seq<Event>, id: nat)
    requires TimelyRun(START, events)
    ensures var s := Exec(START, events);
            s.books == Run(NO_BOOKS, s.served) && (id < |s.books.invoices| ==> InvoiceOk(s.books, id))
  {
    ExecKeeps(START, events);
  }

  lemma HappenKeepsFinal(s: System, e: Event, id: nat)
    requires Inv(s) && Timely(s, e) && Sound(s, e)
    requires id < |s.books.invoices| && s.books.invoices[id].status != DRAFT
    ensures id < |Happen(s, e).books.invoices| && Happen(s, e).books.invoices[id] == s.books.invoices[id]
  {
    if e.Next? && e.t in s.txs && s.txs[e.t].pc == Moved {
      assert Knows(s, e.t, s.txs[e.t]);
    }
  }

  lemma {:induction false} ExecKeepsFinal(s: System, events: seq<Event>, id: nat)
    requires Inv(s) && TimelyRun(s, events)
    requires id < |s.books.invoices| && s.books.invoices[id].status != DRAFT
    ensures id < |Exec(s, events).books.invoices| && Exec(s, events).books.invoices[id] == s.books.invoices[id]
    decreases |events|
  {
    if events != [] {
      HappenKeeps(s, events[0]);
      HappenKeepsFinal(s, events[0], id);
      ExecKeepsFinal(Happen(s, events[0]), events[1..], id);
    }
  }

  /** Under the same condition an invoice once ISSUED or CANCELLED stays as it is, whatever overlaps. */
  lemma FinalInvoicesStay(first: seq<Event>, later: seq<Event>, id: nat)
    requires TimelyRun(START, first) && TimelyRun(Exec(START, first), later)
    requires var b := Exec(START, first).books; id < |b.invoices| && b.invoices[id].status != DRAFT
    ensures var b, b' := Exec(START, first).books, Exec(Exec(START, first), later).books;
            id < |b'.invoices| && b'.invoices[id] == b.invoices[id]
  {
    ExecKeeps(START, first);
    ExecKeepsFinal(Exec(START, first), later, id);
  }

  /** No statement but the commit changes the books. */
  lemma SameBooks(s: System, t: TxId, tx: Tx, tax: Option<TaxResult>)
    ensures LookStep(s, t, tx).books == s.books
    ensures tx.tax.Some? ==> SubmitStep(s, t, tx).books == s.books
    ensures tx.id < |s.books.invoices| ==>
      && SnapshotStep(s, t, tx, tax).books == MoveStep(s, t, tx).books == s.books
      && (tx.posting.Some? ==> MarkStep(s, t, tx).books == s.books)
  {
    hide Post;
  }

  lemma SameKept(b: Books)
    ensures Kept(b, b, {})
  {
  }

  lemma ActGrows(b: Books, a: Action)
    requires !a.Move?
    ensures Kept(b, Act(b, a), {})
  {
    hide Post;
  }

  lemma HappenGrows(s: System, e: Event)
    requires Inv(s) && Timely(s, e) && Sound(s, e)
    ensures Kept(s.books, Happen(s, e).books, {})
  {
    hide LookStep, SnapshotStep, SubmitStep, MarkStep, MoveStep, Act, Kept, Inv;
    SameKept(s.books);
    match e
    case Next(t, tax) =>
      if t in s.txs {
        SameBooks(s, t, s.txs[t], tax);
        if s.txs[t].pc == Moved && s.txs[t].id < |s.books.invoices| {
          CommitGrows(s, t);
        }
      }
    case Other(a) => if !a.Move? { ActGrows(s.books, a); }
    case _ =>
  }

  lemma CommitGrows(s: System, t: TxId)
    requires Inv(s) && t in s.txs && s.txs[t].pc == Moved && s.txs[t].id < |s.books.invoices|
    ensures Kept(s.books, CommitStep(s, t, s.txs[t]).books, {})
  {
    assert Knows(s, t, s.txs[t]);
    WrittenKept(s, t, t + 1);
  }

  /** Versions only grow, so a version some caller has been shown is never above one read later. */
  lemma {:induction false} VersionsGrow(s: System, events: seq<Event>, id: nat)
    requires Inv(s) && TimelyRun(s, events) && id < |s.books.invoices|
    ensures id < |Exec(s, events).books.invoices| && Later(s.books.invoices[id], Exec(s, events).books.invoices[id])
    decreases |events|
  {
    if events != [] {
      HappenKeeps(s, events[0]);
      HappenGrows(s, events[0]);
      VersionsGrow(Happen(s, events[0]), events[1..], id);
    }
  }
}
