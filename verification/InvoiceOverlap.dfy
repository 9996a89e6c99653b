/**
  What a cancellation can do that asks for a version above the one it read, while every other call
  asks for at most what it reads: how far above it must be to do harm.
 */
module InvoiceOverlap {
  import opened Wrappers
  import opened Commercial
  import opened InvoiceIssue
  import opened InvoiceConcurrency

  /**
    A cancellation whose update finds the version it asks for changes the row whatever its
    status has become.  The books stay right exactly when that row is not ISSUED by then; and
    when the row is no draft any more, the version asked for was above the one read.
   */
  lemma LateCancelExactly(s: System, t: TxId, tax: Option<TaxResult>)
    requires BooksOk(s.books) && t in s.txs && s.txs[t].pc.Seen? && s.txs[t].to == CANCELLED
    requires s.txs[t].row.None? && s.txs[t].posting.None? && s.txs[t].tax.None? && Free(s, t, s.txs[t].id)
    requires Visible(s.books, s.txs[t].scope, s.txs[t].id) && s.txs[t].pc.row.status == DRAFT
    requires Later(s.txs[t].pc.row, s.books.invoices[s.txs[t].id])
    requires s.books.invoices[s.txs[t].id].version == s.txs[t].expected
    ensures var id, b := s.txs[t].id, Happen(Happen(s, Next(t, tax)), Next(t, tax)).books;
            && b == s.books.(invoices := s.books.invoices[id := Moving(s.books.invoices[id], CANCELLED)])
            && (BooksOk(b) <==> s.books.invoices[id].status != ISSUED)
            && (s.books.invoices[id].status != DRAFT ==> s.txs[t].expected > s.txs[t].pc.row.version)
  {
    var id := s.txs[t].id;
    var i := s.books.invoices[id];
    var s1 := Happen(s, Next(t, tax));
    assert s1 == Write(s, t, s.txs[t], Moved, Moving(i, CANCELLED));
    var b := s.books.(invoices := s.books.invoices[id := Moving(i, CANCELLED)]);
    assert Happen(s1, Next(t, tax)).books == b;
    assert InvoiceOk(s.books, id);
    if i.status == ISSUED {
      assert !InvoiceOk(b, id);
    } else {
      CancelledKeeps(s.books, id);
    }
  }

  lemma CancelledKeeps(b: Books, id: nat)
    requires BooksOk(b) && id < |b.invoices| && b.invoices[id].status != ISSUED
    ensures BooksOk(b.(invoices := b.invoices[id := Moving(b.invoices[id], CANCELLED)]))
  {
    var b' := b.(invoices := b.invoices[id := Moving(b.invoices[id], CANCELLED)]);
    forall n | 0 <= n < |b'.invoices| ensures InvoiceOk(b', n) && FourDecimalLines(b'.invoices[n].lineTotals) {
      assert InvoiceOk(b, n) && FourDecimalLines(b.invoices[n].lineTotals);
    }
    forall k | k in b'.postings ensures KeyOk(b', k) {
      assert KeyOk(b, k);
    }
  }

  // ------------------------------------------------------------------ the runs

  /** The transaction takes no turn: between its read and its update a cancellation has nothing to do. */
  ghost predicate Idle(events: seq<Event>, c: TxId) {
    forall n :: 0 <= n < |events| ==> events[n].Other? || events[n].t != c
  }

  /** Some run of the others, all on time, leads from the first state to the second. */
  ghost predicate Leads(from: System, c: TxId, s: System) {
    exists events :: TimelyRun(from, events) && Idle(events, c) && Exec(from, events) == s
  }

  lemma LeadsNowhere(s: System, c: TxId)
    ensures Leads(s, c, s)
  {
    assert TimelyRun(s, []) && Idle([], c) && Exec(s, []) == s;
  }

  lemma {:induction false} ExecOneMore(s: System, events: seq<Event>, e: Event)
    requires TimelyRun(s, events) && Timely(Exec(s, events), e) && InvoiceConcurrency.Sound(Exec(s, events), e)
    ensures TimelyRun(s, events + [e]) && Exec(s, events + [e]) == Happen(Exec(s, events), e)
    decreases |events|
  {
    hide Timely, InvoiceConcurrency.Sound, Happen;
    if events == [] {
      assert [e][1..] == [] && events + [e] == [e];
      assert Exec(s, [e]) == Exec(Happen(s, e), [e][1..]);
    } else {
      assert (events + [e])[1..] == events[1..] + [e];
      ExecOneMore(Happen(s, events[0]), events[1..], e);
    }
  }

  lemma LeadsOn(from: System, c: TxId, s: System, e: Event, s': System)
    requires Leads(from, c, s) && (e.Other? || e.t != c) && Timely(s, e)
    requires InvoiceConcurrency.Sound(s, e) && s' == Happen(s, e)
    ensures Leads(from, c, s')
  {
    hide Timely, InvoiceConcurrency.Sound, Happen;
    var events :| TimelyRun(from, events) && Idle(events, c) && Exec(from, events) == s;
    ExecOneMore(from, events, e);
    assert Idle(events + [e], c);
  }

  /** A cancellation that has read the draft and waits. */
  function HasSeen(b: Books, id: nat, text: string, ahead: int): Tx
    requires id < |b.invoices|
  {
    var i := b.invoices[id];
    Tx(i.scope, id, text, CANCELLED, i.version + ahead, None, Seen(i), None, None)
  }

  /** The state in which that cancellation alone is open. */
  function Reads(s: System, c: TxId, id: nat, text: string, ahead: int): System
    requires id < |s.books.invoices|
  {
    s.(txs := map[c := HasSeen(s.books, id, text, ahead)])
  }

  /** The two turns with which the cancellation ends. */
  function Ends(s: System, c: TxId): System { Happen(Happen(s, Next(c, None)), Next(c, None)) }

  /** It comes to that: begun and read. */
  lemma ReadsIsReached(s: System, c: TxId, id: nat, text: string, ahead: int)
    requires s.txs == map[] && id < |s.books.invoices| && s.books.invoices[id].status == DRAFT
    requires s.books.invoices[id].version + ahead >= 1
    ensures var i := s.books.invoices[id];
            Happen(Happen(s, Begin(c, i.scope, id, text, CANCELLED, i.version + ahead)), Next(c, None))
              == Reads(s, c, id, text, ahead)
  {
  }

  /** After some run of the others the cancellation changes an invoice that is no draft any more. */
  ghost predicate CanOverride(s: System, c: TxId, id: nat) {
    exists s' :: Leads(s, c, s') && Overrides(s', c, id)
  }

  predicate Overrides(s: System, c: TxId, id: nat) {
    var b, b' := s.books.invoices, Ends(s, c).books.invoices;
    id < |b| && id < |b'| && b[id].status != DRAFT && b'[id] != b[id]
  }

  /** After some run of the others it leaves books in which an invoice and its posting disagree. */
  ghost predicate CanUnbalance(s: System, c: TxId) {
    exists s' :: Leads(s, c, s') && BooksOk(s'.books) && !BooksOk(Ends(s', c).books)
  }

  // ------------------------------------------------------- when it is harmless

  /** What the waiting cancellation leaves to the others is as if it were not there. */
  function Forget(s: System, c: TxId): System { s.(txs := s.txs - {c}) }

  lemma ForgetsWith(s: System, c: TxId, t: TxId, tx: Tx)
    requires t != c && c in s.txs
    ensures With(Forget(s, c), t, tx) == Forget(With(s, t, tx), c) && End(Forget(s, c), t) == Forget(End(s, t), c)
  {
    assert (s.txs - {c})[t := tx] == s.txs[t := tx] - {c};
    assert s.txs - {c} - {t} == s.txs - {t} - {c};
  }

  lemma ForgetsWrite(s: System, c: TxId, t: TxId, tx: Tx, pc: Pc, row: Invoice)
    requires t != c && c in s.txs
    ensures Write(Forget(s, c), t, tx, pc, row) == Forget(Write(s, t, tx, pc, row), c)
  {
    assert (s.txs - {c})[t := tx.(pc := pc, row := Some(row))] == s.txs[t := tx.(pc := pc, row := Some(row))] - {c};
  }

  lemma ForgetsUpdate(s: System, c: TxId, t: TxId, tx: Tx, tax: Option<TaxResult>)
    requires t != c && c in s.txs && tx.id < |s.books.invoices|
    ensures SnapshotStep(Forget(s, c), t, tx, tax) == Forget(SnapshotStep(s, t, tx, tax), c)
    ensures tx.posting.Some? ==> MarkStep(Forget(s, c), t, tx) == Forget(MarkStep(s, t, tx), c)
    ensures MoveStep(Forget(s, c), t, tx) == Forget(MoveStep(s, t, tx), c)
  {
    hide With, End, Write;
    var now := Now(s, tx);
    if tax.Some? {
      ForgetsWrite(s, c, t, tx.(tax := tax), Snapshotted, Snapshotting(now, tax.value));
    }
    if tx.posting.Some? {
      ForgetsWrite(s, c, t, tx, Marked, Marking(now, tx.posting.value.reference));
    }
    ForgetsWrite(s, c, t, tx, Moved, Moving(now, tx.to));
    ForgetsWith(s, c, t, tx);
  }

  lemma ForgetsOther(s: System, c: TxId, t: TxId, tx: Tx)
    requires t != c && c in s.txs
    ensures LookStep(Forget(s, c), t, tx) == Forget(LookStep(s, t, tx), c)
    ensures tx.tax.Some? ==> SubmitStep(Forget(s, c), t, tx) == Forget(SubmitStep(s, t, tx), c)
    ensures tx.id < |s.books.invoices| ==> CommitStep(Forget(s, c), t, tx) == Forget(CommitStep(s, t, tx), c)
  {
    hide With, Write, Post;
    ForgetsWith(s, c, t, tx);
    if tx.id < |s.books.invoices| {
      ForgetsWith(s, c, t, tx.(pc := Seen(s.books.invoices[tx.id])));
      ForgetsWith(s.(books := Written(s.books, tx), served := s.served + [Call(tx)]), c, t, tx);
    }
    if tx.tax.Some? {
      var posted :=
        Post(s.books.postings, tx.scope, InvoiceKey(tx.id), WantedPosting(tx.id, tx.idText, tx.tax.value)).1;
      ForgetsWith(s, c, t, tx.(pc := Submitted, posting := posted));
    }
  }

  lemma ForgetsNext(s: System, c: TxId, t: TxId, tax: Option<TaxResult>)
    requires t != c && c in s.txs && t in s.txs
    ensures NextStep(Forget(s, c), t, tax) == Forget(NextStep(s, t, tax), c)
  {
    hide LookStep, SnapshotStep, SubmitStep, MarkStep, MoveStep, CommitStep;
    var tx := s.txs[t];
    assert Forget(s, c).txs[t] == tx;
    ForgetsOther(s, c, t, tx);
    if tx.id < |s.books.invoices| {
      ForgetsUpdate(s, c, t, tx, tax);
    }
  }

  lemma NextLeaves(s: System, c: TxId, t: TxId, tax: Option<TaxResult>)
    requires t != c && c in s.txs && t in s.txs
    ensures c in NextStep(s, t, tax).txs && NextStep(s, t, tax).txs[c] == s.txs[c]
  {
  }

  lemma Forgets(s: System, c: TxId, e: Event)
    requires c in s.txs && (e.Other? || e.t != c)
    ensures Happen(Forget(s, c), e) == Forget(Happen(s, e), c)
    ensures c in Happen(s, e).txs && Happen(s, e).txs[c] == s.txs[c]
  {
    hide NextStep;
    match e
    case Begin(t, scope, id, text, to, expected) =>
      var tx := Tx(scope, id, text, to, expected, None, Waiting, None, None);
      assert (s.txs - {c})[t := tx] == s.txs[t := tx] - {c};
    case Next(t, tax) =>
      if t in s.txs {
        ForgetsNext(s, c, t, tax);
        NextLeaves(s, c, t, tax);
      }
    case Abort(t) => assert s.txs - {c} - {t} == s.txs - {t} - {c};
    case Other(_) =>
  }

  lemma ForgetsConditions(s: System, c: TxId, e: Event)
    requires c in s.txs && (e.Other? || e.t != c)
    ensures Timely(s, e) ==> Timely(Forget(s, c), e)
    ensures InvoiceConcurrency.Sound(s, e) ==> InvoiceConcurrency.Sound(Forget(s, c), e)
  {
  }

  /** What a draft can be later: to be issued costs three versions and a taxable amount that is not negative. */
  predicate Costs(i: Invoice, j: Invoice) {
    && Later(i, j) && (j.status != DRAFT ==> j.version >= i.version + 1)
    && (j.status == ISSUED ==> j.version >= i.version + 3 && Taxable(i.lineTotals) >= 0.0)
  }

  lemma HappenCosts(s: System, e: Event, i: Invoice, id: nat)
    requires Inv(s) && Timely(s, e) && InvoiceConcurrency.Sound(s, e)
    requires id < |s.books.invoices| && Costs(i, s.books.invoices[id])
    ensures id < |Happen(s, e).books.invoices| && Costs(i, Happen(s, e).books.invoices[id])
  {
    HappenGrows(s, e);
    if s.books.invoices[id].status != DRAFT {
      HappenKeepsFinal(s, e, id);
    } else {
      HappenCostsDraft(s, e, id);
    }
  }

  lemma HappenCostsDraft(s: System, e: Event, id: nat)
    requires Inv(s) && id < |s.books.invoices| && s.books.invoices[id].status == DRAFT
    ensures id < |Happen(s, e).books.invoices| && Costs(s.books.invoices[id], Happen(s, e).books.invoices[id])
  {
    hide LookStep, SnapshotStep, SubmitStep, MarkStep, MoveStep, Act;
    match e
    case Next(t, tax) =>
      if t in s.txs {
        SameBooks(s, t, s.txs[t], tax);
        if s.txs[t].pc == Moved && s.txs[t].id < |s.books.invoices| {
          CommitCosts(s, t, id);
        }
      }
    case Other(a) => if !a.Move? { ActCosts(s.books, a, id); }
    case _ =>
  }

  lemma CommitCosts(s: System, t: TxId, id: nat)
    requires Inv(s) && t in s.txs && s.txs[t].pc == Moved && s.txs[t].id < |s.books.invoices|
    requires id < |s.books.invoices| && s.books.invoices[id].status == DRAFT
    ensures var b := CommitStep(s, t, s.txs[t]).books;
            id < |b.invoices| && Costs(s.books.invoices[id], b.invoices[id])
  {
    hide Post;
    assert Knows(s, t, s.txs[t]);
  }

  lemma ActCosts(b: Books, a: Action, id: nat)
    requires id < |b.invoices| && b.invoices[id].status == DRAFT && !a.Move?
    ensures id < |Act(b, a).invoices| && Costs(b.invoices[id], Act(b, a).invoices[id])
  {
    hide Post;
  }

  lemma {:induction false} RunCosts(s: System, events: seq<Event>, c: TxId, i: Invoice, id: nat)
    requires c in s.txs && Inv(Forget(s, c)) && TimelyRun(s, events) && Idle(events, c)
    requires id < |s.books.invoices| && Costs(i, s.books.invoices[id])
    ensures var s' := Exec(s, events);
            && c in s'.txs && s'.txs[c] == s.txs[c] && Inv(Forget(s', c))
            && id < |s'.books.invoices| && Costs(i, s'.books.invoices[id])
    decreases |events|
  {
    hide Inv, Timely, InvoiceConcurrency.Sound, Happen, Costs;
    if events != [] {
      var e := events[0];
      Forgets(s, c, e);
      ForgetsConditions(s, c, e);
      HappenKeeps(Forget(s, c), e);
      HappenCosts(Forget(s, c), e, i, id);
      assert forall n :: 0 <= n < |events[1..]| ==> events[1..][n] == events[n + 1];
      RunCosts(Happen(s, e), events[1..], c, i, id);
    }
  }

  /** The state the others lead to, while the cancellation waits. */
  lemma LedCosts(s: System, c: TxId, id: nat, text: string, ahead: int, s': System)
    requires Inv(s) && s.txs == map[] && id < |s.books.invoices| && s.books.invoices[id].status == DRAFT
    requires Leads(Reads(s, c, id, text, ahead), c, s')
    ensures c in s'.txs && s'.txs[c] == HasSeen(s.books, id, text, ahead) && BooksOk(s'.books)
    ensures id < |s'.books.invoices| && Costs(s.books.invoices[id], s'.books.invoices[id])
  {
    hide Exec, TimelyRun;
    var from := Reads(s, c, id, text, ahead);
    var events :| TimelyRun(from, events) && Idle(events, c) && Exec(from, events) == s';
    assert Forget(from, c).txs == s.txs;
    assert Forget(from, c) == s;
    RunCosts(from, events, c, s.books.invoices[id], id);
  }

  /** Its two turns: nothing, or the change of a row at the version it asks for. */
  lemma EndsExactly(s: System, c: TxId)
    requires c in s.txs && s.txs[c].pc.Seen? && s.txs[c].to == CANCELLED && s.txs[c].row.None? && s.txs[c].posting.None?
    requires s.txs[c].id < |s.books.invoices|
    ensures var id, b := s.txs[c].id, Ends(s, c).books;
            || b == s.books
            || (s.books.invoices[id].version == s.txs[c].expected && Free(s, c, id)
                && b == s.books.(invoices := s.books.invoices[id := Moving(s.books.invoices[id], CANCELLED)]))
  {
    var id := s.txs[c].id;
    if Free(s, c, id) && s.books.invoices[id].version == s.txs[c].expected {
      assert Happen(s, Next(c, None)) == Write(s, c, s.txs[c], Moved, Moving(s.books.invoices[id], CANCELLED));
    }
  }

  lemma HarmlessNeverOverrides(s: System, c: TxId, id: nat, text: string, ahead: int)
    requires Inv(s) && s.txs == map[] && id < |s.books.invoices| && s.books.invoices[id].status == DRAFT
    ensures CanOverride(Reads(s, c, id, text, ahead), c, id) ==> ahead >= 1
    ensures CanUnbalance(Reads(s, c, id, text, ahead), c) ==>
      ahead >= 3 && Taxable(s.books.invoices[id].lineTotals) >= 0.0
  {
    hide Inv, Leads, BooksOk, Ends, Overrides;
    var from := Reads(s, c, id, text, ahead);
    if CanOverride(from, c, id) {
      var s' :| Leads(from, c, s') && Overrides(s', c, id);
      LedCosts(s, c, id, text, ahead, s');
      OverridesAt(s', c, id);
    }
    if CanUnbalance(from, c) {
      var s' :| Leads(from, c, s') && BooksOk(s'.books) && !BooksOk(Ends(s', c).books);
      LedCosts(s, c, id, text, ahead, s');
      EndsExactly(s', c);
      if s'.books.invoices[id].status != ISSUED {
        CancelledKeeps(s'.books, id);
      }
    }
  }

  lemma OverridesAt(s: System, c: TxId, id: nat)
    requires c in s.txs && s.txs[c].pc.Seen? && s.txs[c].to == CANCELLED && s.txs[c].row.None? && s.txs[c].posting.None?
    requires s.txs[c].id == id < |s.books.invoices| && Overrides(s, c, id)
    ensures s.books.invoices[id].status != DRAFT && s.books.invoices[id].version == s.txs[c].expected
  {
    hide Ends;
    EndsExactly(s, c);
  }

  // ------------------------------------------------------------ when it does harm

  /** Where the run began, who waits, what has been committed since, and who runs. */
  datatype Scene = Scene(start: System, late: TxId, base: System, runner: TxId)

  /** Since the base only the runner has moved, and only its row may be locked. */
  ghost predicate At(a: Scene, s: System, tx: Tx) {
    && a.runner != a.late && Leads(a.start, a.late, s)
    && s == a.base.(txs := a.base.txs[a.runner := tx], locks := if tx.row.Some? then map[tx.id := a.runner] else map[])
  }

  predicate Fresh(tx: Tx) { tx.pc.Waiting? && tx.row.None? && tx.posting.None? && tx.tax.None? }

  lemma AtNext(a: Scene, s: System, tx: Tx, tax: Option<TaxResult>, tx': Tx)
    requires At(a, s, tx) && tx'.id == tx.id
    requires Timely(s, Next(a.runner, tax)) && InvoiceConcurrency.Sound(s, Next(a.runner, tax))
    requires var s' := Happen(s, Next(a.runner, tax));
             && s'.books == s.books && s'.served == s.served && s'.txs == s.txs[a.runner := tx']
             && s'.locks == if tx'.row.Some? then map[tx.id := a.runner] else map[]
    ensures At(a, Happen(s, Next(a.runner, tax)), tx')
  {
    hide Leads, Timely, InvoiceConcurrency.Sound, Happen;
    LeadsOn(a.start, a.late, s, Next(a.runner, tax), Happen(s, Next(a.runner, tax)));
    assert a.base.txs[a.runner := tx][a.runner := tx'] == a.base.txs[a.runner := tx'];
  }

  /** The runner begins, and reads a draft at the version it asks for. */
  lemma RunnerReads(start: System, late: TxId, base: System, u: TxId, id: nat, text: string, to: InvoiceStatus)
    returns (a: Scene, s: System)
    requires Leads(start, late, base) && u != late && u !in base.txs
    requires base.locks == map[] && id < |base.books.invoices|
    requires base.books.invoices[id].status == DRAFT && base.books.invoices[id].version >= 1 && Moves(DRAFT, to)
    ensures a == Scene(start, late, base, u)
    ensures var i := base.books.invoices[id];
            At(a, s, Tx(i.scope, id, text, to, i.version, None, Seen(i), None, None))
  {
    hide Leads;
    var i := base.books.invoices[id];
    a := Scene(start, late, base, u);
    var tx := Tx(i.scope, id, text, to, i.version, None, Waiting, None, None);
    var e := Begin(u, i.scope, id, text, to, i.version);
    var s1 := Happen(base, e);
    LeadsOn(start, late, base, e, s1);
    s := Happen(s1, Next(u, None));
    AtNext(a, s1, tx, None, tx.(pc := Seen(i)));
  }

  lemma Snapshots(a: Scene, s: System, tx: Tx, tax: TaxResult)
    requires At(a, s, tx) && tx.pc.Seen? && tx.row.None? && tx.to == ISSUED && Usable(Some(tax))
    requires tx.id < |s.books.invoices| && s.books.invoices[tx.id].status == DRAFT
    requires tax.taxable == Taxable(tx.pc.row.lineTotals)
    ensures At(a, Happen(s, Next(a.runner, Some(tax))),
               tx.(tax := Some(tax), pc := Snapshotted, row := Some(Snapshotting(s.books.invoices[tx.id], tax))))
  {
    hide Leads;
    var tx' := tx.(tax := Some(tax), pc := Snapshotted, row := Some(Snapshotting(s.books.invoices[tx.id], tax)));
    AtNext(a, s, tx, Some(tax), tx');
  }

  lemma Submits(a: Scene, s: System, tx: Tx, posting: Posting)
    requires At(a, s, tx) && tx.pc == Snapshotted && tx.tax.Some? && tx.id < |s.books.invoices|
    requires Post(s.books.postings, tx.scope, InvoiceKey(tx.id), WantedPosting(tx.id, tx.idText, tx.tax.value)).1 ==
      Some(posting)
    ensures At(a, Happen(s, Next(a.runner, None)), tx.(pc := Submitted, posting := Some(posting)))
  {
    hide Leads;
    AtNext(a, s, tx, None, tx.(pc := Submitted, posting := Some(posting)));
  }

  lemma Marks(a: Scene, s: System, tx: Tx)
    requires At(a, s, tx) && tx.pc == Submitted && tx.posting.Some? && tx.id < |s.books.invoices|
    requires tx.row.Some? && tx.row.value.status == DRAFT
    ensures At(a, Happen(s, Next(a.runner, None)),
               tx.(pc := Marked, row := Some(Marking(tx.row.value, tx.posting.value.reference))))
  {
    hide Leads;
    AtNext(a, s, tx, None, tx.(pc := Marked, row := Some(Marking(tx.row.value, tx.posting.value.reference))));
  }

  lemma MovesOn(a: Scene, s: System, tx: Tx)
    requires At(a, s, tx) && tx.id < |s.books.invoices|
    requires tx.pc == Marked || (tx.pc.Seen? && tx.to != ISSUED)
    requires Now(s, tx).version == ExpectedNow(tx)
    ensures At(a, Happen(s, Next(a.runner, None)), tx.(pc := Moved, row := Some(Moving(Now(s, tx), tx.to))))
  {
    hide Leads;
    AtNext(a, s, tx, None, tx.(pc := Moved, row := Some(Moving(Now(s, tx), tx.to))));
  }

  /** An issue whose row nobody holds, from its read to just before its commit. */
  lemma IssueRuns(a: Scene, s: System, tx: Tx, tax: TaxResult) returns (s': System, tx': Tx)
    requires At(a, s, tx) && BooksOk(s.books) && tx.id < |s.books.invoices|
    requires var i := s.books.invoices[tx.id];
             && tx == Tx(i.scope, tx.id, tx.idText, ISSUED, i.version, None, Seen(i), None, None) && i.version >= 1
             && Transition(s.books, i.scope, tx.id, tx.idText, ISSUED, i.version, Some(tax)).Made?
             && tax.taxable == Taxable(i.lineTotals)
    ensures At(a, s', tx') && tx'.pc == Moved && Knows(s', a.runner, tx')
    ensures Call(tx') == Call(tx.(tax := Some(tax)))
  {
    hide Leads, BooksOk, Happen;
    var i := s.books.invoices[tx.id];
    Snapshots(a, s, tx, tax);
    var s1 := Happen(s, Next(a.runner, Some(tax)));
    var tx1 := tx.(tax := Some(tax), pc := Snapshotted, row := Some(Snapshotting(i, tax)));
    var posting := Post(s.books.postings, tx.scope, InvoiceKey(tx.id), WantedPosting(tx.id, tx.idText, tax)).1.value;
    Submits(a, s1, tx1, posting);
    var s2 := Happen(s1, Next(a.runner, None));
    var tx2 := tx1.(pc := Submitted, posting := Some(posting));
    Marks(a, s2, tx2);
    var s3 := Happen(s2, Next(a.runner, None));
    var tx3 := tx2.(pc := Marked, row := Some(Marking(tx2.row.value, posting.reference)));
    MovesOn(a, s3, tx3);
    s', tx' := Happen(s3, Next(a.runner, None)), tx3.(pc := Moved, row := Some(Moving(tx3.row.value, ISSUED)));
  }

  /** The runner commits what its call does alone, and is gone. */
  lemma RunnerCommits(a: Scene, s: System, tx: Tx)
    requires At(a, s, tx) && tx.pc == Moved && Knows(s, a.runner, tx) && BooksOk(s.books) && a.runner !in a.base.txs
    ensures var s' := Happen(s, Next(a.runner, None));
            && Leads(a.start, a.late, s') && s'.txs == a.base.txs && s'.locks == map[]
            && s'.books == Act(a.base.books, Call(tx)) && BooksOk(s'.books)
  {
    hide Leads;
    CommitServes(s, a.runner);
    ActKeeps(s.books, Call(tx));
    LeadsOn(a.start, a.late, s, Next(a.runner, None), Happen(s, Next(a.runner, None)));
    assert a.base.txs[a.runner := tx] - {a.runner} == a.base.txs;
  }

  /** Nothing but the waiting cancellation is open. */
  ghost predicate Waits(start: System, c: TxId, s: System, waits: Tx) {
    Leads(start, c, s) && s.txs == map[c := waits] && s.locks == map[] && BooksOk(s.books)
  }

  /** Edits of the draft, each raising its version. */
  lemma {:induction false} EditsRun(start: System, c: TxId, s: System, waits: Tx, id: nat, n: nat) returns (s': System)
    requires Waits(start, c, s, waits) && id < |s.books.invoices| && s.books.invoices[id].status == DRAFT
    requires s.books.invoices[id].version >= 1
    ensures Waits(start, c, s', waits)
    ensures var i := s.books.invoices[id];
            var notes := if n == 0 then i.notes else "";
            s'.books == s.books.(invoices := s.books.invoices[id := i.(notes := notes, version := i.version + n)])
    decreases n
  {
    hide Leads, BooksOk;
    if n == 0 {
      s' := s;
    } else {
      var i := s.books.invoices[id];
      var e := Other(Edit(i.scope, id, "", i.version));
      LeadsOn(start, c, s, e, Happen(s, e));
      ActKeeps(s.books, e.action);
      s' := EditsRun(start, c, Happen(s, e), waits, id, n - 1);
    }
  }

  /** Another cancellation, on time. */
  lemma CancelRuns(start: System, c: TxId, s: System, waits: Tx, u: TxId, id: nat) returns (s': System)
    requires Waits(start, c, s, waits) && u != c && id < |s.books.invoices| && s.books.invoices[id].status == DRAFT
    requires s.books.invoices[id].version >= 1
    ensures Waits(start, c, s', waits)
    ensures s'.books == s.books.(invoices := s.books.invoices[id := Moving(s.books.invoices[id], CANCELLED)])
  {
    hide Leads, BooksOk;
    var i := s.books.invoices[id];
    var a, s1 := RunnerReads(start, c, s, u, id, "", CANCELLED);
    var tx := Tx(i.scope, id, "", CANCELLED, i.version, None, Seen(i), None, None);
    MovesOn(a, s1, tx);
    var s2, tx2 := Happen(s1, Next(u, None)), tx.(pc := Moved, row := Some(Moving(i, CANCELLED)));
    RunnerCommits(a, s2, tx2);
    s' := Happen(s2, Next(u, None));
  }

  /** An issue, on time. */
  lemma IssueGoesThrough(start: System, c: TxId, s: System, waits: Tx, u: TxId, id: nat, text: string, tax: TaxResult)
    returns (s': System)
    requires Waits(start, c, s, waits) && u != c && id < |s.books.invoices| && s.books.invoices[id].version >= 1
    requires tax.taxable == Taxable(s.books.invoices[id].lineTotals)
    requires var i := s.books.invoices[id]; Transition(s.books, i.scope, id, text, ISSUED, i.version, Some(tax)).Made?
    ensures Waits(start, c, s', waits)
    ensures var i := s.books.invoices[id];
            s'.books == Transition(s.books, i.scope, id, text, ISSUED, i.version, Some(tax)).books
  {
    hide Leads, BooksOk, Happen, Knows;
    var i := s.books.invoices[id];
    var a, s1 := RunnerReads(start, c, s, u, id, text, ISSUED);
    var tx := Tx(i.scope, id, text, ISSUED, i.version, None, Seen(i), None, None);
    var s2, done := IssueRuns(a, s1, tx, tax);
    RunnerCommits(a, s2, done);
    s' := Happen(s2, Next(u, None));
  }

  /** The waiting cancellation changes a row that is no draft any more. */
  lemma LateChanges(start: System, c: TxId, s: System, id: nat, text: string, ahead: int, i: Invoice)
    requires id < |s.books.invoices| && i.status == DRAFT
    requires Waits(start, c, s, Tx(i.scope, id, text, CANCELLED, i.version + ahead, None, Seen(i), None, None))
    requires Later(i, s.books.invoices[id]) && s.books.invoices[id].version == i.version + ahead
    requires s.books.invoices[id].status != DRAFT
    ensures CanOverride(start, c, id) && (s.books.invoices[id].status == ISSUED ==> CanUnbalance(start, c))
  {
    hide Leads, BooksOk;
    LateCancelExactly(s, c, None);
    assert Overrides(s, c, id);
  }

  /** An issue that any tax provider may make possible: no tax, no rate. */
  lemma SomeIssueIsMade(b: Books, id: nat, text: string)
    requires BooksOk(b) && id < |b.invoices| && b.invoices[id].status == DRAFT && b.invoices[id].version >= 1
    requires Taxable(b.invoices[id].lineTotals) >= 0.0
    ensures var i := b.invoices[id];
            Transition(b, i.scope, id, text, ISSUED, i.version,
              Some(TaxResult("tax", 0.0, Taxable(i.lineTotals), 0.0))).Made?
  {
    var i := b.invoices[id];
    assert InvoiceOk(b, id) && FourDecimalLines(i.lineTotals);
    TaxableIsExact(i.lineTotals);
    MoneyIsExact(Taxable(i.lineTotals));
    IssueExactly(b, i.scope, id, text, i.version, Some(TaxResult("tax", 0.0, Taxable(i.lineTotals), 0.0)));
  }

  lemma HarmDone(s: System, c: TxId, id: nat, text: string, ahead: int)
    requires Inv(s) && s.txs == map[] && s.locks == map[] && id < |s.books.invoices|
    requires s.books.invoices[id].status == DRAFT
    requires s.books.invoices[id].version >= 1
    ensures ahead >= 1 ==> CanOverride(Reads(s, c, id, text, ahead), c, id)
    ensures ahead >= 3 && Taxable(s.books.invoices[id].lineTotals) >= 0.0 ==>
      CanUnbalance(Reads(s, c, id, text, ahead), c)
  {
    hide Inv, Leads, BooksOk, CanOverride, CanUnbalance, Transition;
    var i, from, waits := s.books.invoices[id], Reads(s, c, id, text, ahead), HasSeen(s.books, id, text, ahead);
    LeadsNowhere(from, c);
    InvBooks(s);
    if ahead >= 1 {
      var s1 := EditsRun(from, c, from, waits, id, ahead - 1);
      var s2 := CancelRuns(from, c, s1, waits, c + 1, id);
      LateChanges(from, c, s2, id, text, ahead, i);
    }
    if ahead >= 3 && Taxable(i.lineTotals) >= 0.0 {
      var s1 := EditsRun(from, c, from, waits, id, ahead - 3);
      IssueAndLate(from, c, s1, waits, id, text, ahead, i);
    }
  }

  lemma InvBooks(s: System)
    requires Inv(s)
    ensures BooksOk(s.books)
  {
  }

  lemma IssueAndLate(from: System, c: TxId, s: System, waits: Tx, id: nat, text: string, ahead: nat, i: Invoice)
    requires Waits(from, c, s, waits) && id < |s.books.invoices| && i.version >= 1 && ahead >= 3 && i.status == DRAFT
    requires waits == Tx(i.scope, id, text, CANCELLED, i.version + ahead, None, Seen(i), None, None)
    requires s.books.invoices[id] == i.(notes := s.books.invoices[id].notes, version := i.version + ahead - 3)
    requires Taxable(i.lineTotals) >= 0.0
    ensures CanUnbalance(from, c)
  {
    hide Leads, BooksOk, CanOverride, CanUnbalance;
    var tax := TaxResult("tax", 0.0, Taxable(i.lineTotals), 0.0);
    SomeIssueIsMade(s.books, id, text);
    IssueExactly(s.books, i.scope, id, text, s.books.invoices[id].version, Some(tax));
    var s2 := IssueGoesThrough(from, c, s, waits, c + 1, id, text, tax);
    LateChanges(from, c, s2, id, text, ahead, i);
  }

  /**
    How far above the version read a cancellation may ask, when everyone else asks for at most
    what they read.  It can change an invoice that is no draft any more exactly when it asks at least
    one above; and it can leave an invoice and its posting disagreeing exactly when it asks at least
    three above, and the taxable amount is not negative, so that an issue is possible.
   */
  lemma AheadExactly(s: System, c: TxId, id: nat, text: string, ahead: int)
    requires Inv(s) && s.txs == map[] && s.locks == map[] && id < |s.books.invoices|
    requires s.books.invoices[id].status == DRAFT
    requires s.books.invoices[id].version >= 1
    ensures CanOverride(Reads(s, c, id, text, ahead), c, id) <==> ahead >= 1
    ensures CanUnbalance(Reads(s, c, id, text, ahead), c) <==>
      ahead >= 3 && Taxable(s.books.invoices[id].lineTotals) >= 0.0
  {
    hide Inv, CanOverride, CanUnbalance;
    HarmlessNeverOverrides(s, c, id, text, ahead);
    HarmDone(s, c, id, text, ahead);
  }

  ghost predicate CancelledAndPosted(s: System, id: nat) {
    && id < |s.books.invoices| && s.books.invoices[id].status == CANCELLED && s.books.invoices[id].snapshot.Some?
    && (s.books.invoices[id].scope, InvoiceKey(id)) in s.books.postings
  }

  /**
    Whenever an issue of a draft would go through, a cancellation that asks for the version
    three above and reads before the issue commits goes through after it.
   */
  lemma CancelOverridesIssue(
    s: System, c: TxId, id: nat, text: string, tax: TaxResult) returns (middle: System, end: System)
    requires Inv(s) && s.txs == map[] && s.locks == map[] && id < |s.books.invoices|
    requires s.books.invoices[id].status == DRAFT && tax.taxable == Taxable(s.books.invoices[id].lineTotals)
    requires Transition(s.books, s.books.invoices[id].scope, id, text, ISSUED, s.books.invoices[id].version,
      Some(tax)).Made?
    ensures Leads(Reads(s, c, id, text, 3), c, middle)
    ensures id < |middle.books.invoices| && middle.books.invoices[id].status == ISSUED
    ensures end == Ends(middle, c) && CancelledAndPosted(end, id) && !BooksOk(end.books)
  {
    hide Leads;
    var i, from := s.books.invoices[id], Reads(s, c, id, text, 3);
    LeadsNowhere(from, c);
    IssueExactly(s.books, i.scope, id, text, i.version, Some(tax));
    middle := IssueGoesThrough(from, c, from, HasSeen(s.books, id, text, 3), c + 1, id, text, tax);
    end := Ends(middle, c);
    LateCancelExactly(middle, c, None);
    assert InvoiceOk(middle.books, id);
  }

  lemma {:induction false} ExecAppends(s: System, events: seq<Event>, more: seq<Event>)
    ensures Exec(s, events + more) == Exec(Exec(s, events), more)
    decreases |events|
  {
    if events == [] {
      assert events + more == more;
    } else {
      assert (events + more)[1..] == events[1..] + more;
      ExecAppends(Happen(s, events[0]), events[1..], more);
    }
  }

  lemma ExecTwo(s: System, e: Event, f: Event)
    ensures Exec(s, [e, f]) == Happen(Happen(s, e), f)
  {
    assert [e, f][1..] == [f] && [f][1..] == [];
    assert Exec(Happen(s, e), [f]) == Exec(Happen(Happen(s, e), f), []);
  }

  /** The books with one empty invoice, just created. */
  lemma EmptyInvoice(create: Action) returns (s: System)
    requires create == NewInvoice(Scope(0, 0, 0), 0, "key", "", true, Some([]))
    ensures s == Happen(START, Other(create)) == Exec(START, [Other(create)])
    ensures Inv(s) && s.txs == map[] && s.locks == map[] && |s.books.invoices| == 1
    ensures var i := s.books.invoices[0];
            i.scope == Scope(0, 0, 0) && i.lineTotals == [] && i.status == DRAFT && i.version == 1
  {
    s := Happen(START, Other(create));
    assert [Other(create)][1..] == [];
    assert Exec(START, [Other(create)]) == Exec(s, []);
    OtherKeeps(START, create);
  }

  /** Such a run exists: one empty invoice, issued and cancelled at once. */
  lemma SomeRunPostsAndCancels()
    ensures exists events :: CancelledAndPosted(Exec(START, events), 0)
  {
    hide Leads, Inv, BooksOk, Happen, CancelledAndPosted;
    var create := NewInvoice(Scope(0, 0, 0), 0, "key", "", true, Some([]));
    var s := EmptyInvoice(create);
    FourDecimalsIs(0.0, 0);
    MoneyIsExact(0.0);
    InvBooks(s);
    var tax := TaxResult("tax", 0.0, 0.0, 0.0);
    IssueExactly(s.books, Scope(0, 0, 0), 0, "", 1, Some(tax));
    var middle, end := CancelOverridesIssue(s, 0, 0, "", tax);
    var later := LedBy(Reads(s, 0, 0, "", 3), 0, middle);
    ReadsIsReached(s, 0, 0, "", 3);
    var b, n := Begin(0, Scope(0, 0, 0), 0, "", CANCELLED, 4), Next(0, None);
    ExecTwo(s, b, n);
    ExecAppends(START, [Other(create)], [b, n]);
    ExecAppends(START, [Other(create)] + [b, n], later);
    ExecTwo(middle, n, n);
    ExecAppends(START, [Other(create)] + [b, n] + later, [n, n]);
    assert Exec(START, [Other(create)] + [b, n] + later + [n, n]) == end;
  }

  lemma LedBy(from: System, c: TxId, s: System) returns (events: seq<Event>)
    requires Leads(from, c, s)
    ensures Exec(from, events) == s
  {
    hide TimelyRun, Exec;
    events :| TimelyRun(from, events) && Idle(events, c) && Exec(from, events) == s;
  }
}
