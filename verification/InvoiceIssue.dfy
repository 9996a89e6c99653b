/**
  Issuing an invoice: tax snapshot, finance posting and status change in one transaction,
  each raising the version by one, with the caller's version checked only at the end.
 */
module InvoiceIssue {
  import opened Wrappers
  import opened Commercial

  type Id = nat

  datatype Scope = Scope(tenant: Id, branch: Id, year: Id)

  datatype InvoiceStatus = DRAFT | ISSUED | CANCELLED

  datatype Snapshot = Snapshot(reference: string, rate: real, taxable: real, tax: real)

  datatype Invoice = Invoice(
    scope: Scope, delivery: Id, key: string, lineTotals: seq<real>, notes: string, status: InvoiceStatus, version: nat,
    snapshot: Option<Snapshot>, financeReference: Option<string>)

  /** Posting keys keep the structure of their text. */
  datatype PostingKey = InvoiceKey(invoice: nat) | CreditKey(note: nat)

  datatype DocumentType = INVOICE | CREDIT_NOTE

  datatype Posting = Posting(documentType: DocumentType, document: nat, reference: string, amount: real)

  datatype Books = Books(invoices: seq<Invoice>, postings: map<(Scope, PostingKey), Posting>)

  /** What the tax provider answers when it calculates. */
  datatype TaxResult = TaxResult(reference: string, rate: real, taxable: real, tax: real)

  datatype InvoiceError =
    | InvalidVersion
    | NotFound
    | WrongTransition
    | TaxFailed
    | ConstraintViolated
    | PostingConflict
    | VersionConflict
    | NotCompleted
    | ReplayRefused

  datatype Change = Made(books: Books, id: nat) | Refused(error: InvoiceError)

  function Settle(before: Books, c: Change): Books { if c.Made? then c.books else before }

  function Reply(c: Change): Result<nat, InvoiceError> { if c.Made? then Ok(c.id) else Err(c.error) }

  function Taxable(lineTotals: seq<real>): real {
    if lineTotals == [] then 0.0 else Taxable(lineTotals[..|lineTotals| - 1]) + lineTotals[|lineTotals| - 1]
  }

  predicate Moves(from: InvoiceStatus, to: InvoiceStatus) { from == DRAFT && (to == ISSUED || to == CANCELLED) }

  predicate Visible(b: Books, scope: Scope, id: nat) { id < |b.invoices| && b.invoices[id].scope == scope }

  // ----------------------------------------------------------------- creation

  predicate SameRequest(i: Invoice, scope: Scope, key: string, delivery: Id) {
    i.scope == scope && (i.key == key || i.delivery == delivery)
  }

  function FindInvoice(invoices: seq<Invoice>, scope: Scope, key: string, delivery: Id): (found: Option<nat>)
    ensures found.Some? ==> found.value < |invoices| && SameRequest(invoices[found.value], scope, key, delivery)
  {
    if invoices == [] then None
    else
      var found := FindInvoice(invoices[..|invoices| - 1], scope, key, delivery);
      if found.Some? then found
      else if SameRequest(invoices[|invoices| - 1], scope, key, delivery) then Some(|invoices| - 1)
      else None
  }

  /** `completed` holds the line totals of the delivery's order when the delivery is COMPLETED in this context. */
  function Create(
    b: Books, scope: Scope, delivery: Id, key: string, notes: string, allowReplay: bool,
      completed: Option<seq<real>>): Change
  {
    var existing := FindInvoice(b.invoices, scope, key, delivery);
    if existing.Some? then if allowReplay then Made(b, existing.value) else Refused(ReplayRefused)
    else if completed.None? then Refused(NotCompleted)
    else
      Made(b.(invoices := b.invoices + [Invoice(scope, delivery, key, completed.value, notes, DRAFT, 1, None, None)]),
           |b.invoices|)
  }

  function Update(b: Books, scope: Scope, id: nat, notes: string, expected: int): Change {
    if expected < 1 then Refused(InvalidVersion)
    else if !Visible(b, scope, id) || b.invoices[id].status != DRAFT || b.invoices[id].version != expected then
      Refused(VersionConflict)
    else
      Made(b.(invoices := b.invoices[id := b.invoices[id].(notes := notes, version := b.invoices[id].version + 1)]), id)
  }

  // ------------------------------------------------------------------ posting

  function ReferenceOf(documentType: DocumentType, reference: string): string {
    (if documentType == INVOICE then "AR-" else "CR-") + reference
  }

  /**
    Insert the posting or read the one with the same key; the amount read back has four
    decimals and must equal the one asked for.
   */
  function Post(
    postings: map<(Scope, PostingKey), Posting>, scope: Scope, key: PostingKey, wanted: Posting)
    : (r: (map<(Scope, PostingKey), Posting>, Option<Posting>))
  {
    var k := (scope, key);
    var postings' := if k in postings then postings else postings[k := wanted.(amount := Money(wanted.amount))];
    var found := postings'[k];
    if found.documentType != wanted.documentType || found.document != wanted.document || found.amount != wanted.amount
    then (postings', None)
    else (postings', Some(found))
  }

  function WantedPosting(id: nat, idText: string, t: TaxResult): Posting {
    Posting(INVOICE, id, ReferenceOf(INVOICE, idText), t.taxable + t.tax)
  }

  predicate Storable(t: TaxResult) { t.rate >= 0.0 && t.taxable >= 0.0 && t.tax >= 0.0 }

  function Stored(t: TaxResult): Snapshot {
    Snapshot(t.reference, Money(t.rate), Money(t.taxable), Money(t.tax))
  }

  function Transition(
    b: Books, scope: Scope, id: nat, idText: string, to: InvoiceStatus, expected: int, tax: Option<TaxResult>): Change
  {
    if expected < 1 then Refused(InvalidVersion)
    else if !Visible(b, scope, id) then Refused(NotFound)
    else
      var i := b.invoices[id];
      if !Moves(i.status, to) then Refused(WrongTransition)
      else if to == CANCELLED then
        if i.version != expected then Refused(VersionConflict)
        else Made(b.(invoices := b.invoices[id := i.(status := to, version := i.version + 1)]), id)
      else if tax.None? || tax.value.reference == "" then Refused(TaxFailed)
      else if !Storable(tax.value) then Refused(ConstraintViolated)
      else
        var posted := Post(b.postings, scope, InvoiceKey(id), WantedPosting(id, idText, tax.value));
        if posted.1.None? then Refused(PostingConflict)
        else if i.version + 2 != expected + 2 then Refused(VersionConflict)
        else
          var issued := i.(status := to, version := i.version + 3, snapshot := Some(Stored(tax.value)),
                           financeReference := Some(posted.1.value.reference));
          Made(Books(b.invoices[id := issued], posted.0), id)
  }

  // -------------------------------------------------------------- the service

  /** The service on its tables, statement by statement; a throw puts back what the transaction began with. */
  class InvoiceService {
    var invoices: seq<Invoice>
    var postings: map<(Scope, PostingKey), Posting>

    constructor ()
      ensures Now() == Books([], map[])
    {
      invoices, postings := [], map[];
    }

    function Now(): Books
      reads this
    {
      Books(invoices, postings)
    }

    method Rollback(b: Books)
      modifies this
      ensures Now() == b
    {
      invoices, postings := b.invoices, b.postings;
    }

    /** The guarded updates: they match the row only while it is DRAFT. */
    method UpdateTaxSnapshot(id: nat, t: TaxResult) returns (updated: bool)
      requires id < |invoices|
      modifies this
      ensures updated == (old(invoices)[id].status == DRAFT)
      ensures Now() == if updated
        then old(Now()).(invoices := old(invoices)[id :=
               old(invoices)[id].(snapshot := Some(Stored(t)), version := old(invoices)[id].version + 1)])
        else old(Now())
    {
      updated := invoices[id].status == DRAFT;
      if updated {
        invoices := invoices[id := invoices[id].(snapshot := Some(Stored(t)), version := invoices[id].version + 1)];
      }
    }

    method UpdateFinanceStatus(id: nat, reference: string) returns (updated: bool)
      requires id < |invoices|
      modifies this
      ensures updated == (old(invoices)[id].status == DRAFT)
      ensures Now() == if updated
        then old(Now()).(invoices := old(invoices)[id :=
               old(invoices)[id].(financeReference := Some(reference), version := old(invoices)[id].version + 1)])
        else old(Now())
    {
      updated := invoices[id].status == DRAFT;
      if updated {
        invoices := invoices[id :=
          invoices[id].(financeReference := Some(reference), version := invoices[id].version + 1)];
      }
    }

    method PostSalesDocument(scope: Scope, key: PostingKey, wanted: Posting) returns (posted: Option<Posting>)
      modifies this
      ensures invoices == old(invoices) && (postings, posted) == Post(old(postings), scope, key, wanted)
    {
      var k := (scope, key);
      if k !in postings {
        postings := postings[k := wanted.(amount := Money(wanted.amount))];
      }
      var existing := postings[k];
      if existing.documentType != wanted.documentType || existing.document != wanted.document
         || existing.amount != wanted.amount {
        return None;
      }
      return Some(existing);
    }

    method TransitionInvoice(
      scope: Scope, id: nat, idText: string, to: InvoiceStatus, expected: int, tax: Option<TaxResult>)
      returns (answer: Result<nat, InvoiceError>)
      modifies this
      ensures var c := Transition(old(Now()), scope, id, idText, to, expected, tax);
              Now() == Settle(old(Now()), c) && answer == Reply(c)
    {
      var begun := Now();
      if expected < 1 {
        return Err(InvalidVersion);
      }
      if !Visible(begun, scope, id) {
        return Err(NotFound);
      }
      if !Moves(invoices[id].status, to) {
        return Err(WrongTransition);
      }
      var expectedVersion := expected;
      if to == ISSUED {
        if tax.None? || tax.value.reference == "" {
          return Err(TaxFailed);
        }
        if !Storable(tax.value) {
          return Err(ConstraintViolated);
        }
        var snapshotted := UpdateTaxSnapshot(id, tax.value);
        assert snapshotted;
        var posting := PostSalesDocument(scope, InvoiceKey(id), WantedPosting(id, idText, tax.value));
        if posting.None? {
          Rollback(begun);
          return Err(PostingConflict);
        }
        var posted := UpdateFinanceStatus(id, posting.value.reference);
        assert posted;
        expectedVersion := expected + 2;
      }
      if invoices[id].version != expectedVersion {
        Rollback(begun);
        return Err(VersionConflict);
      }
      invoices := invoices[id := invoices[id].(status := to, version := invoices[id].version + 1)];
      return Ok(id);
    }
  }

  // ---------------------------------------------------------------- every run

  datatype Action =
    | NewInvoice(scope: Scope, delivery: Id, key: string, notes: string, allowReplay: bool,
      completed: Option<seq<real>>)
    | Edit(scope: Scope, id: nat, notes: string, expected: int)
    | Move(scope: Scope, id: nat, idText: string, to: InvoiceStatus, expected: int, tax: Option<TaxResult>)
    | PostCredit(scope: Scope, note: nat, reference: string, amount: real)

  function Act(b: Books, a: Action): Books {
    match a
    case NewInvoice(s, d, key, notes, replay, completed) => Settle(b, Create(b, s, d, key, notes, replay, completed))
    case Edit(s, id, notes, v) => Settle(b, Update(b, s, id, notes, v))
    case Move(s, id, text, to, v, tax) => Settle(b, Transition(b, s, id, text, to, v, tax))
    case PostCredit(s, note, reference, amount) =>
      var r := Post(b.postings, s, CreditKey(note),
        Posting(CREDIT_NOTE, note, ReferenceOf(CREDIT_NOTE, reference), amount));
      if r.1.Some? then b.(postings := r.0) else b
  }

  function Run(b: Books, actions: seq<Action>): Books
    decreases |actions|
  {
    if actions == [] then b else Run(Act(b, actions[0]), actions[1..])
  }

  /**
    An invoice and its posting: both or neither, with one amount.  The stored snapshot has four
    decimals, so its parts give that amount when the taxable part was exact.
   */
  predicate InvoiceOk(b: Books, id: nat)
    requires id < |b.invoices|
  {
    var i := b.invoices[id];
    var k := (i.scope, InvoiceKey(id));
    && (k in b.postings <==> i.status == ISSUED)
    && (i.snapshot.Some? <==> i.status == ISSUED) && (i.financeReference.Some? <==> i.status == ISSUED)
    && (i.status == ISSUED ==>
          && b.postings[k].documentType == INVOICE && b.postings[k].document == id
          && i.financeReference == Some(b.postings[k].reference)
          && i.snapshot.value.taxable == Taxable(i.lineTotals)
          && b.postings[k].amount == i.snapshot.value.taxable + i.snapshot.value.tax)
  }

  /** Every posting under an invoice's key belongs to that invoice. */
  predicate KeyOk(b: Books, k: (Scope, PostingKey)) {
    k.1.InvoiceKey? ==> k.1.invoice < |b.invoices| && b.invoices[k.1.invoice].scope == k.0
  }

  ghost predicate FourDecimalLines(lineTotals: seq<real>) {
    forall n :: 0 <= n < |lineTotals| ==> FourDecimals(lineTotals[n])
  }

  ghost predicate BooksOk(b: Books) {
    && (forall id :: 0 <= id < |b.invoices| ==> InvoiceOk(b, id) && FourDecimalLines(b.invoices[id].lineTotals))
    && (forall k :: k in b.postings ==> KeyOk(b, k))
  }

  /** Line totals come from four-decimal columns, and the tax is that of the invoice's own taxable amount. */
  ghost predicate Admissible(b: Books, a: Action) {
    match a
    case NewInvoice(_, _, _, _, _, completed) => completed.Some? ==> FourDecimalLines(completed.value)
    case Move(s, id, _, _, _, tax) => tax.Some? && id < |b.invoices| ==>
      tax.value.taxable == Taxable(b.invoices[id].lineTotals)
    case _ => true
  }

  ghost predicate AdmissibleRun(b: Books, actions: seq<Action>)
    decreases |actions|
  {
    actions != [] ==> Admissible(b, actions[0]) && AdmissibleRun(Act(b, actions[0]), actions[1..])
  }

  lemma {:induction false} TaxableIsExact(lineTotals: seq<real>)
    requires FourDecimalLines(lineTotals)
    ensures FourDecimals(Taxable(lineTotals))
  {
    if lineTotals == [] {
      FourDecimalsIs(0.0, 0);
    } else {
      TaxableIsExact(lineTotals[..|lineTotals| - 1]);
      FourDecimalsAdd(Taxable(lineTotals[..|lineTotals| - 1]), lineTotals[|lineTotals| - 1]);
    }
  }

  /** A sum that is stored unchanged and one exact part make the other part exact too. */
  lemma PartsAreStored(taxable: real, tax: real)
    requires FourDecimals(taxable) && Money(taxable + tax) == taxable + tax
    ensures Money(taxable) == taxable && Money(tax) == tax
  {
    MoneyIsNear(taxable + tax);
    FourDecimalsAdd(taxable + tax, taxable);
    MoneyIsExact(taxable);
    MoneyIsExact(tax);
  }

  lemma IssueKeeps(b: Books, scope: Scope, id: nat, idText: string, expected: int, tax: TaxResult)
    requires BooksOk(b) && Visible(b, scope, id) && tax.taxable == Taxable(b.invoices[id].lineTotals)
    requires Transition(b, scope, id, idText, ISSUED, expected, Some(tax)).Made?
    ensures InvoiceOk(Transition(b, scope, id, idText, ISSUED, expected, Some(tax)).books, id)
  {
    assert InvoiceOk(b, id) && FourDecimalLines(b.invoices[id].lineTotals);
    TaxableIsExact(b.invoices[id].lineTotals);
    PartsAreStored(tax.taxable, tax.tax);
  }

  lemma MoveKeeps(
    b: Books, scope: Scope, id: nat, idText: string, to: InvoiceStatus, expected: int, tax: Option<TaxResult>)
    requires BooksOk(b) && Admissible(b, Move(scope, id, idText, to, expected, tax))
    ensures BooksOk(Settle(b, Transition(b, scope, id, idText, to, expected, tax)))
  {
    var c := Transition(b, scope, id, idText, to, expected, tax);
    if c.Made? {
      var b' := c.books;
      forall n | 0 <= n < |b'.invoices|
        ensures InvoiceOk(b', n) && FourDecimalLines(b'.invoices[n].lineTotals)
      {
        assert InvoiceOk(b, n) && FourDecimalLines(b.invoices[n].lineTotals);
        if n == id && to == ISSUED {
          IssueKeeps(b, scope, id, idText, expected, tax.value);
        }
      }
      forall k | k in b'.postings ensures KeyOk(b', k) {
        assert k in b.postings ==> KeyOk(b, k);
      }
    }
  }

  lemma CreateKeeps(
    b: Books, scope: Scope, delivery: Id, key: string, notes: string, replay: bool, completed: Option<seq<real>>)
    requires BooksOk(b) && (completed.Some? ==> FourDecimalLines(completed.value))
    ensures BooksOk(Settle(b, Create(b, scope, delivery, key, notes, replay, completed)))
  {
    var b' := Settle(b, Create(b, scope, delivery, key, notes, replay, completed));
    forall n | 0 <= n < |b'.invoices|
      ensures InvoiceOk(b', n) && FourDecimalLines(b'.invoices[n].lineTotals)
    {
      if n < |b.invoices| {
        assert InvoiceOk(b, n) && FourDecimalLines(b.invoices[n].lineTotals);
      } else {
        assert (scope, InvoiceKey(n)) in b.postings ==> KeyOk(b, (scope, InvoiceKey(n)));
      }
    }
    forall k | k in b'.postings ensures KeyOk(b', k) {
      assert KeyOk(b, k);
    }
  }

  /** Anything that leaves postings under invoice keys and the invoices' issue data alone. */
  lemma OthersKeep(b: Books, b': Books)
    requires BooksOk(b) && |b'.invoices| == |b.invoices|
    requires forall n :: 0 <= n < |b.invoices| ==>
      b'.invoices[n].(notes := b.invoices[n].notes, version := b.invoices[n].version) == b.invoices[n]
    requires forall k: (Scope, PostingKey) :: k.1.InvoiceKey? ==>
      (k in b'.postings <==> k in b.postings) && (k in b.postings ==> b'.postings[k] == b.postings[k])
    ensures BooksOk(b')
  {
    forall n | 0 <= n < |b'.invoices|
      ensures InvoiceOk(b', n) && FourDecimalLines(b'.invoices[n].lineTotals)
    {
      assert InvoiceOk(b, n) && FourDecimalLines(b.invoices[n].lineTotals);
      assert b'.invoices[n].(notes := b.invoices[n].notes, version := b.invoices[n].version) == b.invoices[n];
    }
    forall k | k in b'.postings ensures KeyOk(b', k) {
      if k.1.InvoiceKey? {
        assert KeyOk(b, k);
      }
    }
  }

  lemma ActKeeps(b: Books, a: Action)
    requires BooksOk(b) && Admissible(b, a)
    ensures BooksOk(Act(b, a))
  {
    match a
    case NewInvoice(s, d, key, notes, replay, completed) => CreateKeeps(b, s, d, key, notes, replay, completed);
    case Edit(_, _, _, _) => OthersKeep(b, Act(b, a));
    case Move(s, id, text, to, v, tax) => MoveKeeps(b, s, id, text, to, v, tax);
    case PostCredit(_, _, _, _) => OthersKeep(b, Act(b, a));
  }

  lemma {:induction false} RunKeeps(b: Books, actions: seq<Action>)
    requires BooksOk(b) && AdmissibleRun(b, actions)
    ensures BooksOk(Run(b, actions))
    decreases |actions|
  {
    if actions != [] {
      ActKeeps(b, actions[0]);
      RunKeeps(Act(b, actions[0]), actions[1..]);
    }
  }

  /**
    In every run: an invoice has a finance posting exactly when it is ISSUED, for its taxable
    amount plus its tax; a draft or cancelled one has neither posting nor snapshot.
   */
  lemma PostedExactlyWhenIssued(actions: seq<Action>, id: nat)
    requires AdmissibleRun(Books([], map[]), actions) && id < |Run(Books([], map[]), actions).invoices|
    ensures InvoiceOk(Run(Books([], map[]), actions), id)
  {
    RunKeeps(Books([], map[]), actions);
  }

  /**
    When an issue succeeds: a visible draft at the caller's version, a usable tax result whose
    sum with the taxable amount has four decimals.  It raises the version by three.
   */
  lemma IssueExactly(b: Books, scope: Scope, id: nat, idText: string, expected: int, tax: Option<TaxResult>)
    requires BooksOk(b)
    ensures var c := Transition(b, scope, id, idText, ISSUED, expected, tax);
            && (c.Made? <==>
                  && expected >= 1 && Visible(b, scope, id) && b.invoices[id].status == DRAFT
                  && b.invoices[id].version == expected
                  && tax.Some? && tax.value.reference != "" && Storable(tax.value)
                  && Money(tax.value.taxable + tax.value.tax) == tax.value.taxable + tax.value.tax)
            && (c.Made? ==>
                  && id < |c.books.invoices| && c.books.invoices[id].status == ISSUED
                  && c.books.invoices[id].version == b.invoices[id].version + 3
                  && c.books.postings.Keys == b.postings.Keys + {(scope, InvoiceKey(id))})
  {
    if Visible(b, scope, id) {
      assert InvoiceOk(b, id);
    }
  }

  /** An issued or cancelled invoice is never changed again, nor is an invoice's posting. */
  lemma {:induction false} FinalInvoicesStay(b: Books, actions: seq<Action>, id: nat)
    requires id < |b.invoices| && b.invoices[id].status != DRAFT
    ensures var b' := Run(b, actions);
            && id < |b'.invoices| && b'.invoices[id] == b.invoices[id]
            && forall k :: k in b.postings ==> k in b'.postings && b'.postings[k] == b.postings[k]
    decreases |actions|
  {
    if actions != [] {
      FinalInvoicesStay(Act(b, actions[0]), actions[1..], id);
    }
  }
}
