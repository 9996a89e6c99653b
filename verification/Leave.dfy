/**
  Leave balances, requests and the leave log.  Days count hundredths, the scale of the
  stored columns.  A request keeps two years: the one SQL extracts from its start date,
  which approval uses, and the UTC year of the driver's date, which cancellation uses.
 */
module Leave {
  import opened Wrappers

  type Id = nat

  datatype BalanceKey = BalanceKey(employee: Id, leaveType: Id, year: int)

  datatype Balance = Balance(opening: int, accrued: int, used: int, encashed: int, adjusted: int)
  {
    function Available(): int { opening + accrued + adjusted - used - encashed }
  }

  datatype RequestStatus = PENDING | SUBMITTED | APPROVED | REJECTED | CORRECTION | CANCELLED

  datatype Request = Request(
    employee: Id, leaveType: Id, sqlYear: int, utcYear: int, days: nat, status: RequestStatus)
  {
    function ApprovalKey(): BalanceKey { BalanceKey(employee, leaveType, sqlYear) }
    function CancelKey(): BalanceKey { BalanceKey(employee, leaveType, utcYear) }
  }

  datatype EntryKind = USAGE | CANCELLATION | ACCRUAL

  datatype Entry = Entry(kind: EntryKind, key: BalanceKey, amount: int)

  datatype Method = MONTHLY | ANNUAL | OTHER

  datatype LeaveType = LeaveType(id: Id, entitlement: nat, accrual: Method, carryForwardLimit: int)

  type Balances = map<BalanceKey, Balance>

  datatype State = State(balances: Balances, requests: seq<Request>, log: seq<Entry>, accrualRuns: set<int>)

  datatype LeaveError = NotFound | NotInitialized | InsufficientBalance | NotCancellable | InvalidYear | InvalidDays

  datatype Change = Made(state: State) | Refused(error: LeaveError)

  function Settle(before: State, c: Change): State { if c.Made? then c.state else before }

  function Answer(c: Change): Option<LeaveError> { if c.Made? then None else Some(c.error) }

  // -------------------------------------------------------------- operations

  /** A workflow decision; an approval consumes the days in the same transaction. */
  function Decide(s: State, id: nat, decision: RequestStatus): Change {
    if id >= |s.requests| then Refused(NotFound)
    else
      var req := s.requests[id];
      var decided := s.(requests := s.requests[id := req.(status := decision)]);
      if decision != APPROVED then Made(decided)
      else if req.ApprovalKey() !in s.balances then Refused(NotInitialized)
      else
        var b := s.balances[req.ApprovalKey()];
        if b.Available() < req.days then Refused(InsufficientBalance)
        else
          Made(decided.(
            balances := s.balances[req.ApprovalKey() := b.(used := b.used + req.days)],
            log := s.log + [Entry(USAGE, req.ApprovalKey(), req.days)]))
  }

  function AtLeastZero(x: int): int { if x < 0 then 0 else x }

  /** The update has no effect when there is no such balance; the log row is written all the same. */
  function Cancel(s: State, id: nat): Change {
    if id >= |s.requests| then Refused(NotFound)
    else
      var req := s.requests[id];
      var k := req.CancelKey();
      var cancelled := s.(requests := s.requests[id := req.(status := CANCELLED)]);
      if req.status == PENDING then Made(cancelled)
      else if req.status != APPROVED then Refused(NotCancellable)
      else
        var balances := if k in s.balances
                        then s.balances[k := s.balances[k].(used := AtLeastZero(s.balances[k].used - req.days))]
                        else s.balances;
        Made(cancelled.(balances := balances, log := s.log + [Entry(CANCELLATION, k, req.days)]))
  }

  /** Stored to two decimals; the days asked for may have more. */
  function Hundredths(days: real): int { (days + 0.5).Floor }

  function Encash(s: State, k: BalanceKey, days: real): Change {
    if days <= 0.0 then Refused(InvalidDays)
    else if k !in s.balances then Refused(NotInitialized)
    else
      var b := s.balances[k];
      if b.Available() as real < days then Refused(InsufficientBalance)
      else Made(s.(balances := s.balances[k := b.(encashed := b.encashed + Hundredths(days))]))
  }

  predicate ValidYear(year: int) { 2000 <= year <= 2200 }

  function Granted(t: LeaveType): nat {
    if t.accrual == MONTHLY then (t.entitlement + 6) / 12 else t.entitlement
  }

  function Accrue(b: Balances, e: Id, t: LeaveType, year: int): Balances {
    var k := BalanceKey(e, t.id, year);
    if k in b then b[k := b[k].(accrued := b[k].accrued + Granted(t))] else b[k := Balance(0, Granted(t), 0, 0, 0)]
  }

  function AccrueTypes(b: Balances, e: Id, types: seq<LeaveType>, year: int): Balances
    decreases |types|
  {
    if types == [] then b else AccrueTypes(Accrue(b, e, types[0], year), e, types[1..], year)
  }

  function AccrueAll(b: Balances, employees: seq<Id>, types: seq<LeaveType>, year: int): Balances
    decreases |employees|
  {
    if employees == [] then b
    else AccrueAll(AccrueTypes(b, employees[0], types, year), employees[1..], types, year)
  }

  /** Once a year; a repeated run returns the first. */
  function RunAccrual(s: State, employees: seq<Id>, types: seq<LeaveType>, year: int): Change {
    if !ValidYear(year) then Refused(InvalidYear)
    else if year in s.accrualRuns then Made(s)
    else Made(s.(balances := AccrueAll(s.balances, employees, types, year), accrualRuns := s.accrualRuns + {year}))
  }

  function Least(a: int, b: int): int { if a < b then a else b }

  function Carry(b: Balances, e: Id, t: LeaveType, year: int): Balances {
    var k := BalanceKey(e, t.id, year);
    if k !in b then b
    else
      var row := b[k];
      var carry := Least(row.opening + row.accrued - row.used - row.encashed, t.carryForwardLimit);
      b[k := Balance(AtLeastZero(carry), 0, 0, 0, row.adjusted)]
  }

  function CarryTypes(b: Balances, e: Id, types: seq<LeaveType>, year: int): Balances
    decreases |types|
  {
    if types == [] then b else CarryTypes(Carry(b, e, types[0], year), e, types[1..], year)
  }

  function CarryAll(b: Balances, employees: seq<Id>, types: seq<LeaveType>, year: int): Balances
    decreases |employees|
  {
    if employees == [] then b
    else CarryAll(CarryTypes(b, employees[0], types, year), employees[1..], types, year)
  }

  function RunPolicy(s: State, employees: seq<Id>, types: seq<LeaveType>, year: int): Change {
    Made(s.(balances := CarryAll(s.balances, employees, types, year)))
  }

  function Initialize(b: Balances, e: Id, t: LeaveType, year: int): Balances {
    var k := BalanceKey(e, t.id, year);
    if k in b then b else b[k := Balance(0, if t.accrual == ANNUAL then t.entitlement else 0, 0, 0, 0)]
  }

  function InitialEntry(b: Balances, e: Id, t: LeaveType, year: int): seq<Entry> {
    var k := BalanceKey(e, t.id, year);
    if k !in b && t.accrual == ANNUAL && t.entitlement > 0 then [Entry(ACCRUAL, k, t.entitlement)] else []
  }

  function InitializeTypes(s: State, e: Id, types: seq<LeaveType>, year: int): State
    decreases |types|
  {
    if types == [] then s
    else
      InitializeTypes(
        s.(balances := Initialize(s.balances, e, types[0], year),
          log := s.log + InitialEntry(s.balances, e, types[0], year)),
        e, types[1..], year)
  }

  function InitializeBalances(s: State, e: Id, types: seq<LeaveType>, year: int): Change {
    if !ValidYear(year) then Refused(InvalidYear) else Made(InitializeTypes(s, e, types, year))
  }

  datatype Action =
    | Ask(request: Request)
    | DecideOn(id: nat, decision: RequestStatus)
    | CancelRequest(id: nat)
    | EncashDays(key: BalanceKey, days: real)
    | AccrualRun(employees: seq<Id>, types: seq<LeaveType>, year: int)
    | PolicyRun(employees: seq<Id>, types: seq<LeaveType>, year: int)
    | Begin(employee: Id, types: seq<LeaveType>, year: int)

  function Act(s: State, a: Action): State {
    match a
    case Ask(r) => s.(requests := s.requests + [r.(status := PENDING)])
    case DecideOn(id, d) => Settle(s, Decide(s, id, d))
    case CancelRequest(id) => Settle(s, Cancel(s, id))
    case EncashDays(k, days) => Settle(s, Encash(s, k, days))
    case AccrualRun(es, types, y) => Settle(s, RunAccrual(s, es, types, y))
    case PolicyRun(es, types, y) => Settle(s, RunPolicy(s, es, types, y))
    case Begin(e, types, y) => Settle(s, InitializeBalances(s, e, types, y))
  }

  function Run(s: State, actions: seq<Action>): State
    decreases |actions|
  {
    if actions == [] then s else Run(Act(s, actions[0]), actions[1..])
  }

  const EMPTY := State(map[], [], [], {})

  // ------------------------------------------------- available stays at least 0

  predicate RowOk(b: Balance) { b.Available() >= 0 && b.used >= 0 && b.adjusted >= 0 }

  ghost predicate NeverShort(b: Balances) {
    forall k :: k in b ==> RowOk(b[k])
  }

  lemma {:induction false} AccrueAllNeverShort(b: Balances, employees: seq<Id>, types: seq<LeaveType>, year: int)
    requires NeverShort(b)
    ensures NeverShort(AccrueAll(b, employees, types, year))
    decreases |employees|
  {
    if employees != [] {
      AccrueTypesNeverShort(b, employees[0], types, year);
      AccrueAllNeverShort(AccrueTypes(b, employees[0], types, year), employees[1..], types, year);
    }
  }

  lemma {:induction false} AccrueTypesNeverShort(b: Balances, e: Id, types: seq<LeaveType>, year: int)
    requires NeverShort(b)
    ensures NeverShort(AccrueTypes(b, e, types, year))
    decreases |types|
  {
    if types != [] {
      AccrueTypesNeverShort(Accrue(b, e, types[0], year), e, types[1..], year);
    }
  }

  lemma {:induction false} CarryAllNeverShort(b: Balances, employees: seq<Id>, types: seq<LeaveType>, year: int)
    requires NeverShort(b)
    ensures NeverShort(CarryAll(b, employees, types, year))
    decreases |employees|
  {
    if employees != [] {
      CarryTypesNeverShort(b, employees[0], types, year);
      CarryAllNeverShort(CarryTypes(b, employees[0], types, year), employees[1..], types, year);
    }
  }

  lemma {:induction false} CarryTypesNeverShort(b: Balances, e: Id, types: seq<LeaveType>, year: int)
    requires NeverShort(b)
    ensures NeverShort(CarryTypes(b, e, types, year))
    decreases |types|
  {
    if types != [] {
      CarryTypesNeverShort(Carry(b, e, types[0], year), e, types[1..], year);
    }
  }

  lemma {:induction false} InitializeNeverShort(s: State, e: Id, types: seq<LeaveType>, year: int)
    requires NeverShort(s.balances)
    ensures NeverShort(InitializeTypes(s, e, types, year).balances)
    decreases |types|
  {
    if types != [] {
      InitializeNeverShort(
        s.(balances := Initialize(s.balances, e, types[0], year),
          log := s.log + InitialEntry(s.balances, e, types[0], year)),
        e, types[1..], year);
    }
  }

  /** Rounding the days asked for never takes more than was there. */
  lemma RoundedDaysFit(available: int, days: real)
    requires 0.0 < days <= available as real
    ensures 0 <= Hundredths(days) <= available
  {
  }

  lemma ActNeverShort(s: State, a: Action)
    requires NeverShort(s.balances)
    ensures NeverShort(Act(s, a).balances)
  {
    match a
    case EncashDays(k, days) =>
      if Encash(s, k, days).Made? {
        RoundedDaysFit(s.balances[k].Available(), days);
      }
    case AccrualRun(es, types, y) => AccrueAllNeverShort(s.balances, es, types, y);
    case PolicyRun(es, types, y) => CarryAllNeverShort(s.balances, es, types, y);
    case Begin(e, types, y) => InitializeNeverShort(s, e, types, y);
    case _ =>
  }

  /** Whatever the run, no balance's available leave becomes negative. */
  lemma {:induction false} EveryRunNeverShort(s: State, actions: seq<Action>)
    requires NeverShort(s.balances)
    ensures NeverShort(Run(s, actions).balances)
    decreases |actions|
  {
    if actions != [] {
      ActNeverShort(s, actions[0]);
      EveryRunNeverShort(Act(s, actions[0]), actions[1..]);
    }
  }

  /** A carry-forward leaves what it carried plus the adjustment, so a negative adjustment can show. */
  lemma CarryLeavesAdjustment(b: Balances, e: Id, t: LeaveType, year: int)
    requires BalanceKey(e, t.id, year) in b
    ensures var k := BalanceKey(e, t.id, year);
            var before, after := b[k], Carry(b, e, t, year)[k];
            && after.Available() - before.adjusted
               == AtLeastZero(Least(before.Available() - before.adjusted, t.carryForwardLimit))
            && (before.adjusted >= 0 ==> after.Available() >= 0)
            && (t.carryForwardLimit <= 0 ==> (after.Available() >= 0 <==> before.adjusted >= 0))
  {
  }

  // ------------------------------------------------ used against the leave log

  function Counted(e: Entry, k: BalanceKey): int {
    if e.key != k then 0 else if e.kind == USAGE then e.amount else if e.kind == CANCELLATION then -e.amount else 0
  }

  /** Usage minus cancellations in the log. */
  function Logged(log: seq<Entry>, k: BalanceKey): int {
    if log == [] then 0 else Logged(log[..|log| - 1], k) + Counted(log[|log| - 1], k)
  }

  function UsedAt(b: Balances, k: BalanceKey): int { if k in b then b[k].used else 0 }

  function ApprovedFor(r: Request, k: BalanceKey): nat {
    if r.status == APPROVED && r.ApprovalKey() == k then r.days else 0
  }

  /** The days of the requests that stand approved against a balance. */
  function ApprovedDays(requests: seq<Request>, k: BalanceKey): nat {
    if requests == [] then 0 else ApprovedDays(requests[..|requests| - 1], k) + ApprovedFor(requests[|requests| - 1], k)
  }

  lemma {:induction false} ApprovedUpdate(requests: seq<Request>, i: nat, r: Request, k: BalanceKey)
    requires i < |requests|
    ensures ApprovedDays(requests[i := r], k) ==
      ApprovedDays(requests, k) - ApprovedFor(requests[i], k) + ApprovedFor(r, k)
    ensures ApprovedDays(requests, k) >= ApprovedFor(requests[i], k)
  {
    var n := |requests| - 1;
    if i == n {
      assert requests[i := r][..n] == requests[..n];
    } else {
      assert requests[i := r][..n] == requests[..n][i := r];
      ApprovedUpdate(requests[..n], i, r, k);
    }
  }

  lemma LoggedAppend(log: seq<Entry>, e: Entry, k: BalanceKey)
    ensures Logged(log + [e], k) == Logged(log, k) + Counted(e, k)
  {
    assert (log + [e])[..|log|] == log;
  }

  ghost predicate AgreesAt(s: State, k: BalanceKey) {
    && UsedAt(s.balances, k) == Logged(s.log, k)
    && ApprovedDays(s.requests, k) <= UsedAt(s.balances, k)
  }

  ghost predicate Agrees(s: State) { forall k :: AgreesAt(s, k) }

  /** Both years of a request's start date are the same. */
  ghost predicate OneYear(requests: seq<Request>) {
    forall i :: 0 <= i < |requests| ==> requests[i].sqlYear == requests[i].utcYear
  }

  lemma {:induction false} AccrueTypesKeepsUsed(b: Balances, e: Id, types: seq<LeaveType>, year: int, k: BalanceKey)
    ensures UsedAt(AccrueTypes(b, e, types, year), k) == UsedAt(b, k)
    decreases |types|
  {
    if types != [] {
      AccrueTypesKeepsUsed(Accrue(b, e, types[0], year), e, types[1..], year, k);
    }
  }

  lemma {:induction false} AccrueAllKeepsUsed(b: Balances, es: seq<Id>, types: seq<LeaveType>, year: int, k: BalanceKey)
    ensures UsedAt(AccrueAll(b, es, types, year), k) == UsedAt(b, k)
    decreases |es|
  {
    if es != [] {
      AccrueTypesKeepsUsed(b, es[0], types, year, k);
      AccrueAllKeepsUsed(AccrueTypes(b, es[0], types, year), es[1..], types, year, k);
    }
  }

  lemma {:induction false} InitializeKeepsUsed(s: State, e: Id, types: seq<LeaveType>, year: int, k: BalanceKey)
    ensures var s' := InitializeTypes(s, e, types, year);
            && UsedAt(s'.balances, k) == UsedAt(s.balances, k) && Logged(s'.log, k) == Logged(s.log, k)
            && s'.requests == s.requests
    decreases |types|
  {
    if types != [] {
      var entry := InitialEntry(s.balances, e, types[0], year);
      if entry != [] {
        LoggedAppend(s.log, entry[0], k);
      } else {
        assert s.log + entry == s.log;
      }
      InitializeKeepsUsed(
        s.(balances := Initialize(s.balances, e, types[0], year), log := s.log + entry), e, types[1..], year, k);
    }
  }

  lemma DecideKeepsAgreement(s: State, id: nat, d: RequestStatus, k: BalanceKey)
    requires Agrees(s) && Decide(s, id, d).Made?
    ensures AgreesAt(Decide(s, id, d).state, k)
  {
    var req := s.requests[id];
    assert AgreesAt(s, k);
    ApprovedUpdate(s.requests, id, req.(status := d), k);
    if d == APPROVED {
      LoggedAppend(s.log, Entry(USAGE, req.ApprovalKey(), req.days), k);
    }
  }

  /** While both years agree, a cancellation takes back at most what the balance shows as used. */
  lemma CancelKeepsAgreement(s: State, id: nat, k: BalanceKey)
    requires Agrees(s) && OneYear(s.requests) && Cancel(s, id).Made?
    ensures AgreesAt(Cancel(s, id).state, k)
    ensures s.requests[id].status == APPROVED ==>
              UsedAt(s.balances, s.requests[id].CancelKey()) >= s.requests[id].days
  {
    var req := s.requests[id];
    assert AgreesAt(s, k) && AgreesAt(s, req.CancelKey());
    assert req.CancelKey() == req.ApprovalKey();
    ApprovedUpdate(s.requests, id, req.(status := CANCELLED), k);
    ApprovedUpdate(s.requests, id, req.(status := CANCELLED), req.CancelKey());
    if req.status == APPROVED {
      LoggedAppend(s.log, Entry(CANCELLATION, req.CancelKey(), req.days), k);
    }
  }

  predicate WithoutPolicy(actions: seq<Action>) {
    forall i :: 0 <= i < |actions| ==> !actions[i].PolicyRun?
  }

  ghost predicate AsksInOneYear(actions: seq<Action>) {
    forall i :: 0 <= i < |actions| && actions[i].Ask? ==> actions[i].request.sqlYear == actions[i].request.utcYear
  }

  lemma ActKeepsAgreement(s: State, a: Action)
    requires Agrees(s) && OneYear(s.requests) && !a.PolicyRun?
    requires a.Ask? ==> a.request.sqlYear == a.request.utcYear
    ensures Agrees(Act(s, a)) && OneYear(Act(s, a).requests)
  {
    if a.Begin? {
      InitializeKeepsUsed(s, a.employee, a.types, a.year, BalanceKey(0, 0, 0));
    }
    forall k ensures AgreesAt(Act(s, a), k) {
      assert AgreesAt(s, k);
      match a
      case Ask(r) => assert (s.requests + [r.(status := PENDING)])[..|s.requests|] == s.requests;
      case DecideOn(id, d) =>
        if Decide(s, id, d).Made? {
          DecideKeepsAgreement(s, id, d, k);
        }
      case CancelRequest(id) =>
        if Cancel(s, id).Made? {
          CancelKeepsAgreement(s, id, k);
        }
      case EncashDays(_, _) =>
      case AccrualRun(es, types, y) => AccrueAllKeepsUsed(s.balances, es, types, y, k);
      case Begin(e, types, y) => InitializeKeepsUsed(s, e, types, y, k);
    }
  }

  lemma {:induction false} EveryRunAgrees(s: State, actions: seq<Action>)
    requires Agrees(s) && OneYear(s.requests) && WithoutPolicy(actions) && AsksInOneYear(actions)
    ensures Agrees(Run(s, actions)) && OneYear(Run(s, actions).requests)
    decreases |actions|
  {
    if actions != [] {
      ActKeepsAgreement(s, actions[0]);
      EveryRunAgrees(Act(s, actions[0]), actions[1..]);
    }
  }

  /**
    From empty tables, without carry-forward runs and with one year per request: what is used
    is usage minus cancellations in the log, and the floor at zero never acts.
   */
  lemma UsedIsLogged(actions: seq<Action>, id: nat)
    requires WithoutPolicy(actions) && AsksInOneYear(actions)
    ensures var s := Run(EMPTY, actions);
            && (forall k :: UsedAt(s.balances, k) == Logged(s.log, k))
            && (id < |s.requests| && s.requests[id].status == APPROVED ==>
                  && s.requests[id].CancelKey() in s.balances
                  && AtLeastZero(s.balances[s.requests[id].CancelKey()].used - s.requests[id].days)
                     == s.balances[s.requests[id].CancelKey()].used - s.requests[id].days)
  {
    assert Agrees(EMPTY) && OneYear(EMPTY.requests) && HasBalances(EMPTY);
    EveryRunAgrees(EMPTY, actions);
    EveryRunHasBalances(EMPTY, actions);
    var s := Run(EMPTY, actions);
    forall k ensures UsedAt(s.balances, k) == Logged(s.log, k) {
      assert AgreesAt(s, k);
    }
    if id < |s.requests| && s.requests[id].status == APPROVED {
      CancelKeepsAgreement(s, id, s.requests[id].CancelKey());
    }
  }

  /** An approved request has a balance, since approving needs one and none is removed. */
  ghost predicate HasBalances(s: State) {
    forall i :: 0 <= i < |s.requests| && s.requests[i].status == APPROVED ==> s.requests[i].ApprovalKey() in s.balances
  }

  lemma {:induction false} AccrueKeepsKeys(b: Balances, es: seq<Id>, types: seq<LeaveType>, year: int, k: BalanceKey)
    requires k in b
    ensures k in AccrueAll(b, es, types, year)
    decreases |es|
  {
    if es != [] {
      AccrueTypesKeepsKeys(b, es[0], types, year, k);
      AccrueKeepsKeys(AccrueTypes(b, es[0], types, year), es[1..], types, year, k);
    }
  }

  lemma {:induction false} AccrueTypesKeepsKeys(b: Balances, e: Id, types: seq<LeaveType>, year: int, k: BalanceKey)
    requires k in b
    ensures k in AccrueTypes(b, e, types, year)
    decreases |types|
  {
    if types != [] {
      AccrueTypesKeepsKeys(Accrue(b, e, types[0], year), e, types[1..], year, k);
    }
  }

  lemma {:induction false} InitializeKeepsKeys(s: State, e: Id, types: seq<LeaveType>, year: int, k: BalanceKey)
    requires k in s.balances
    ensures k in InitializeTypes(s, e, types, year).balances
    ensures InitializeTypes(s, e, types, year).requests == s.requests
    decreases |types|
  {
    if types != [] {
      InitializeKeepsKeys(
        s.(balances := Initialize(s.balances, e, types[0], year),
          log := s.log + InitialEntry(s.balances, e, types[0], year)),
        e, types[1..], year, k);
    }
  }

  lemma ActKeepsKey(s: State, a: Action, k: BalanceKey)
    requires k in s.balances && !a.PolicyRun?
    ensures k in Act(s, a).balances
  {
    match a
    case AccrualRun(es, types, y) => AccrueKeepsKeys(s.balances, es, types, y, k);
    case Begin(e, types, y) => InitializeKeepsKeys(s, e, types, y, k);
    case _ =>
  }

  lemma ActKeepsBalances(s: State, a: Action)
    requires HasBalances(s) && !a.PolicyRun?
    ensures HasBalances(Act(s, a))
  {
    var s' := Act(s, a);
    if a.Begin? {
      InitializeKeepsUsed(s, a.employee, a.types, a.year, BalanceKey(0, 0, 0));
    }
    forall i | 0 <= i < |s'.requests| && s'.requests[i].status == APPROVED
      ensures s'.requests[i].ApprovalKey() in s'.balances
    {
      if s'.requests[i].ApprovalKey() in s.balances {
        ActKeepsKey(s, a, s'.requests[i].ApprovalKey());
      }
    }
  }

  lemma {:induction false} EveryRunHasBalances(s: State, actions: seq<Action>)
    requires HasBalances(s) && WithoutPolicy(actions)
    ensures HasBalances(Run(s, actions))
    decreases |actions|
  {
    if actions != [] {
      ActKeepsBalances(s, actions[0]);
      EveryRunHasBalances(Act(s, actions[0]), actions[1..]);
    }
  }

  /**
    For any request, one year or two: cancelling it while approved keeps used equal to the log
    everywhere exactly when the balance of the UTC year shows at least its days as used.
   */
  lemma CancelAgreesExactly(s: State, id: nat)
    requires NeverShort(s.balances) && (forall k :: UsedAt(s.balances, k) == Logged(s.log, k))
    requires id < |s.requests| && s.requests[id].status == APPROVED
    ensures var s' := Cancel(s, id).state;
            (forall k :: UsedAt(s'.balances, k) == Logged(s'.log, k)) <==>
              UsedAt(s.balances, s.requests[id].CancelKey()) >= s.requests[id].days
  {
    var req, s' := s.requests[id], Cancel(s, id).state;
    var key := req.CancelKey();
    LoggedAppend(s.log, Entry(CANCELLATION, key, req.days), key);
    if UsedAt(s.balances, key) >= req.days {
      forall k ensures UsedAt(s'.balances, k) == Logged(s'.log, k) {
        LoggedAppend(s.log, Entry(CANCELLATION, key, req.days), k);
      }
    } else {
      assert UsedAt(s'.balances, key) != Logged(s'.log, key);
    }
  }

  /** A start date of 1 January read east of Greenwich: approval and cancellation hit different years. */
  function NewYear(): Request { Request(0, 0, 2026, 2025, 100, PENDING) }

  /** Its cancellation gives nothing back and logs against the year before. */
  lemma TwoYearsDisagree()
    ensures var key := BalanceKey(0, 0, 2026);
            var s := State(map[key := Balance(0, 500, 0, 0, 0)], [NewYear()], [], {2026});
            var approved := Act(s, DecideOn(0, APPROVED));
            var end := Act(approved, CancelRequest(0));
            && Agrees(s) && end.requests[0].status == CANCELLED
            && end.balances[key].used == 100
            && Logged(end.log, BalanceKey(0, 0, 2025)) == -100 && UsedAt(end.balances, BalanceKey(0, 0, 2025)) == 0
  {
    var key, other := BalanceKey(0, 0, 2026), BalanceKey(0, 0, 2025);
    var s := State(map[key := Balance(0, 500, 0, 0, 0)], [NewYear()], [], {2026});
    forall k ensures AgreesAt(s, k) {
      assert s.requests[..0] == [];
      assert ApprovedDays(s.requests, k) == ApprovedDays(s.requests[..0], k) + ApprovedFor(s.requests[0], k);
    }
    var approved := Act(s, DecideOn(0, APPROVED));
    LoggedAppend([], Entry(USAGE, key, 100), other);
    assert approved.log == [] + [Entry(USAGE, key, 100)];
    LoggedAppend(approved.log, Entry(CANCELLATION, other, 100), other);
  }
}
