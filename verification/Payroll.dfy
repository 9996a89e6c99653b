/**
  Payroll runs and their payslips.  Amounts are real numbers of cents; storing one in a
  two-decimal column rounds it to a whole cent, halves away from zero.
 */
module Payroll {
  import opened Wrappers

  type Id = nat

  /**
    What the queries give for one active employee; each employee appears once.  An adjustment
    may have either sign, so any of the sums may be negative.
   */
  datatype Employee = Employee(
    id: Id, gross: int, attendance: real, earnings: int, reimbursement: int, deductions: int, loan: int)

  datatype Payslip = Payslip(employee: Id, gross: int, deductions: int, net: int)

  datatype RunStatus = DRAFT | CALCULATED | APPROVED | CLOSED | REVERSED

  datatype PayrollRun = PayrollRun(
    status: RunStatus, employeeCount: nat, grossTotal: int, deductionTotal: int, netTotal: int, payslips: seq<Payslip>)

  datatype PayrollError = AlreadyApproved | NotCalculated | NotApproved | NotClosed

  datatype Issue = NegativeNet | EmployeeCountMismatch | DuplicatePayslip(employee: Id)

  // ----------------------------------------------------------------- rounding

  /** A whole number of cents, halves away from zero. */
  function Cents(x: real): int {
    if x >= 0.0 then (x + 0.5).Floor else -((-x + 0.5).Floor)
  }

  lemma CentsIsNear(x: real)
    ensures -0.5 <= Cents(x) as real - x <= 0.5
  {
  }

  lemma CentsOfWhole(n: int)
    ensures Cents(n as real) == n
  {
  }

  /** The whole cent below, or the one above from the middle on; a middle below zero goes down. */
  lemma CentsByFraction(x: real)
    ensures var f := x - x.Floor as real;
            Cents(x) == x.Floor + (if f > 0.5 || (f == 0.5 && x >= 0.0) then 1 else 0)
  {
    var f := x - x.Floor as real;
    var n := x.Floor + (if f > 0.5 || (f == 0.5 && x >= 0.0) then 1 else 0);
    if x >= 0.0 {
      assert n as real <= x + 0.5 < n as real + 1.0;
    } else {
      assert (-n) as real <= -x + 0.5 < (-n) as real + 1.0;
    }
  }

  /** What the rounding of an amount takes away from it. */
  function Loss(x: real): real { x - Cents(x) as real }

  /** The losses for which an amount still rounds to what it lost them from. */
  predicate RoundsAway(loss: real, amount: real) {
    if amount >= 0.0 then -0.5 <= loss < 0.5 else -0.5 < loss <= 0.5
  }

  lemma CentsExactly(x: real, n: int)
    ensures Cents(x) == n <==> RoundsAway(x - n as real, x)
  {
    if x >= 0.0 {
      assert Cents(x) == n <==> n as real <= x + 0.5 < n as real + 1.0;
    } else {
      assert Cents(x) == n <==> (-n) as real <= -x + 0.5 < (-n) as real + 1.0;
    }
  }

  // ----------------------------------------------------------------- one slip

  /** Attendance is counted inside the period, so there is none when the period has no days. */
  function PayableFactor(attendance: real, periodDays: int): real {
    if attendance > 0.0 && periodDays > 0 then
      if attendance / periodDays as real < 1.0 then attendance / periodDays as real else 1.0
    else 1.0
  }

  function Earning(e: Employee, periodDays: int): real {
    e.gross as real * PayableFactor(e.attendance, periodDays) + e.earnings as real + e.reimbursement as real
  }

  function Deductions(e: Employee): int { e.deductions + e.loan }

  function SlipOf(e: Employee, periodDays: int): Payslip {
    Payslip(e.id, Cents(Earning(e, periodDays)), Deductions(e), Cents(Earning(e, periodDays) - Deductions(e) as real))
  }

  function Slips(emps: seq<Employee>, periodDays: int): (r: seq<Payslip>)
    ensures |r| == |emps| && forall i :: 0 <= i < |r| ==> r[i] == SlipOf(emps[i], periodDays)
  {
    seq(|emps|, i requires 0 <= i < |emps| => SlipOf(emps[i], periodDays))
  }

  function TotalEarning(emps: seq<Employee>, periodDays: int): real {
    if emps == [] then 0.0
    else TotalEarning(emps[..|emps| - 1], periodDays) + Earning(emps[|emps| - 1], periodDays)
  }

  function TotalDeductions(emps: seq<Employee>): int {
    if emps == [] then 0 else TotalDeductions(emps[..|emps| - 1]) + Deductions(emps[|emps| - 1])
  }

  function SumGross(slips: seq<Payslip>): int {
    if slips == [] then 0 else SumGross(slips[..|slips| - 1]) + slips[|slips| - 1].gross
  }

  function SumDeductions(slips: seq<Payslip>): int {
    if slips == [] then 0 else SumDeductions(slips[..|slips| - 1]) + slips[|slips| - 1].deductions
  }

  function SumNet(slips: seq<Payslip>): int {
    if slips == [] then 0 else SumNet(slips[..|slips| - 1]) + slips[|slips| - 1].net
  }

  // --------------------------------------------------------------- operations

  function Calculate(r: PayrollRun, emps: seq<Employee>, periodDays: int): Result<PayrollRun, PayrollError> {
    if r.status == APPROVED || r.status == CLOSED then Err(AlreadyApproved)
    else
      var gross, deductions := TotalEarning(emps, periodDays), TotalDeductions(emps) as real;
      Ok(PayrollRun(CALCULATED, |emps|, Cents(gross), Cents(deductions), Cents(gross - deductions),
        Slips(emps, periodDays)))
  }

  function Approve(r: PayrollRun): Result<PayrollRun, PayrollError> {
    if r.status == CALCULATED then Ok(r.(status := APPROVED)) else Err(NotCalculated)
  }

  function Close(r: PayrollRun): Result<PayrollRun, PayrollError> {
    if r.status == APPROVED then Ok(r.(status := CLOSED)) else Err(NotApproved)
  }

  function Reverse(r: PayrollRun): Result<PayrollRun, PayrollError> {
    if r.status == CLOSED then Ok(r.(status := REVERSED)) else Err(NotClosed)
  }

  predicate HasDuplicate(slips: seq<Payslip>, employee: Id) {
    exists i, j :: 0 <= i < j < |slips| && slips[i].employee == employee && slips[j].employee == employee
  }

  /** The issues a validation reports, as a set. */
  ghost predicate Reports(r: PayrollRun, issue: Issue) {
    match issue
    case NegativeNet => r.netTotal < 0
    case EmployeeCountMismatch => r.employeeCount != |r.payslips|
    case DuplicatePayslip(e) => HasDuplicate(r.payslips, e)
  }

  // ------------------------------------------------------ the run as imperative

  class RunRecord {
    var status: RunStatus
    var employeeCount: nat
    var grossTotal: int
    var deductionTotal: int
    var netTotal: int
    var payslips: seq<Payslip>

    constructor ()
      ensures Now() == PayrollRun(DRAFT, 0, 0, 0, 0, [])
    {
      status, employeeCount, grossTotal, deductionTotal, netTotal, payslips := DRAFT, 0, 0, 0, 0, [];
    }

    function Now(): PayrollRun
      reads this
    {
      PayrollRun(status, employeeCount, grossTotal, deductionTotal, netTotal, payslips)
    }

    method CalculatePayroll(emps: seq<Employee>, periodDays: int) returns (refused: Option<PayrollError>)
      modifies this
      ensures var c := Calculate(old(Now()), emps, periodDays);
              && refused == (if c.Err? then Some(c.error) else None)
              && Now() == (if c.Ok? then c.value else old(Now()))
    {
      if status == APPROVED || status == CLOSED {
        return Some(AlreadyApproved);
      }
      payslips := [];
      var grossSum: real, deductionSum: real := 0.0, 0.0;
      for i := 0 to |emps|
        invariant status == old(status) && payslips == Slips(emps[..i], periodDays)
        invariant grossSum == TotalEarning(emps[..i], periodDays) && deductionSum == TotalDeductions(emps[..i]) as real
      {
        var earning := Earning(emps[i], periodDays);
        var deductions := emps[i].deductions + emps[i].loan;
        assert emps[..i + 1][..i] == emps[..i];
        grossSum := grossSum + earning;
        deductionSum := deductionSum + deductions as real;
        payslips := payslips + [Payslip(emps[i].id, Cents(earning), deductions, Cents(earning - deductions as real))];
      }
      assert emps[..|emps|] == emps;
      employeeCount, grossTotal, deductionTotal := |emps|, Cents(grossSum), Cents(deductionSum);
      netTotal := Cents(grossSum - deductionSum);
      status := CALCULATED;
      return None;
    }

    method ApprovePayroll() returns (refused: Option<PayrollError>)
      modifies this
      ensures var c := Approve(old(Now()));
              refused == (if c.Err? then Some(c.error) else None) && Now() == (if c.Ok? then c.value else old(Now()))
    {
      if status != CALCULATED {
        return Some(NotCalculated);
      }
      status := APPROVED;
      return None;
    }

    method ClosePayroll() returns (refused: Option<PayrollError>)
      modifies this
      ensures var c := Close(old(Now()));
              refused == (if c.Err? then Some(c.error) else None) && Now() == (if c.Ok? then c.value else old(Now()))
    {
      if status != APPROVED {
        return Some(NotApproved);
      }
      status := CLOSED;
      return None;
    }

    method ReversePayroll() returns (refused: Option<PayrollError>)
      modifies this
      ensures var c := Reverse(old(Now()));
              refused == (if c.Err? then Some(c.error) else None) && Now() == (if c.Ok? then c.value else old(Now()))
    {
      if status != CLOSED {
        return Some(NotClosed);
      }
      status := REVERSED;
      return None;
    }

    /** The three checks; the list names each issue that holds. */
    method ValidatePayroll() returns (issues: seq<Issue>, passed: bool)
      ensures forall issue :: issue in issues <==> Reports(Now(), issue)
      ensures passed <==> issues == []
    {
      issues := [];
      if netTotal < 0 {
        issues := issues + [NegativeNet];
      }
      if employeeCount != |payslips| {
        issues := issues + [EmployeeCountMismatch];
      }
      ghost var found := issues;
      for i := 0 to |payslips|
        invariant forall issue :: issue in issues ==>
          issue in found || (issue.DuplicatePayslip? && HasDuplicate(payslips, issue.employee))
        invariant forall issue :: issue in found ==> issue in issues
        invariant forall m, n :: 0 <= m < n < i && payslips[m].employee == payslips[n].employee ==>
          DuplicatePayslip(payslips[m].employee) in issues
      {
        var e := payslips[i].employee;
        if (exists m :: 0 <= m < i && payslips[m].employee == e) && DuplicatePayslip(e) !in issues {
          issues := issues + [DuplicatePayslip(e)];
        }
      }
      passed := issues == [];
      forall e | HasDuplicate(payslips, e) ensures DuplicatePayslip(e) in issues {
        var i, j :| 0 <= i < j < |payslips| && payslips[i].employee == e && payslips[j].employee == e;
      }
    }
  }

  // -------------------------------------------------- totals against payslips

  lemma {:induction false} DeductionsAddUp(emps: seq<Employee>, periodDays: int)
    ensures SumDeductions(Slips(emps, periodDays)) == TotalDeductions(emps)
  {
    if emps != [] {
      var n := |emps| - 1;
      assert Slips(emps, periodDays)[..n] == Slips(emps[..n], periodDays);
      DeductionsAddUp(emps[..n], periodDays);
    }
  }

  /** How far the payslips' rounded amounts are from what the run added up. */
  lemma {:induction false} GrossIsNear(emps: seq<Employee>, periodDays: int)
    ensures -0.5 * |emps| as real <= TotalEarning(emps, periodDays) - SumGross(Slips(emps, periodDays)) as real
         <= 0.5 * |emps| as real
    ensures -0.5 * |emps| as real
         <= TotalEarning(emps, periodDays) - TotalDeductions(emps) as real - SumNet(Slips(emps, periodDays)) as real
         <= 0.5 * |emps| as real
  {
    if emps != [] {
      var n := |emps| - 1;
      assert Slips(emps, periodDays)[..n] == Slips(emps[..n], periodDays);
      GrossIsNear(emps[..n], periodDays);
      CentsIsNear(Earning(emps[n], periodDays));
      CentsIsNear(Earning(emps[n], periodDays) - Deductions(emps[n]) as real);
    }
  }

  /**
    A payslip's net is its gross less its deductions, except when the earning ends in half a
    cent and taking off the deductions changes its sign: then the two halves round in opposite
    directions.
   */
  lemma SlipNetExactly(e: Employee, periodDays: int)
    ensures var x := Earning(e, periodDays);
            var slip := SlipOf(e, periodDays);
            slip.net == slip.gross - slip.deductions <==>
              !(x - x.Floor as real == 0.5 && (x < 0.0) != (x < slip.deductions as real))
  {
    var x, d := Earning(e, periodDays), Deductions(e);
    CentsByFraction(x);
    CentsByFraction(x - d as real);
    assert (x - d as real).Floor == x.Floor - d;
  }

  ghost predicate WholeCents(emps: seq<Employee>, periodDays: int) {
    forall i :: 0 <= i < |emps| ==> Earning(emps[i], periodDays).Floor as real == Earning(emps[i], periodDays)
  }

  lemma {:induction false} WholeCentsAddUp(emps: seq<Employee>, periodDays: int)
    requires WholeCents(emps, periodDays)
    ensures TotalEarning(emps, periodDays) == SumGross(Slips(emps, periodDays)) as real
    ensures SumNet(Slips(emps, periodDays)) ==
      SumGross(Slips(emps, periodDays)) - SumDeductions(Slips(emps, periodDays))
  {
    if emps != [] {
      var n := |emps| - 1;
      assert Slips(emps, periodDays)[..n] == Slips(emps[..n], periodDays);
      WholeCentsAddUp(emps[..n], periodDays);
      var x := Earning(emps[n], periodDays);
      CentsOfWhole(x.Floor);
      CentsOfWhole(x.Floor - Deductions(emps[n]));
      assert x - Deductions(emps[n]) as real == (x.Floor - Deductions(emps[n])) as real;
    }
  }

  /**
    After a calculation the count and the deductions are those of the payslips; gross and net
    are within half a cent per payslip and half a cent more, and equal when every earning is
    a whole number of cents.
   */
  lemma TotalsFollowPayslips(r: PayrollRun, emps: seq<Employee>, periodDays: int)
    requires Calculate(r, emps, periodDays).Ok?
    ensures var run := Calculate(r, emps, periodDays).value;
            var slack := 0.5 * (|emps| as real + 1.0);
            && run.employeeCount == |run.payslips| == |emps|
            && run.deductionTotal == SumDeductions(run.payslips)
            && -slack <= (run.grossTotal - SumGross(run.payslips)) as real <= slack
            && -slack <= (run.netTotal - SumNet(run.payslips)) as real <= slack
            && (WholeCents(emps, periodDays) ==>
                  run.grossTotal == SumGross(run.payslips) && run.netTotal == SumNet(run.payslips)
                  && run.netTotal == run.grossTotal - run.deductionTotal)
  {
    DeductionsAddUp(emps, periodDays);
    CentsOfWhole(TotalDeductions(emps));
    GrossIsNear(emps, periodDays);
    var gross, net := TotalEarning(emps, periodDays), TotalEarning(emps, periodDays) - TotalDeductions(emps) as real;
    CentsIsNear(gross);
    CentsIsNear(net);
    if WholeCents(emps, periodDays) {
      WholeCentsAddUp(emps, periodDays);
      CentsOfWhole(SumGross(Slips(emps, periodDays)));
      CentsOfWhole(SumGross(Slips(emps, periodDays)) - TotalDeductions(emps));
      assert net == (SumGross(Slips(emps, periodDays)) - TotalDeductions(emps)) as real;
    }
  }

  /** What the rounding of each payslip's gross takes away, over all employees. */
  function GrossLoss(emps: seq<Employee>, periodDays: int): real {
    if emps == [] then 0.0
    else GrossLoss(emps[..|emps| - 1], periodDays) + Loss(Earning(emps[|emps| - 1], periodDays))
  }

  /** And what the rounding of each payslip's net takes away. */
  function NetLoss(emps: seq<Employee>, periodDays: int): real {
    if emps == [] then 0.0
    else
      var e := emps[|emps| - 1];
      NetLoss(emps[..|emps| - 1], periodDays) + Loss(Earning(e, periodDays) - Deductions(e) as real)
  }

  /** What the run added up is what the payslips say and what their rounding took away. */
  lemma {:induction false} LossesAddUp(emps: seq<Employee>, periodDays: int)
    ensures TotalEarning(emps, periodDays) == SumGross(Slips(emps, periodDays)) as real + GrossLoss(emps, periodDays)
    ensures TotalEarning(emps, periodDays) - TotalDeductions(emps) as real
         == SumNet(Slips(emps, periodDays)) as real + NetLoss(emps, periodDays)
  {
    if emps != [] {
      var n := |emps| - 1;
      assert Slips(emps, periodDays)[..n] == Slips(emps[..n], periodDays);
      LossesAddUp(emps[..n], periodDays);
    }
  }

  /**
    The gross total equals the payslips' sum exactly when what their rounding takes away adds
    up to no more than half a cent, half a cent itself counting on one side only.
   */
  lemma GrossAgreesExactly(r: PayrollRun, emps: seq<Employee>, periodDays: int)
    requires Calculate(r, emps, periodDays).Ok?
    ensures var run := Calculate(r, emps, periodDays).value;
            run.grossTotal == SumGross(run.payslips)
            <==> RoundsAway(GrossLoss(emps, periodDays), TotalEarning(emps, periodDays))
  {
    LossesAddUp(emps, periodDays);
    CentsExactly(TotalEarning(emps, periodDays), SumGross(Slips(emps, periodDays)));
  }

  /** The same for the net total. */
  lemma NetAgreesExactly(r: PayrollRun, emps: seq<Employee>, periodDays: int)
    requires Calculate(r, emps, periodDays).Ok?
    ensures var run := Calculate(r, emps, periodDays).value;
            run.netTotal == SumNet(run.payslips)
            <==> RoundsAway(NetLoss(emps, periodDays), TotalEarning(emps, periodDays) - TotalDeductions(emps) as real)
  {
    LossesAddUp(emps, periodDays);
    CentsExactly(TotalEarning(emps, periodDays) - TotalDeductions(emps) as real, SumNet(Slips(emps, periodDays)));
  }

  lemma HalfPaid(id: Id)
    ensures Earning(Employee(id, 10001, 15.0, 0, 0, 0, 0), 30) == 5000.5
    ensures SlipOf(Employee(id, 10001, 15.0, 0, 0, 0, 0), 30).gross == 5001
  {
    assert 15.0 / 30.0 == 0.5 && 10001.0 * 0.5 == 5000.5;
    assert (5001.0).Floor == 5001;
  }

  lemma SumOfTwo(a: Employee, b: Employee, periodDays: int)
    ensures TotalEarning([a, b], periodDays) == Earning(a, periodDays) + Earning(b, periodDays)
    ensures SumGross(Slips([a, b], periodDays)) == SlipOf(a, periodDays).gross + SlipOf(b, periodDays).gross
  {
    assert [a, b][..1] == [a] && [a][..0] == [];
    var slips := Slips([a, b], periodDays);
    assert slips[..1] == [slips[0]] && slips[..1][..0] == [];
    assert TotalEarning([a], periodDays) == TotalEarning([a][..0], periodDays) + Earning(a, periodDays);
    assert SumGross(slips[..1]) == SumGross(slips[..1][..0]) + slips[0].gross;
  }

  lemma PairTotals(r: PayrollRun, a: Employee, b: Employee, periodDays: int)
    requires Calculate(r, [a, b], periodDays).Ok?
    requires Earning(a, periodDays) == 5000.5 && Earning(b, periodDays) == 5000.5
    ensures var run := Calculate(r, [a, b], periodDays).value;
            run.grossTotal == 10001 && SumGross(run.payslips) == 10002
  {
    SumOfTwo(a, b, periodDays);
    assert Cents(5000.5) == 5001;
    CentsOfWhole(10001);
  }

  function HalfPaidEmployee(id: Id): Employee { Employee(id, 10001, 15.0, 0, 0, 0, 0) }

  /** Two half-paid employees: each payslip rounds up, the run does not. */
  lemma HalfCentsDisagree(r: PayrollRun, a: Employee, b: Employee, periodDays: int)
    requires r.status == DRAFT && a == HalfPaidEmployee(1) && b == HalfPaidEmployee(2) && periodDays == 30
    ensures var run := Calculate(r, [a, b], periodDays);
            run.Ok? && run.value.grossTotal == 10001 && SumGross(run.value.payslips) == 10002
  {
    HalfPaid(1);
    HalfPaid(2);
    PairTotals(r, a, b, periodDays);
  }

  ghost predicate DistinctEmployees(emps: seq<Employee>) {
    forall i, j :: 0 <= i < j < |emps| ==> emps[i].id != emps[j].id
  }

  /** Validated straight after a calculation, only a negative net can be reported. */
  lemma OnlyNegativeNet(r: PayrollRun, emps: seq<Employee>, periodDays: int, issue: Issue)
    requires Calculate(r, emps, periodDays).Ok? && DistinctEmployees(emps)
    ensures var run := Calculate(r, emps, periodDays).value;
            Reports(run, issue) <==> issue == NegativeNet && run.netTotal < 0
  {
    var run := Calculate(r, emps, periodDays).value;
    if issue.DuplicatePayslip? {
      forall i, j | 0 <= i < j < |run.payslips| ensures run.payslips[i].employee != run.payslips[j].employee {
        assert emps[i].id != emps[j].id;
      }
    }
  }

  // ----------------------------------------------------------------- lifecycle

  datatype Step =
    | CalculateStep(emps: seq<Employee>, periodDays: int)
    | ApproveStep
    | CloseStep
    | ReverseStep

  function Take(r: PayrollRun, s: Step): PayrollRun {
    var result := match s
      case CalculateStep(emps, days) => Calculate(r, emps, days)
      case ApproveStep => Approve(r)
      case CloseStep => Close(r)
      case ReverseStep => Reverse(r);
    if result.Ok? then result.value else r
  }

  function TakeAll(r: PayrollRun, steps: seq<Step>): PayrollRun
    decreases |steps|
  {
    if steps == [] then r else TakeAll(Take(r, steps[0]), steps[1..])
  }

  predicate Fixed(r: PayrollRun) { r.status == APPROVED || r.status == CLOSED }

  /**
    From approval on, whatever the steps, the payslips and the totals stay as approved
    until a reversal, which needs a closed run.
   */
  lemma {:induction false} FixedUntilReversed(r: PayrollRun, steps: seq<Step>)
    requires Fixed(r) && forall i :: 0 <= i < |steps| ==> !Reverses(r, steps, i)
    ensures Fixed(TakeAll(r, steps)) && TakeAll(r, steps) == r.(status := TakeAll(r, steps).status)
    ensures r.status == CLOSED ==> TakeAll(r, steps) == r
    decreases |steps|
  {
    if steps != [] {
      assert !Reverses(r, steps, 0) && steps[..0] == [];
      var r' := Take(r, steps[0]);
      forall i | 0 <= i < |steps| - 1 ensures !Reverses(r', steps[1..], i) {
        assert !Reverses(r, steps, i + 1);
        assert steps[..i + 1] == [steps[0]] + steps[1..][..i];
        assert steps[..i + 1][1..] == steps[1..][..i];
      }
      FixedUntilReversed(r', steps[1..]);
    }
  }

  /** Step number `i` of the run is a reversal that goes through. */
  predicate Reverses(r: PayrollRun, steps: seq<Step>, i: nat) {
    i < |steps| && steps[i].ReverseStep? && TakeAll(r, steps[..i]).status == CLOSED
  }

  /** A reversed run can be calculated anew, which replaces its payslips. */
  lemma ReversedCanBeRecalculated(r: PayrollRun, emps: seq<Employee>, periodDays: int)
    requires r.status == REVERSED
    ensures Take(r, CalculateStep(emps, periodDays)).payslips == Slips(emps, periodDays)
    ensures Take(r, CalculateStep(emps, periodDays)).status == CALCULATED
  {
  }
}
