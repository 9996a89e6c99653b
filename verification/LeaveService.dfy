/** The leave operations as they work on the tables, row by row, rolled back when one throws. */
module LeaveService {
  import opened Wrappers
  import opened Leave

  class Service {
    var balances: Balances
    var requests: seq<Request>
    var log: seq<Entry>
    var accrualRuns: set<int>

    constructor ()
      ensures Now() == EMPTY
    {
      balances, requests, log, accrualRuns := map[], [], [], {};
    }

    function Now(): State
      reads this
    {
      State(balances, requests, log, accrualRuns)
    }

    method Rollback(s: State)
      modifies this
      ensures Now() == s
    {
      balances, requests, log, accrualRuns := s.balances, s.requests, s.log, s.accrualRuns;
    }

    method ApplyWorkflowDecision(id: nat, decision: RequestStatus) returns (refused: Option<LeaveError>)
      modifies this
      ensures Now() == Settle(old(Now()), Decide(old(Now()), id, decision))
      ensures refused == Answer(Decide(old(Now()), id, decision))
      ensures old(NeverShort(balances)) ==> NeverShort(balances)
    {
      var begun := Now();
      if id >= |requests| {
        return Some(NotFound);
      }
      requests := requests[id := requests[id].(status := decision)];
      if decision == APPROVED {
        refused := ConsumeLeave(id);
        if refused.Some? {
          Rollback(begun);
          return;
        }
      }
      return None;
    }

    method ConsumeLeave(id: nat) returns (refused: Option<LeaveError>)
      requires id < |requests|
      modifies this
      ensures requests == old(requests) && accrualRuns == old(accrualRuns)
      ensures var k, days := requests[id].ApprovalKey(), requests[id].days;
              if k !in old(balances) then refused == Some(NotInitialized) && Now() == old(Now())
              else if old(balances)[k].Available() < days then
                refused == Some(InsufficientBalance) && Now() == old(Now())
              else
                && refused == None && log == old(log) + [Entry(USAGE, k, days)]
                && balances == old(balances)[k := old(balances)[k].(used := old(balances)[k].used + days)]
    {
      var req := requests[id];
      var k := req.ApprovalKey();
      if k !in balances {
        return Some(NotInitialized);
      }
      var available := balances[k].Available();
      if available < req.days {
        return Some(InsufficientBalance);
      }
      balances := balances[k := balances[k].(used := balances[k].used + req.days)];
      log := log + [Entry(USAGE, k, req.days)];
      return None;
    }

    method CancelLeave(id: nat) returns (refused: Option<LeaveError>)
      modifies this
      ensures Now() == Settle(old(Now()), Cancel(old(Now()), id)) && refused == Answer(Cancel(old(Now()), id))
      ensures old(NeverShort(balances)) ==> NeverShort(balances)
    {
      if id >= |requests| {
        return Some(NotFound);
      }
      var req := requests[id];
      if req.status != APPROVED && req.status != PENDING {
        return Some(NotCancellable);
      }
      if req.status == APPROVED {
        var k := req.CancelKey();
        if k in balances {
          balances := balances[k := balances[k].(used := AtLeastZero(balances[k].used - req.days))];
        }
        log := log + [Entry(CANCELLATION, k, req.days)];
      }
      requests := requests[id := req.(status := CANCELLED)];
      return None;
    }

    method EncashLeave(k: BalanceKey, days: real) returns (refused: Option<LeaveError>)
      modifies this
      ensures Now() == Settle(old(Now()), Encash(old(Now()), k, days)) && refused == Answer(Encash(old(Now()), k, days))
      ensures old(NeverShort(balances)) ==> NeverShort(balances)
    {
      if days <= 0.0 {
        return Some(InvalidDays);
      }
      if k !in balances {
        return Some(NotInitialized);
      }
      if balances[k].Available() as real < days {
        return Some(InsufficientBalance);
      }
      RoundedDaysFit(balances[k].Available(), days);
      balances := balances[k := balances[k].(encashed := balances[k].encashed + Hundredths(days))];
      return None;
    }

    method RunLeaveAccrual(employees: seq<Id>, types: seq<LeaveType>, year: int) returns (refused: Option<LeaveError>)
      modifies this
      ensures Now() == Settle(old(Now()), RunAccrual(old(Now()), employees, types, year))
      ensures refused == Answer(RunAccrual(old(Now()), employees, types, year))
      ensures old(NeverShort(balances)) ==> NeverShort(balances)
    {
      if !ValidYear(year) {
        return Some(InvalidYear);
      }
      if year in accrualRuns {
        return None;
      }
      ghost var begun := balances;
      assert employees[0..] == employees;
      for i := 0 to |employees|
        invariant requests == old(requests) && log == old(log) && accrualRuns == old(accrualRuns)
        invariant AccrueAll(begun, employees, types, year) == AccrueAll(balances, employees[i..], types, year)
      {
        ghost var row := balances;
        var e := employees[i];
        assert employees[i..][0] == e && employees[i..][1..] == employees[i + 1..] && types[0..] == types;
        for j := 0 to |types|
          invariant requests == old(requests) && log == old(log) && accrualRuns == old(accrualRuns)
          invariant AccrueTypes(row, e, types, year) == AccrueTypes(balances, e, types[j..], year)
        {
          assert types[j..][0] == types[j] && types[j..][1..] == types[j + 1..];
          var k := BalanceKey(e, types[j].id, year);
          var accrued := Granted(types[j]);
          if k in balances {
            balances := balances[k := balances[k].(accrued := balances[k].accrued + accrued)];
          } else {
            balances := balances[k := Balance(0, accrued, 0, 0, 0)];
          }
        }
      }
      accrualRuns := accrualRuns + {year};
      if NeverShort(begun) {
        AccrueAllNeverShort(begun, employees, types, year);
      }
      return None;
    }

    method RunLeavePolicy(employees: seq<Id>, types: seq<LeaveType>, year: int)
      modifies this
      ensures Now() == Settle(old(Now()), RunPolicy(old(Now()), employees, types, year))
      ensures old(NeverShort(balances)) ==> NeverShort(balances)
    {
      ghost var begun := balances;
      assert employees[0..] == employees;
      for i := 0 to |employees|
        invariant requests == old(requests) && log == old(log) && accrualRuns == old(accrualRuns)
        invariant CarryAll(begun, employees, types, year) == CarryAll(balances, employees[i..], types, year)
      {
        ghost var row := balances;
        var e := employees[i];
        assert employees[i..][0] == e && employees[i..][1..] == employees[i + 1..] && types[0..] == types;
        for j := 0 to |types|
          invariant requests == old(requests) && log == old(log) && accrualRuns == old(accrualRuns)
          invariant CarryTypes(row, e, types, year) == CarryTypes(balances, e, types[j..], year)
        {
          assert types[j..][0] == types[j] && types[j..][1..] == types[j + 1..];
          var k := BalanceKey(e, types[j].id, year);
          if k in balances {
            var b := balances[k];
            var carry := Least(b.opening + b.accrued - b.used - b.encashed, types[j].carryForwardLimit);
            balances := balances[k := Balance(AtLeastZero(carry), 0, 0, 0, b.adjusted)];
          }
        }
      }
      if NeverShort(begun) {
        CarryAllNeverShort(begun, employees, types, year);
      }
    }

    method InitializeLeaveBalances(e: Id, types: seq<LeaveType>, year: int) returns (refused: Option<LeaveError>)
      modifies this
      ensures Now() == Settle(old(Now()), InitializeBalances(old(Now()), e, types, year))
      ensures refused == Answer(InitializeBalances(old(Now()), e, types, year))
      ensures old(NeverShort(balances)) ==> NeverShort(balances)
    {
      if !ValidYear(year) {
        return Some(InvalidYear);
      }
      ghost var begun := Now();
      assert types[0..] == types;
      for j := 0 to |types|
        invariant InitializeTypes(begun, e, types, year) == InitializeTypes(Now(), e, types[j..], year)
      {
        assert types[j..][0] == types[j] && types[j..][1..] == types[j + 1..];
        ghost var before := Now();
        var k := BalanceKey(e, types[j].id, year);
        var entry := InitialEntry(balances, e, types[j], year);
        if k !in balances {
          var accrued := if types[j].accrual == ANNUAL then types[j].entitlement else 0;
          balances := balances[k := Balance(0, accrued, 0, 0, 0)];
          if accrued > 0 {
            log := log + [Entry(ACCRUAL, k, accrued)];
          }
        }
        assert log == before.log + entry;
        assert Now() == before.(balances := Initialize(before.balances, e, types[j], year), log := before.log + entry);
      }
      if NeverShort(begun.balances) {
        InitializeNeverShort(begun, e, types, year);
      }
      return None;
    }
  }
}
