/** What a payroll run takes from each advance and owes each employee, and what every HR transaction books, read off
    its input. */
module HrEffects {
  import opened Wrappers
  import opened Sums
  import opened Journal
  import opened Invoicing
  import opened Payroll
  import opened HrBooks

  predicate OnceEach(roster: seq<Employee>)
  {
    forall i, j :: 0 <= i < j < |roster| ==> roster[i].id != roster[j].id
  }

  predicate OnRoster(roster: seq<Employee>, employee: nat)
  {
    exists k :: 0 <= k < |roster| && roster[k].id == employee
  }

  lemma {:induction false} OnRosterLast(roster: seq<Employee>, employee: nat)
    requires roster != []
    ensures OnRoster(roster, employee) <==> OnRoster(roster[..|roster| - 1], employee) || roster[|roster| - 1].id == employee
  {
    var before := roster[..|roster| - 1];
    if OnRoster(roster, employee) && roster[|roster| - 1].id != employee {
      var k :| 0 <= k < |roster| && roster[k].id == employee;
      assert before[k].id == employee;
    }
    if OnRoster(before, employee) {
      var k :| 0 <= k < |before| && before[k].id == employee;
      assert roster[k].id == employee;
    }
  }

  /** One more employee on the roster. */
  predicate OneMore(p: Figures, f: Figures, run: nat, e: Employee, own: seq<Taken>)
  {
    var net := e.gross - e.employeeShare - SumBy(own, TakenAmount);
    && f.takes == p.takes + own
    && f.lines == p.lines + [PayLine(run, e.id, net, e.account)]
    && f.gross == p.gross + e.gross && f.employeeShares == p.employeeShares + e.employeeShare
    && f.employerShares == p.employerShares + e.employerShare
    && f.netPayCredits == Add(p.netPayCredits, e.account, net)
  }

  lemma {:induction false} ComputeLast(advances: seq<Advance>, taken: seq<Taken>, run: nat, roster: seq<Employee>)
    requires roster != []
    ensures var e := roster[|roster| - 1];
      OneMore(Compute(advances, taken, run, roster[..|roster| - 1]), Compute(advances, taken, run, roster), run, e, TakesOf(advances, taken, e.id, |advances|))
  {
  }

  /** A run takes from each advance of an employee on the roster the smaller of its instalment and what is left of it,
      when both are positive, and from no other advance anything. */
  lemma {:induction false} RunTakes(advances: seq<Advance>, taken: seq<Taken>, run: nat, roster: seq<Employee>, i: nat)
    requires i < |advances| && OnceEach(roster)
    ensures var left, rate := advances[i].amount - TakenFrom(taken, i), advances[i].installment;
      TakenFrom(Compute(advances, taken, run, roster).takes, i)
        == if OnRoster(roster, advances[i].employee) && 0 < left && 0 < rate then (if left <= rate then left else rate) else 0
  {
    if roster != [] {
      var before, e := roster[..|roster| - 1], roster[|roster| - 1];
      RunTakes(advances, taken, run, before, i);
      ComputeLast(advances, taken, run, roster);
      OnRosterLast(roster, advances[i].employee);
      TakesOfEach(advances, taken, e.id, |advances|, i);
      TakenFromConcat(Compute(advances, taken, run, before).takes, TakesOf(advances, taken, e.id, |advances|), i);
    }
  }

  /** What the takes deduct from one employee's advances. */
  function DeductedFrom(advances: seq<Advance>, takes: seq<Taken>, employee: nat): int
  {
    if takes == [] then 0
    else
      var t := takes[|takes| - 1];
      DeductedFrom(advances, takes[..|takes| - 1], employee)
        + if t.advance < |advances| && advances[t.advance].employee == employee then t.amount else 0
  }

  lemma {:induction false} DeductedConcat(advances: seq<Advance>, s: seq<Taken>, t: seq<Taken>, employee: nat)
    ensures DeductedFrom(advances, s + t, employee) == DeductedFrom(advances, s, employee) + DeductedFrom(advances, t, employee)
  {
    if t == [] {
      assert s + t == s;
    } else {
      assert (s + t)[..|s + t| - 1] == s + t[..|t| - 1];
      DeductedConcat(advances, s, t[..|t| - 1], employee);
    }
  }

  predicate AllOf(advances: seq<Advance>, takes: seq<Taken>, employee: nat)
  {
    forall i :: 0 <= i < |takes| ==> takes[i].advance < |advances| && advances[takes[i].advance].employee == employee
  }

  lemma {:induction false} OwnDeducted(advances: seq<Advance>, takes: seq<Taken>, owner: nat, employee: nat)
    requires AllOf(advances, takes, owner)
    ensures DeductedFrom(advances, takes, employee) == if employee == owner then SumBy(takes, TakenAmount) else 0
  {
    if takes != [] {
      var before := takes[..|takes| - 1];
      assert forall i :: 0 <= i < |before| ==> before[i] == takes[i];
      OwnDeducted(advances, before, owner, employee);
    }
  }

  lemma {:induction false} OffRosterKeeps(advances: seq<Advance>, taken: seq<Taken>, run: nat, roster: seq<Employee>, employee: nat)
    requires !OnRoster(roster, employee)
    ensures DeductedFrom(advances, Compute(advances, taken, run, roster).takes, employee) == 0
  {
    if roster != [] {
      var before, e := roster[..|roster| - 1], roster[|roster| - 1];
      OnRosterLast(roster, employee);
      OffRosterKeeps(advances, taken, run, before, employee);
      TakesJoin(advances, taken, run, roster, employee);
    }
  }

  lemma {:induction false} TakesJoin(advances: seq<Advance>, taken: seq<Taken>, run: nat, roster: seq<Employee>, employee: nat)
    requires roster != []
    ensures var before, e := roster[..|roster| - 1], roster[|roster| - 1];
      DeductedFrom(advances, Compute(advances, taken, run, roster).takes, employee)
        == DeductedFrom(advances, Compute(advances, taken, run, before).takes, employee)
           + if employee == e.id then SumBy(TakesOf(advances, taken, e.id, |advances|), TakenAmount) else 0
  {
    var before, e := roster[..|roster| - 1], roster[|roster| - 1];
    var own := TakesOf(advances, taken, e.id, |advances|);
    ComputeLast(advances, taken, run, roster);
    DeductedConcat(advances, Compute(advances, taken, run, before).takes, own, employee);
    TakesOfKnown(advances, taken, e.id, |advances|);
    OwnDeducted(advances, own, e.id, employee);
  }

  predicate Owes(l: PayLine, run: nat, e: Employee, deducted: int)
  {
    l.run == run && l.employee == e.id && l.net == e.gross - e.employeeShare - deducted && l.account == e.account
  }

  lemma {:induction false} LastOwes(p: Figures, f: Figures, run: nat, e: Employee, own: seq<Taken>)
    requires OneMore(p, f, run, e, own)
    ensures |f.lines| == |p.lines| + 1 && Owes(f.lines[|p.lines|], run, e, SumBy(own, TakenAmount))
    ensures forall k :: 0 <= k < |p.lines| ==> f.lines[k] == p.lines[k]
  {
  }

  lemma {:induction false} LastOnRoster(advances: seq<Advance>, taken: seq<Taken>, run: nat, roster: seq<Employee>)
    requires roster != [] && OnceEach(roster)
    ensures var f, n := Compute(advances, taken, run, roster), |roster| - 1;
      |f.lines| == |roster| && Owes(f.lines[n], run, roster[n], DeductedFrom(advances, f.takes, roster[n].id))
  {
    var n := |roster| - 1;
    var before, e := roster[..n], roster[n];
    var own := TakesOf(advances, taken, e.id, |advances|);
    ComputeLast(advances, taken, run, roster);
    LastOwes(Compute(advances, taken, run, before), Compute(advances, taken, run, roster), run, e, own);
    LinesPurposeful(advances, taken, run, before);
    TakesJoin(advances, taken, run, roster, e.id);
    assert !OnRoster(before, e.id);
    OffRosterKeeps(advances, taken, run, before, e.id);
  }

  lemma {:induction false} StillOwes(advances: seq<Advance>, taken: seq<Taken>, run: nat, roster: seq<Employee>, k: nat)
    requires OnceEach(roster) && k < |roster| - 1
    ensures var f, p := Compute(advances, taken, run, roster), Compute(advances, taken, run, roster[..|roster| - 1]);
      && |f.lines| == |roster| && |p.lines| == |roster| - 1 && f.lines[k] == p.lines[k]
      && DeductedFrom(advances, f.takes, roster[k].id) == DeductedFrom(advances, p.takes, roster[k].id)
  {
    var n := |roster| - 1;
    var before := roster[..n];
    ComputeLast(advances, taken, run, roster);
    LastOwes(Compute(advances, taken, run, before), Compute(advances, taken, run, roster), run, roster[n], TakesOf(advances, taken, roster[n].id, |advances|));
    LinesPurposeful(advances, taken, run, before);
    TakesJoin(advances, taken, run, roster, roster[k].id);
  }

  /** Each line owes its employee the gross less their share and exactly what was taken from their advances, on the
      account the employee is owed on. */
  lemma {:induction false} RunOwes(advances: seq<Advance>, taken: seq<Taken>, run: nat, roster: seq<Employee>, k: nat)
    requires k < |roster| && OnceEach(roster)
    ensures var f := Compute(advances, taken, run, roster);
      |f.lines| == |roster| && Owes(f.lines[k], run, roster[k], DeductedFrom(advances, f.takes, roster[k].id))
  {
    if k < |roster| - 1 {
      RunOwes(advances, taken, run, roster[..|roster| - 1], k);
      StillOwes(advances, taken, run, roster, k);
    } else {
      LastOnRoster(advances, taken, run, roster);
    }
  }

  function GrossOf(e: Employee): int { e.gross }
  function EmployeeShareOf(e: Employee): int { e.employeeShare }
  function EmployerShareOf(e: Employee): int { e.employerShare }

  lemma {:induction false} RunTotals(advances: seq<Advance>, taken: seq<Taken>, run: nat, roster: seq<Employee>)
    ensures var f := Compute(advances, taken, run, roster);
      && f.gross == SumBy(roster, GrossOf)
      && f.employeeShares == SumBy(roster, EmployeeShareOf) && f.employerShares == SumBy(roster, EmployerShareOf)
  {
    if roster != [] {
      RunTotals(advances, taken, run, roster[..|roster| - 1]);
      ComputeLast(advances, taken, run, roster);
    }
  }

  // ---- what is booked ----

  /** The salary, contribution expense and contribution payable lines. */
  function Shares(a: Account, gross: int, employee: int, employer: int): int
  {
    On(a, Mapped(SalaryExpense), gross) + On(a, Mapped(GosiExpense), employer) - On(a, Mapped(GosiPayable), employee + employer)
  }

  lemma {:induction false} EntryNet(advances: seq<Advance>, taken: seq<Taken>, run: nat, roster: seq<Employee>, a: Account)
    ensures var f := Compute(advances, taken, run, roster);
      Net(EntryOf(f), a) == Shares(a, f.gross, f.employeeShares, f.employerShares) - TakesOn(advances, f.takes, a) - NetOn(f.lines, a)
  {
    PayrollEntryNet(advances, taken, run, roster, a);
  }

  lemma {:induction false} RunPlan(b: HrBooks.Books, run: nat, roster: seq<Employee>, date: Day)
    requires PlanOf(b, RunPayroll(run, roster, date)).Some?
    ensures PlanOf(b, RunPayroll(run, roster, date)).value == PayrollRows(Compute(b.advances, b.taken, run, roster), date)
  {
  }

  predicate Inserts(p: HrBooks.Books, takes: seq<Taken>, lines: seq<PayLine>, owed: int, date: Day)
  {
    p == EMPTY_BOOKS.(taken := takes, lines := lines, gosiOwed := [owed], ledger := p.ledger) && |p.ledger| == 1 && p.ledger[0].date == date
  }

  lemma {:induction false} RowsInserted(f: Figures, date: Day)
    ensures Inserts(PayrollRows(f, date), f.takes, f.lines, f.employeeShares + f.employerShares, date)
    ensures PayrollRows(f, date).ledger[0].lines == EntryOf(f)
  {
  }

  /** An accepted run inserts the takes, the lines, what is owed in contributions and one entry, and nothing else. */
  lemma {:induction false} RunInserts(b: HrBooks.Books, run: nat, roster: seq<Employee>, date: Day)
    requires PlanOf(b, RunPayroll(run, roster, date)).Some?
    ensures var p, f := PlanOf(b, RunPayroll(run, roster, date)).value, Compute(b.advances, b.taken, run, roster);
      Inserts(p, f.takes, f.lines, SumBy(roster, EmployeeShareOf) + SumBy(roster, EmployerShareOf), date)
  {
    RunPlan(b, run, roster, date);
    RowsInserted(Compute(b.advances, b.taken, run, roster), date);
    RunTotals(b.advances, b.taken, run, roster);
  }

  /** The entry expenses the gross and the employer's shares, owes the contributions, takes the advances back and owes
      the net pay, account by account. */
  lemma {:induction false} RunBooks(b: HrBooks.Books, run: nat, roster: seq<Employee>, date: Day, a: Account)
    requires PlanOf(b, RunPayroll(run, roster, date)).Some?
    ensures var p, f := PlanOf(b, RunPayroll(run, roster, date)).value, Compute(b.advances, b.taken, run, roster);
      && |p.ledger| == 1
      && Net(p.ledger[0].lines, a)
           == Shares(a, SumBy(roster, GrossOf), SumBy(roster, EmployeeShareOf), SumBy(roster, EmployerShareOf))
              - TakesOn(b.advances, f.takes, a) - NetOn(f.lines, a)
  {
    RunPlan(b, run, roster, date);
    RowsInserted(Compute(b.advances, b.taken, run, roster), date);
    RunTotals(b.advances, b.taken, run, roster);
    EntryNet(b.advances, b.taken, run, roster, a);
  }

  lemma {:induction false} NetPayPositive(lines: seq<PayLine>, credits: Tally<Account>)
    requires Distinct(credits) && forall a :: Get(credits, a) == NetOn(lines, a)
    requires AllListed(credits, lines) && AllOwed(credits, lines)
    ensures AllPositive(credits) <==> forall i :: 0 <= i < |lines| ==> 0 < NetOn(lines, lines[i].account)
  {
    if AllPositive(credits) {
      forall i | 0 <= i < |lines| ensures 0 < NetOn(lines, lines[i].account) {
        var k := IndexOf(credits, lines[i].account);
        assert Get(credits, lines[i].account) == credits[k].1;
      }
    }
    if forall i :: 0 <= i < |lines| ==> 0 < NetOn(lines, lines[i].account) {
      forall k | 0 <= k < |credits| ensures 0 < credits[k].1 {
        IndexOfFound(credits, k);
        var i :| 0 <= i < |lines| && lines[i].account == credits[k].0;
        assert Get(credits, credits[k].0) == credits[k].1;
      }
    }
  }

  predicate Listed(credits: Tally<Account>, a: Account) { IndexOf(credits, a) < |credits| }
  predicate Owed(lines: seq<PayLine>, a: Account) { exists i :: 0 <= i < |lines| && lines[i].account == a }

  lemma {:induction false} AddLists(credits: Tally<Account>, a: Account, v: int)
    requires Distinct(credits)
    ensures Listed(Add(credits, a, v), a) && forall x :: Listed(credits, x) ==> Listed(Add(credits, a, v), x)
    ensures forall i :: 0 <= i < |Add(credits, a, v)| ==> Add(credits, a, v)[i].0 == a || (i < |credits| && Add(credits, a, v)[i].0 == credits[i].0)
  {
    var u := Add(credits, a, v);
    AddEffect(credits, a, v);
    forall x | Listed(credits, x) || x == a ensures Listed(u, x) {
      var k := if Listed(credits, x) then IndexOf(credits, x) else |credits|;
      assert u[k].0 == x;
      IndexOfFound(u, k);
    }
  }

  lemma {:induction false} CreditsListed(advances: seq<Advance>, taken: seq<Taken>, run: nat, roster: seq<Employee>)
    ensures var f := Compute(advances, taken, run, roster);
      AllListed(f.netPayCredits, f.lines) && AllOwed(f.netPayCredits, f.lines)
  {
    if roster != [] {
      var before, e := roster[..|roster| - 1], roster[|roster| - 1];
      CreditsListed(advances, taken, run, before);
      ComputeConsistent(advances, taken, run, before);
      ComputeLast(advances, taken, run, roster);
      var p, f := Compute(advances, taken, run, before), Compute(advances, taken, run, roster);
      StepListed(p, f, run, e, TakesOf(advances, taken, e.id, |advances|));
    }
  }

  lemma {:induction false} StepListed(p: Figures, f: Figures, run: nat, e: Employee, own: seq<Taken>)
    requires OneMore(p, f, run, e, own) && Distinct(p.netPayCredits)
    requires AllListed(p.netPayCredits, p.lines) && AllOwed(p.netPayCredits, p.lines)
    ensures AllListed(f.netPayCredits, f.lines) && AllOwed(f.netPayCredits, f.lines)
  {
    ListedMore(p.netPayCredits, p.lines, f.lines[|p.lines|], f.netPayCredits, f.lines);
  }

  lemma {:induction false} ListedMore(credits: Tally<Account>, lines: seq<PayLine>, l: PayLine, more: Tally<Account>, after: seq<PayLine>)
    requires Distinct(credits) && AllListed(credits, lines) && AllOwed(credits, lines)
    requires more == Add(credits, l.account, l.net) && after == lines + [l]
    ensures AllListed(more, after) && AllOwed(more, after)
  {
    AddLists(credits, l.account, l.net);
    MoreOwed(lines, l);
  }

  predicate AllListed(credits: Tally<Account>, lines: seq<PayLine>)
  {
    forall i :: 0 <= i < |lines| ==> Listed(credits, lines[i].account)
  }

  predicate AllOwed(credits: Tally<Account>, lines: seq<PayLine>)
  {
    forall i :: 0 <= i < |credits| ==> Owed(lines, credits[i].0)
  }

  lemma {:induction false} MoreOwed(lines: seq<PayLine>, l: PayLine)
    ensures Owed(lines + [l], l.account) && forall a :: Owed(lines, a) ==> Owed(lines + [l], a)
  {
    var more := lines + [l];
    assert more[|lines|] == l;
    forall a | Owed(lines, a) ensures Owed(more, a) {
      var i :| 0 <= i < |lines| && lines[i].account == a;
      assert more[i].account == a;
    }
  }

  lemma {:induction false} RunShape(advances: seq<Advance>, taken: seq<Taken>, run: nat, roster: seq<Employee>)
    ensures var f := Compute(advances, taken, run, roster);
      ValidShape(EntryOf(f)) <==>
        && 0 < SumBy(roster, GrossOf) && 0 < SumBy(roster, EmployerShareOf)
        && forall i :: 0 <= i < |f.lines| ==> 0 < NetOn(f.lines, f.lines[i].account)
  {
    RunTotals(advances, taken, run, roster);
    ComputeConsistent(advances, taken, run, roster);
    PayrollEntryAccepted(advances, taken, run, roster);
    CreditsListed(advances, taken, run, roster);
    NetPayPositive(Compute(advances, taken, run, roster).lines, Compute(advances, taken, run, roster).netPayCredits);
  }

  /** A run is accepted exactly when its period has none yet, there is some gross and some employer's share, no line is
      negative and every account owed on is owed something. */
  lemma {:induction false} RunAccepts(b: HrBooks.Books, run: nat, roster: seq<Employee>, date: Day)
    ensures var lines := Compute(b.advances, b.taken, run, roster).lines;
      PlanOf(b, RunPayroll(run, roster, date)).Some? <==>
        && (forall i :: 0 <= i < |b.lines| ==> b.lines[i].run != run)
        && 0 < SumBy(roster, GrossOf) && 0 < SumBy(roster, EmployerShareOf)
        && (forall i :: 0 <= i < |lines| ==> 0 <= lines[i].net && 0 < NetOn(lines, lines[i].account))
  {
    RunShape(b.advances, b.taken, run, roster);
  }

  /** A grant is accepted exactly when it is of something, and moves it from cash to the receivable. */
  lemma {:induction false} GrantBooks(b: HrBooks.Books, advance: Advance, cash: Account, date: Day, a: Account)
    ensures PlanOf(b, Grant(advance, cash, date)).Some? <==> 0 < advance.amount
    ensures PlanOf(b, Grant(advance, cash, date)).Some? ==>
      var p := PlanOf(b, Grant(advance, cash, date)).value;
      && p == EMPTY_BOOKS.(advances := [advance], ledger := p.ledger) && |p.ledger| == 1 && p.ledger[0].date == date
      && Net(p.ledger[0].lines, a) == On(a, advance.account, advance.amount) - On(a, cash, advance.amount)
  {
    PairShape(advance.account, cash, advance.amount);
  }

  /** A repayment is accepted exactly when it is of something and no more than is left, and takes it off the receivable. */
  lemma {:induction false} RepaymentBooks(b: HrBooks.Books, which: nat, amount: nat, cash: Account, date: Day, a: Account)
    ensures PlanOf(b, Repay(which, amount, cash, date)).Some? <==>
      which < |b.advances| && 0 < amount && amount + TakenFrom(b.taken, which) <= b.advances[which].amount
    ensures PlanOf(b, Repay(which, amount, cash, date)).Some? ==>
      var p := PlanOf(b, Repay(which, amount, cash, date)).value;
      && p == EMPTY_BOOKS.(taken := [Taken(which, amount)], ledger := p.ledger) && |p.ledger| == 1 && p.ledger[0].date == date
      && Net(p.ledger[0].lines, a) == On(a, cash, amount) - On(a, b.advances[which].account, amount)
  {
    if which < |b.advances| {
      PairShape(cash, b.advances[which].account, amount);
    }
  }

  lemma {:induction false} OneDebt(account: Account, cash: Account, amount: int)
    ensures PaymentOf([(account, amount)], cash) == [Dr(account, amount), Cr(cash, amount)]
  {
    SumBySnoc([], (account, amount), Amount);
    assert [] + [(account, amount)] == [(account, amount)];
    assert Debits([(account, amount)]) == [Dr(account, amount)];
  }

  /** A remittance is accepted exactly when it is of something and no more than is owed, and takes it off the payable. */
  lemma {:induction false} RemittanceBooks(b: HrBooks.Books, amount: nat, cash: Account, date: Day, a: Account)
    ensures PlanOf(b, PayGosi(amount, cash, date)).Some? <==> 0 < amount && amount + SumBy(b.gosiPaid, Same) <= SumBy(b.gosiOwed, Same)
    ensures PlanOf(b, PayGosi(amount, cash, date)).Some? ==>
      var p := PlanOf(b, PayGosi(amount, cash, date)).value;
      && p == EMPTY_BOOKS.(gosiPaid := [amount], ledger := p.ledger) && |p.ledger| == 1 && p.ledger[0].date == date
      && Net(p.ledger[0].lines, a) == On(a, Mapped(GosiPayable), amount) - On(a, cash, amount)
  {
    OneDebt(Mapped(GosiPayable), cash, amount);
    PairShape(Mapped(GosiPayable), cash, amount);
  }

  predicate ToPay(b: HrBooks.Books, run: nat, who: Option<set<nat>>, k: nat)
  {
    && k < |b.lines| && b.lines[k].run == run && 0 < b.lines[k].net && k !in b.paid
    && (who.None? || b.lines[k].employee in who.value)
  }

  function NetOfItem(lines: seq<PayLine>): nat -> int { (k: nat) => if k < |lines| then lines[k].net else 0 }

  lemma {:induction false} ByPayAccountTotal(lines: seq<PayLine>, items: seq<nat>)
    requires forall i :: 0 <= i < |items| ==> items[i] < |lines| && 0 < lines[items[i]].net
    ensures Total(ByPayAccount(lines, items)) == SumBy(items, NetOfItem(lines))
    ensures AllPositive(ByPayAccount(lines, items))
    ensures items != [] ==> ByPayAccount(lines, items) != []
  {
    if items != [] {
      var before, k := items[..|items| - 1], items[|items| - 1];
      assert forall i :: 0 <= i < |before| ==> before[i] == items[i];
      ByPayAccountTotal(lines, before);
      ByPayAccountSums(lines, before);
      AddEffect(ByPayAccount(lines, before), lines[k].account, lines[k].net);
      AddPositive(ByPayAccount(lines, before), lines[k].account, lines[k].net);
    }
  }

  lemma {:induction false} DebitsShape(t: Tally<Account>)
    ensures SumBy(Debits(t), DebitOf) == Total(t) && SumBy(Debits(t), CreditOf) == 0
    ensures AllPositive(t) ==> AllOneSided(Debits(t)) && (t != [] ==> 0 < Total(t))
  {
    if t != [] {
      var n := |t| - 1;
      DebitsShape(t[..n]);
      assert Debits(t)[..n] == Debits(t[..n]);
      if AllPositive(t) {
        assert forall i :: 0 <= i < n ==> t[..n][i] == t[i];
        assert AllPositive(t[..n]);
        assert forall i :: 0 <= i < |t| ==> OneSided(Debits(t)[i]);
      }
    }
  }

  lemma {:induction false} PaymentShape(t: Tally<Account>, cash: Account)
    requires t != [] && AllPositive(t) && Distinct(t)
    ensures ValidShape(PaymentOf(t, cash))
    ensures forall a :: Net(PaymentOf(t, cash), a) == Get(t, a) - On(a, cash, Total(t))
  {
    DebitsShape(t);
    OneLine(Cr(cash, Total(t)));
    Join(Debits(t), [], [Cr(cash, Total(t))]);
    assert Debits(t) + [] + [Cr(cash, Total(t))] == PaymentOf(t, cash);
    forall a {
      DebitsNet(t, a);
    }
  }

  /** What paying some lines of the table books. */
  lemma {:induction false} ItemsPaid(lines: seq<PayLine>, items: seq<nat>, cash: Account, a: Account)
    requires items != [] && forall i :: 0 <= i < |items| ==> items[i] < |lines| && 0 < lines[items[i]].net
    ensures ValidShape(PaymentOf(ByPayAccount(lines, items), cash))
    ensures Net(PaymentOf(ByPayAccount(lines, items), cash), a) == PaidOn(lines, items, a) - On(a, cash, SumBy(items, NetOfItem(lines)))
  {
    ByPayAccountSums(lines, items);
    ByPayAccountTotal(lines, items);
    PaymentShape(ByPayAccount(lines, items), cash);
  }

  lemma {:induction false} UnpaidAre(b: HrBooks.Books, run: nat, who: Option<set<nat>>)
    ensures var items := Unpaid(b, run, who, |b.lines|);
      && NoRepeats(items) && (forall k :: k in items <==> ToPay(b, run, who, k))
      && (forall i :: 0 <= i < |items| ==> items[i] < |b.lines| && 0 < b.lines[items[i]].net)
  {
    var items := Unpaid(b, run, who, |b.lines|);
    UnpaidLines(b, run, who, |b.lines|);
    forall i | 0 <= i < |items| ensures items[i] < |b.lines| && 0 < b.lines[items[i]].net {
      assert items[i] in items;
    }
  }

  lemma {:induction false} SalariesPlan(b: HrBooks.Books, run: nat, who: Option<set<nat>>, cash: Account, date: Day)
    ensures var items := Unpaid(b, run, who, |b.lines|);
      var entry := PaymentOf(ByPayAccount(b.lines, items), cash);
      PlanOf(b, PaySalaries(run, who, cash, date)) == if items == [] || !ValidShape(entry) then None else Some(SalaryRows(items, entry, date))
  {
  }

  /** Salaries are paid exactly when the run has a positive, unpaid line of those chosen. */
  lemma {:induction false} SalariesAccept(b: HrBooks.Books, run: nat, who: Option<set<nat>>, cash: Account, date: Day)
    ensures PlanOf(b, PaySalaries(run, who, cash, date)).Some? <==> exists k :: ToPay(b, run, who, k)
  {
    var items := Unpaid(b, run, who, |b.lines|);
    SalariesPlan(b, run, who, cash, date);
    UnpaidAre(b, run, who);
    if items != [] {
      assert items[0] in items;
      ItemsPaid(b.lines, items, cash, cash);
    }
  }

  predicate Pays(p: HrBooks.Books, items: seq<nat>, date: Day)
  {
    p == EMPTY_BOOKS.(paid := items, ledger := p.ledger) && |p.ledger| == 1 && p.ledger[0].date == date
  }

  /** They pay each such line once, every debt on the account it was owed on and all of it from cash. */
  lemma {:induction false} SalariesBook(b: HrBooks.Books, run: nat, who: Option<set<nat>>, cash: Account, date: Day, a: Account)
    requires PlanOf(b, PaySalaries(run, who, cash, date)).Some?
    ensures var p := PlanOf(b, PaySalaries(run, who, cash, date)).value;
      && Pays(p, p.paid, date) && NoRepeats(p.paid) && (forall k :: k in p.paid <==> ToPay(b, run, who, k))
      && Net(p.ledger[0].lines, a) == PaidOn(b.lines, p.paid, a) - On(a, cash, SumBy(p.paid, NetOfItem(b.lines)))
  {
    SalariesPlan(b, run, who, cash, date);
    UnpaidAre(b, run, who);
    ItemsPaid(b.lines, Unpaid(b, run, who, |b.lines|), cash, a);
  }
}
