/** A payroll run: each employee's deductions, and the one aggregated entry. */
module Payroll {
  import opened Sums
  import opened Journal
  import opened Invoicing

  /** account is the receivable the grant debited: the employee's own, or the company-wide one. */
  datatype Advance = Advance(employee: nat, amount: nat, installment: int, account: Account)

  /** What payroll deducted from, or the employee paid back on, an advance; an advance is named by its position. */
  datatype Taken = Taken(advance: nat, amount: nat)

  /** account is where the net pay is owed; the contribution shares come from the rate table. */
  datatype Employee = Employee(id: nat, gross: nat, employeeShare: nat, employerShare: nat, account: Account)

  datatype PayLine = PayLine(run: nat, employee: nat, net: int, account: Account)

  function TakenFrom(taken: seq<Taken>, advance: nat): nat
  {
    if taken == [] then 0
    else
      var t := taken[|taken| - 1];
      TakenFrom(taken[..|taken| - 1], advance) + if t.advance == advance then t.amount else 0
  }

  /** advanceBalance: never stored, always the amount less everything taken. */
  function Remaining(advances: seq<Advance>, taken: seq<Taken>, i: nat): int
    requires i < |advances|
  {
    advances[i].amount - TakenFrom(taken, i)
  }

  /** An instalment, or what is left of the advance. */
  function Instalment(advances: seq<Advance>, taken: seq<Taken>, i: nat): nat
    requires i < |advances|
  {
    var remaining := Remaining(advances, taken, i);
    var take := if remaining <= advances[i].installment then remaining else advances[i].installment;
    if remaining <= 0 || take <= 0 then 0 else take
  }

  /** What the run takes from an employee's first n advances, oldest first. */
  function TakesOf(advances: seq<Advance>, taken: seq<Taken>, employee: nat, n: nat): seq<Taken>
    requires n <= |advances|
  {
    if n == 0 then []
    else
      var take := Instalment(advances, taken, n - 1);
      TakesOf(advances, taken, employee, n - 1) + if advances[n - 1].employee == employee && 0 < take then [Taken(n - 1, take)] else []
  }

  function TakenAmount(t: Taken): int { t.amount }

  /** credit(advanceCredits, ...) for one employee's takes. */
  function CreditTakes(advances: seq<Advance>, credits: Tally<Account>, takes: seq<Taken>): Tally<Account>
  {
    if takes == [] then credits
    else
      var t := takes[|takes| - 1];
      var before := CreditTakes(advances, credits, takes[..|takes| - 1]);
      if t.advance < |advances| then Add(before, advances[t.advance].account, t.amount) else before
  }

  datatype Figures = Figures(
    gross: int,
    employeeShares: int,
    employerShares: int,
    deduction: int,
    net: int,
    advanceCredits: Tally<Account>,
    netPayCredits: Tally<Account>,
    takes: seq<Taken>,
    lines: seq<PayLine>)

  const NOTHING := Figures(0, 0, 0, 0, 0, [], [], [], [])

  function WithTakes(advances: seq<Advance>, run: nat, f: Figures, e: Employee, takes: seq<Taken>): Figures
  {
    var deduction := SumBy(takes, TakenAmount);
    var net := e.gross - e.employeeShare - deduction;
    Figures(f.gross + e.gross, f.employeeShares + e.employeeShare, f.employerShares + e.employerShare, f.deduction + deduction, f.net + net,
            CreditTakes(advances, f.advanceCredits, takes), Add(f.netPayCredits, e.account, net),
            f.takes + takes, f.lines + [PayLine(run, e.id, net, e.account)])
  }

  function WithEmployee(advances: seq<Advance>, taken: seq<Taken>, run: nat, f: Figures, e: Employee): Figures
  {
    WithTakes(advances, run, f, e, TakesOf(advances, taken, e.id, |advances|))
  }

  function Compute(advances: seq<Advance>, taken: seq<Taken>, run: nat, roster: seq<Employee>): Figures
  {
    if roster == [] then NOTHING
    else WithEmployee(advances, taken, run, Compute(advances, taken, run, roster[..|roster| - 1]), roster[|roster| - 1])
  }

  /** Every amount of the map as a credit, whatever its sign. */
  function Credits(t: Tally<Account>): (s: seq<Line>)
    ensures |s| == |t|
  {
    seq(|t|, i requires 0 <= i < |t| => Cr(t[i].0, t[i].1))
  }

  function EntryOf(f: Figures): seq<Line>
  {
    [Dr(Mapped(SalaryExpense), f.gross), Dr(Mapped(GosiExpense), f.employerShares), Cr(Mapped(GosiPayable), f.employeeShares + f.employerShares)]
      + Credits(f.advanceCredits) + Credits(f.netPayCredits)
  }

  // ---- what was computed ----

  /** What the takes put on an account. */
  function TakesOn(advances: seq<Advance>, takes: seq<Taken>, a: Account): int
  {
    if takes == [] then 0
    else
      var t := takes[|takes| - 1];
      TakesOn(advances, takes[..|takes| - 1], a) + if t.advance < |advances| && advances[t.advance].account == a then t.amount else 0
  }

  function NetOn(lines: seq<PayLine>, a: Account): int
  {
    if lines == [] then 0
    else
      var l := lines[|lines| - 1];
      NetOn(lines[..|lines| - 1], a) + if l.account == a then l.net else 0
  }

  predicate Known(advances: seq<Advance>, takes: seq<Taken>)
  {
    forall i :: 0 <= i < |takes| ==> takes[i].advance < |advances| && 0 < takes[i].amount
  }

  predicate AllPositive(t: Tally<Account>)
  {
    forall i :: 0 <= i < |t| ==> 0 < t[i].1
  }

  lemma {:induction false} TakesOfKnown(advances: seq<Advance>, taken: seq<Taken>, employee: nat, n: nat)
    requires n <= |advances|
    ensures Known(advances, TakesOf(advances, taken, employee, n))
    ensures forall i :: 0 <= i < |TakesOf(advances, taken, employee, n)| ==>
      TakesOf(advances, taken, employee, n)[i].advance < n && advances[TakesOf(advances, taken, employee, n)[i].advance].employee == employee
  {
    if n > 0 {
      TakesOfKnown(advances, taken, employee, n - 1);
    }
  }

  /** Each advance of the employee gives up one instalment, nobody else's gives up anything. */
  lemma {:induction false} TakesOfEach(advances: seq<Advance>, taken: seq<Taken>, employee: nat, n: nat, i: nat)
    requires n <= |advances| && i < |advances|
    ensures TakenFrom(TakesOf(advances, taken, employee, n), i)
         == if i < n && advances[i].employee == employee then Instalment(advances, taken, i) else 0
  {
    if n > 0 {
      TakesOfEach(advances, taken, employee, n - 1, i);
      var before := TakesOf(advances, taken, employee, n - 1);
      var all := TakesOf(advances, taken, employee, n);
      if all != before {
        assert all[..|all| - 1] == before;
      }
    }
  }

  lemma {:induction false} CreditTakesAdds(advances: seq<Advance>, credits: Tally<Account>, takes: seq<Taken>)
    requires Distinct(credits) && Known(advances, takes)
    ensures Distinct(CreditTakes(advances, credits, takes))
    ensures Total(CreditTakes(advances, credits, takes)) == Total(credits) + SumBy(takes, TakenAmount)
    ensures forall a :: Get(CreditTakes(advances, credits, takes), a) == Get(credits, a) + TakesOn(advances, takes, a)
  {
    if takes != [] {
      var before, t := takes[..|takes| - 1], takes[|takes| - 1];
      assert forall i :: 0 <= i < |before| ==> before[i] == takes[i];
      CreditTakesAdds(advances, credits, before);
      AddEffect(CreditTakes(advances, credits, before), advances[t.advance].account, t.amount);
    }
  }

  lemma {:induction false} AddPositive(t: Tally<Account>, a: Account, v: int)
    requires AllPositive(t) && 0 < v
    ensures AllPositive(Add(t, a, v))
  {
  }

  lemma {:induction false} CreditTakesPositive(advances: seq<Advance>, credits: Tally<Account>, takes: seq<Taken>)
    requires AllPositive(credits) && Known(advances, takes)
    ensures AllPositive(CreditTakes(advances, credits, takes))
  {
    if takes != [] {
      var before, t := takes[..|takes| - 1], takes[|takes| - 1];
      assert forall i :: 0 <= i < |before| ==> before[i] == takes[i];
      CreditTakesPositive(advances, credits, before);
      AddPositive(CreditTakes(advances, credits, before), advances[t.advance].account, t.amount);
    }
  }

  lemma {:induction false} TakesOnConcat(advances: seq<Advance>, s: seq<Taken>, t: seq<Taken>, a: Account)
    ensures TakesOn(advances, s + t, a) == TakesOn(advances, s, a) + TakesOn(advances, t, a)
  {
    if t == [] {
      assert s + t == s;
    } else {
      assert (s + t)[..|s + t| - 1] == s + t[..|t| - 1];
      TakesOnConcat(advances, s, t[..|t| - 1], a);
    }
  }

  lemma {:induction false} TakenFromConcat(s: seq<Taken>, t: seq<Taken>, i: nat)
    ensures TakenFrom(s + t, i) == TakenFrom(s, i) + TakenFrom(t, i)
  {
    if t == [] {
      assert s + t == s;
    } else {
      assert (s + t)[..|s + t| - 1] == s + t[..|t| - 1];
      TakenFromConcat(s, t[..|t| - 1], i);
    }
  }

  lemma {:induction false} NetOnConcat(s: seq<PayLine>, t: seq<PayLine>, a: Account)
    ensures NetOn(s + t, a) == NetOn(s, a) + NetOn(t, a)
  {
    if t == [] {
      assert s + t == s;
    } else {
      assert (s + t)[..|s + t| - 1] == s + t[..|t| - 1];
      NetOnConcat(s, t[..|t| - 1], a);
    }
  }

  /** What is credited back to the receivables is what was taken from the advances on them. */
  ghost predicate TakesAgree(advances: seq<Advance>, credits: Tally<Account>, takes: seq<Taken>, deduction: int)
  {
    && Distinct(credits) && AllPositive(credits) && Known(advances, takes) && Total(credits) == deduction
    && forall a :: Get(credits, a) == TakesOn(advances, takes, a)
  }

  /** What is credited as net pay is what the lines owe on each account. */
  ghost predicate NetsAgree(credits: Tally<Account>, lines: seq<PayLine>, net: int)
  {
    Distinct(credits) && Total(credits) == net && forall a :: Get(credits, a) == NetOn(lines, a)
  }

  /** The figures agree with one another. */
  ghost predicate Consistent(advances: seq<Advance>, f: Figures)
  {
    && TakesAgree(advances, f.advanceCredits, f.takes, f.deduction)
    && NetsAgree(f.netPayCredits, f.lines, f.net)
    && f.net == f.gross - f.employeeShares - f.deduction
    && 0 <= f.gross && 0 <= f.employeeShares && 0 <= f.employerShares
  }

  lemma {:induction false} MoreTakesAgree(advances: seq<Advance>, credits: Tally<Account>, takes: seq<Taken>, deduction: int, more: seq<Taken>)
    requires TakesAgree(advances, credits, takes, deduction) && Known(advances, more)
    ensures TakesAgree(advances, CreditTakes(advances, credits, more), takes + more, deduction + SumBy(more, TakenAmount))
  {
    CreditTakesAdds(advances, credits, more);
    CreditTakesPositive(advances, credits, more);
    forall a ensures Get(CreditTakes(advances, credits, more), a) == TakesOn(advances, takes + more, a) {
      TakesOnConcat(advances, takes, more, a);
    }
    JoinKnown(advances, takes, more);
  }

  lemma {:induction false} MoreNetAgrees(credits: Tally<Account>, lines: seq<PayLine>, net: int, l: PayLine)
    requires NetsAgree(credits, lines, net)
    ensures NetsAgree(Add(credits, l.account, l.net), lines + [l], net + l.net)
  {
    AddEffect(credits, l.account, l.net);
    assert (lines + [l])[..|lines|] == lines;
  }

  lemma {:induction false} WithTakesConsistent(advances: seq<Advance>, run: nat, f: Figures, e: Employee, takes: seq<Taken>)
    requires Consistent(advances, f) && Known(advances, takes)
    ensures Consistent(advances, WithTakes(advances, run, f, e, takes))
  {
    var net := e.gross - e.employeeShare - SumBy(takes, TakenAmount);
    MoreTakesAgree(advances, f.advanceCredits, f.takes, f.deduction, takes);
    MoreNetAgrees(f.netPayCredits, f.lines, f.net, PayLine(run, e.id, net, e.account));
  }

  lemma {:induction false} JoinKnown(advances: seq<Advance>, s: seq<Taken>, t: seq<Taken>)
    requires Known(advances, s) && Known(advances, t)
    ensures Known(advances, s + t)
  {
  }

  lemma {:induction false} ComputeConsistent(advances: seq<Advance>, taken: seq<Taken>, run: nat, roster: seq<Employee>)
    ensures Consistent(advances, Compute(advances, taken, run, roster))
  {
    if roster == [] {
      forall a ensures Get<Account>([], a) == 0 {}
    } else {
      ComputeConsistent(advances, taken, run, roster[..|roster| - 1]);
      var e := roster[|roster| - 1];
      TakesOfKnown(advances, taken, e.id, |advances|);
      WithTakesConsistent(advances, run, Compute(advances, taken, run, roster[..|roster| - 1]), e, TakesOf(advances, taken, e.id, |advances|));
    }
  }

  // ---- the entry ----

  lemma {:induction false} CreditsSums(t: Tally<Account>)
    ensures SumBy(Credits(t), CreditOf) == Total(t) && SumBy(Credits(t), DebitOf) == 0
    ensures AllOneSided(Credits(t)) <==> AllPositive(t)
  {
    if t != [] {
      var n := |t| - 1;
      CreditsSums(t[..n]);
      assert Credits(t)[..n] == Credits(t[..n]);
    }
    CreditsSides(t);
  }

  lemma {:induction false} CreditsSides(t: Tally<Account>)
    ensures AllOneSided(Credits(t)) <==> AllPositive(t)
  {
    forall i | 0 <= i < |t| ensures OneSided(Credits(t)[i]) <==> 0 < t[i].1 {}
    if AllOneSided(Credits(t)) {
      assert forall i :: 0 <= i < |t| ==> OneSided(Credits(t)[i]);
    }
  }

  lemma {:induction false} CreditsNet(t: Tally<Account>, a: Account)
    requires Distinct(t)
    ensures Net(Credits(t), a) == 0 - Get(t, a)
  {
    if t != [] {
      var n := |t| - 1;
      CreditsNet(t[..n], a);
      assert Credits(t)[..n] == Credits(t[..n]);
      LastEntry(t, a);
    }
  }

  function Head(f: Figures): seq<Line>
  {
    [Dr(Mapped(SalaryExpense), f.gross), Dr(Mapped(GosiExpense), f.employerShares), Cr(Mapped(GosiPayable), f.employeeShares + f.employerShares)]
  }

  lemma {:induction false} HeadSums(f: Figures)
    requires 0 <= f.employeeShares && 0 <= f.employerShares
    ensures SumBy(Head(f), DebitOf) == f.gross + f.employerShares && SumBy(Head(f), CreditOf) == f.employeeShares + f.employerShares
    ensures AllOneSided(Head(f)) <==> 0 < f.gross && 0 < f.employerShares
    ensures forall a :: Net(Head(f), a) == (if a == Mapped(SalaryExpense) then f.gross else 0) + (if a == Mapped(GosiExpense) then f.employerShares else 0)
                                           - (if a == Mapped(GosiPayable) then f.employeeShares + f.employerShares else 0)
  {
    var x, y, z := Dr(Mapped(SalaryExpense), f.gross), Dr(Mapped(GosiExpense), f.employerShares), Cr(Mapped(GosiPayable), f.employeeShares + f.employerShares);
    OneLine(x);
    OneLine(y);
    OneLine(z);
    Join([x], [y], [z]);
    assert [x] + [y] + [z] == Head(f);
  }

  /** The entry balances for every roster, and the engine accepts it exactly when every posted amount is positive:
      some gross, some employer share, and no account's net pay nil or negative. */
  lemma {:induction false} PayrollEntryAccepted(advances: seq<Advance>, taken: seq<Taken>, run: nat, roster: seq<Employee>)
    ensures var f := Compute(advances, taken, run, roster);
      && Balances(EntryOf(f))
      && (ValidShape(EntryOf(f)) <==> 0 < f.gross && 0 < f.employerShares && AllPositive(f.netPayCredits))
  {
    var f := Compute(advances, taken, run, roster);
    ComputeConsistent(advances, taken, run, roster);
    HeadSums(f);
    CreditsSums(f.advanceCredits);
    CreditsSums(f.netPayCredits);
    Join(Head(f), Credits(f.advanceCredits), Credits(f.netPayCredits));
  }

  /** It expenses the salaries, owes the contributions, takes the advances back and owes the net pay, account by account. */
  lemma {:induction false} PayrollEntryNet(advances: seq<Advance>, taken: seq<Taken>, run: nat, roster: seq<Employee>, a: Account)
    ensures var f := Compute(advances, taken, run, roster);
      Net(EntryOf(f), a) == (if a == Mapped(SalaryExpense) then f.gross else 0) + (if a == Mapped(GosiExpense) then f.employerShares else 0)
                            - (if a == Mapped(GosiPayable) then f.employeeShares + f.employerShares else 0)
                            - TakesOn(advances, f.takes, a) - NetOn(f.lines, a)
  {
    var f := Compute(advances, taken, run, roster);
    ComputeConsistent(advances, taken, run, roster);
    HeadSums(f);
    CreditsNet(f.advanceCredits, a);
    CreditsNet(f.netPayCredits, a);
    Join(Head(f), Credits(f.advanceCredits), Credits(f.netPayCredits));
  }

  // ---- the code ----

  lemma {:induction false} OneMoreTake(advances: seq<Advance>, credits: Tally<Account>, takes: seq<Taken>, t: Taken)
    requires t.advance < |advances|
    ensures CreditTakes(advances, credits, takes + [t]) == Add(CreditTakes(advances, credits, takes), advances[t.advance].account, t.amount)
    ensures SumBy(takes + [t], TakenAmount) == SumBy(takes, TakenAmount) + t.amount
  {
    assert (takes + [t])[..|takes|] == takes;
  }

  lemma {:induction false} TakesOfStep(advances: seq<Advance>, taken: seq<Taken>, employee: nat, i: nat)
    requires i < |advances|
    ensures TakesOf(advances, taken, employee, i + 1)
         == if advances[i].employee == employee && 0 < Instalment(advances, taken, i)
            then TakesOf(advances, taken, employee, i) + [Taken(i, Instalment(advances, taken, i))] else TakesOf(advances, taken, employee, i)
  {
  }

  /** The loop over one employee's advances. */
  method ApplyAdvances(advances: seq<Advance>, taken: seq<Taken>, employee: nat, credits: Tally<Account>)
    returns (deduction: int, applied: seq<Taken>, after: Tally<Account>)
    ensures applied == TakesOf(advances, taken, employee, |advances|)
    ensures deduction == SumBy(applied, TakenAmount) && after == CreditTakes(advances, credits, applied)
  {
    deduction, applied, after := 0, [], credits;
    for i := 0 to |advances|
      invariant applied == TakesOf(advances, taken, employee, i)
      invariant deduction == SumBy(applied, TakenAmount) && after == CreditTakes(advances, credits, applied)
    {
      TakesOfStep(advances, taken, employee, i);
      if advances[i].employee != employee {
        continue;
      }
      var remaining := Remaining(advances, taken, i);
      var take := if remaining <= advances[i].installment then remaining else advances[i].installment;
      if remaining <= 0 || take <= 0 {
        continue;
      }
      OneMoreTake(advances, credits, applied, Taken(i, take));
      applied := applied + [Taken(i, take)];
      after := Add(after, advances[i].account, take);
      deduction := deduction + take;
    }
  }

  /** The loop over the roster. */
  method ComputeRun(advances: seq<Advance>, taken: seq<Taken>, run: nat, roster: seq<Employee>) returns (f: Figures)
    ensures f == Compute(advances, taken, run, roster)
  {
    f := NOTHING;
    for i := 0 to |roster|
      invariant f == Compute(advances, taken, run, roster[..i])
    {
      assert roster[..i + 1][..i] == roster[..i];
      var e := roster[i];
      var deduction, applied, advanceCredits := ApplyAdvances(advances, taken, e.id, f.advanceCredits);
      var net := e.gross - e.employeeShare - deduction;
      f := Figures(f.gross + e.gross, f.employeeShares + e.employeeShare, f.employerShares + e.employerShare, f.deduction + deduction, f.net + net,
                   advanceCredits, Add(f.netPayCredits, e.account, net), f.takes + applied, f.lines + [PayLine(run, e.id, net, e.account)]);
    }
    assert roster[..|roster|] == roster;
  }
}
