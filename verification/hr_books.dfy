/** Advances, payroll runs, contributions and salaries owed, and what each transaction on them would write. */
module HrBooks {
  import opened Wrappers
  import opened Sums
  import opened Journal
  import opened Invoicing
  import opened Payroll

  /** The tables a transaction inserts into. gosiOwed has one figure a run, paid the positions of paid salary lines. */
  datatype Books = Books(
    advances: seq<Advance>,
    taken: seq<Taken>,
    gosiOwed: seq<int>,
    gosiPaid: seq<int>,
    lines: seq<PayLine>,
    paid: seq<nat>,
    ledger: Ledger)

  const EMPTY_BOOKS := Books([], [], [], [], [], [], [])

  function Applied(b: Books, plan: Books): Books
  {
    Books(b.advances + plan.advances, b.taken + plan.taken, b.gosiOwed + plan.gosiOwed, b.gosiPaid + plan.gosiPaid,
          b.lines + plan.lines, b.paid + plan.paid, b.ledger + plan.ledger)
  }

  datatype Work =
    | Grant(advance: Advance, cash: Account, date: Day)
    | Repay(which: nat, amount: nat, cash: Account, date: Day)
    | RunPayroll(run: nat, roster: seq<Employee>, date: Day)
    | PayGosi(amount: nat, cash: Account, date: Day)
    | PaySalaries(run: nat, who: Option<set<nat>>, cash: Account, date: Day)

  function Same(n: int): int { n }

  /** gosiOutstanding: what the runs owed less what has been remitted. */
  function GosiOutstanding(b: Books): int
  {
    SumBy(b.gosiOwed, Same) - SumBy(b.gosiPaid, Same)
  }

  predicate Due(b: Books, run: nat, who: Option<set<nat>>, k: nat)
    requires k < |b.lines|
  {
    b.lines[k].run == run && 0 < b.lines[k].net && k !in b.paid && (who.Some? ==> b.lines[k].employee in who.value)
  }

  /** The run's salary lines still to be paid, among the first n of the table. */
  function Unpaid(b: Books, run: nat, who: Option<set<nat>>, n: nat): seq<nat>
    requires n <= |b.lines|
  {
    if n == 0 then [] else Unpaid(b, run, who, n - 1) + if Due(b, run, who, n - 1) then [n - 1] else []
  }

  /** The debts paid off, account by account in first-seen order. */
  function ByPayAccount(lines: seq<PayLine>, items: seq<nat>): Tally<Account>
  {
    if items == [] then []
    else
      var k, before := items[|items| - 1], ByPayAccount(lines, items[..|items| - 1]);
      if k < |lines| then Add(before, lines[k].account, lines[k].net) else before
  }

  function Debits(t: Tally<Account>): (s: seq<Line>)
    ensures |s| == |t|
  {
    seq(|t|, i requires 0 <= i < |t| => Dr(t[i].0, t[i].1))
  }

  /** post: the debts on one side, the bank or cash account on the other. */
  function PaymentOf(debits: Tally<Account>, cash: Account): seq<Line>
  {
    Debits(debits) + [Cr(cash, Total(debits))]
  }

  function Pair(debit: Account, credit: Account, amount: int): seq<Line> { [Dr(debit, amount), Cr(credit, amount)] }

  function PayrollRows(f: Figures, date: Day): Books
  {
    EMPTY_BOOKS.(taken := f.takes, lines := f.lines, gosiOwed := [f.employeeShares + f.employerShares], ledger := [Entry(date, EntryOf(f))])
  }

  /** A run always has lines, so they show whether a period has been run. */
  predicate HasRun(lines: seq<PayLine>, run: nat)
  {
    exists i :: 0 <= i < |lines| && lines[i].run == run
  }

  /** What the transaction would insert given what it reads, unless it is refused; a salary line may not be negative. */
  function PlanOf(b: Books, w: Work): Option<Books>
  {
    match w
    case Grant(advance, cash, date) =>
      if !ValidShape(Pair(advance.account, cash, advance.amount)) then None
      else Some(EMPTY_BOOKS.(advances := [advance], ledger := [Entry(date, Pair(advance.account, cash, advance.amount))]))
    case Repay(which, amount, cash, date) =>
      if |b.advances| <= which then None
      else
        var remaining := Remaining(b.advances, b.taken, which);
        var entry := Pair(cash, b.advances[which].account, amount);
        if remaining <= 0 || remaining < amount || !ValidShape(entry) then None
        else Some(EMPTY_BOOKS.(taken := [Taken(which, amount)], ledger := [Entry(date, entry)]))
    case RunPayroll(run, roster, date) =>
      var f := Compute(b.advances, b.taken, run, roster);
      if HasRun(b.lines, run) || !ValidShape(EntryOf(f)) || exists i :: 0 <= i < |f.lines| && f.lines[i].net < 0 then None
      else Some(PayrollRows(f, date))
    case PayGosi(amount, cash, date) =>
      var outstanding := GosiOutstanding(b);
      var entry := PaymentOf([(Mapped(GosiPayable), amount)], cash);
      if outstanding <= 0 || outstanding < amount || !ValidShape(entry) then None
      else Some(EMPTY_BOOKS.(gosiPaid := [amount], ledger := [Entry(date, entry)]))
    case PaySalaries(run, who, cash, date) =>
      var items := Unpaid(b, run, who, |b.lines|);
      var entry := PaymentOf(ByPayAccount(b.lines, items), cash);
      if items == [] || !ValidShape(entry) then None
      else Some(SalaryRows(items, entry, date))
  }

  // ---- what accounts are for ----

  datatype Use = ForAdvances | ForNetPay | ForCash | ForOther

  /** Documents name accounts only for what they are for. */
  predicate Respects(use: Account -> Use, w: Work)
  {
    match w
    case Grant(advance, cash, _) => use(advance.account) == ForAdvances && use(cash) == ForCash
    case Repay(_, _, cash, _) => use(cash) == ForCash
    case RunPayroll(_, roster, _) => forall i :: 0 <= i < |roster| ==> use(roster[i].account) == ForNetPay
    case PayGosi(_, cash, _) => use(cash) == ForCash
    case PaySalaries(_, _, cash, _) => use(cash) == ForCash
  }

  predicate Separate(use: Account -> Use)
  {
    use(Mapped(GosiPayable)) == ForOther && use(Mapped(SalaryExpense)) == ForOther && use(Mapped(GosiExpense)) == ForOther
  }

  function GrantedOn(advances: seq<Advance>, a: Account): int
  {
    if advances == [] then 0
    else
      var last := advances[|advances| - 1];
      GrantedOn(advances[..|advances| - 1], a) + if last.account == a then last.amount else 0
  }

  function PaidOn(lines: seq<PayLine>, paid: seq<nat>, a: Account): int
  {
    if paid == [] then 0
    else
      var k := paid[|paid| - 1];
      PaidOn(lines, paid[..|paid| - 1], a) + if k < |lines| && lines[k].account == a then lines[k].net else 0
  }

  /** What all advances on an account still owe. */
  function RemainingOn(advances: seq<Advance>, taken: seq<Taken>, a: Account, n: nat): int
    requires n <= |advances|
  {
    if n == 0 then 0
    else RemainingOn(advances, taken, a, n - 1) + if advances[n - 1].account == a then Remaining(advances, taken, n - 1) else 0
  }

  lemma {:induction false} RemainingOnTakes(advances: seq<Advance>, taken: seq<Taken>, t: Taken, a: Account, n: nat)
    requires n <= |advances|
    ensures RemainingOn(advances, taken + [t], a, n)
         == RemainingOn(advances, taken, a, n) - if t.advance < n && advances[t.advance].account == a then t.amount else 0
  {
    if n > 0 {
      RemainingOnTakes(advances, taken, t, a, n - 1);
      assert (taken + [t])[..|taken|] == taken;
    }
  }

  lemma {:induction false} RemainingOnNone(advances: seq<Advance>, a: Account, n: nat)
    requires n <= |advances|
    ensures RemainingOn(advances, [], a, n) == GrantedOn(advances[..n], a)
  {
    if n > 0 {
      RemainingOnNone(advances, a, n - 1);
      assert advances[..n][..n - 1] == advances[..n - 1];
    }
  }

  /** Granted less taken, account by account, is what remains, advance by advance. */
  lemma {:induction false} RemainingIsGrantedLessTaken(advances: seq<Advance>, taken: seq<Taken>, a: Account)
    ensures RemainingOn(advances, taken, a, |advances|) == GrantedOn(advances, a) - TakesOn(advances, taken, a)
  {
    if taken == [] {
      RemainingOnNone(advances, a, |advances|);
      assert advances[..|advances|] == advances;
    } else {
      var before, t := taken[..|taken| - 1], taken[|taken| - 1];
      RemainingIsGrantedLessTaken(advances, before, a);
      RemainingOnTakes(advances, before, t, a, |advances|);
      assert before + [t] == taken;
    }
  }

  // ---- what a plan is ----

  /** What the plan's entry does to the accounts, and that it names only rows there are. */
  ghost predicate Tied(use: Account -> Use, b: Books, p: Books)
  {
    && |p.ledger| == 1 && ValidShape(p.ledger[0].lines)
    && Known(b.advances, p.taken) && (forall i :: 0 <= i < |p.paid| ==> p.paid[i] < |b.lines|)
    && (forall a :: use(a) == ForAdvances ==> Net(p.ledger[0].lines, a) == GrantedOn(p.advances, a) - TakesOn(b.advances, p.taken, a))
    && (forall a :: use(a) == ForNetPay ==> Net(p.ledger[0].lines, a) == PaidOn(b.lines, p.paid, a) - NetOn(p.lines, a))
    && Net(p.ledger[0].lines, Mapped(GosiPayable)) == SumBy(p.gosiPaid, Same) - SumBy(p.gosiOwed, Same)
  }

  predicate Purposeful(use: Account -> Use, b: Books)
  {
    && (forall i :: 0 <= i < |b.advances| ==> use(b.advances[i].account) == ForAdvances)
    && (forall i :: 0 <= i < |b.lines| ==> use(b.lines[i].account) == ForNetPay)
  }

  lemma {:induction false} NoTakesOn(use: Account -> Use, b: Books, takes: seq<Taken>, a: Account)
    requires Purposeful(use, b) && use(a) != ForAdvances
    ensures TakesOn(b.advances, takes, a) == 0
  {
    if takes != [] {
      NoTakesOn(use, b, takes[..|takes| - 1], a);
    }
  }

  lemma {:induction false} NothingPaidOn(use: Account -> Use, b: Books, items: seq<nat>, a: Account)
    requires Purposeful(use, b) && use(a) != ForNetPay
    ensures PaidOn(b.lines, items, a) == 0
  {
    if items != [] {
      NothingPaidOn(use, b, items[..|items| - 1], a);
    }
  }

  lemma {:induction false} GrantTied(use: Account -> Use, b: Books, w: Work)
    requires Separate(use) && Respects(use, w) && w.Grant? && PlanOf(b, w).Some?
    ensures Tied(use, b, PlanOf(b, w).value)
  {
    PairShape(w.advance.account, w.cash, w.advance.amount);
    assert [w.advance][..0] == [];
  }

  lemma {:induction false} RepayTied(use: Account -> Use, b: Books, w: Work)
    requires Separate(use) && Respects(use, w) && Purposeful(use, b) && w.Repay? && PlanOf(b, w).Some?
    ensures Tied(use, b, PlanOf(b, w).value)
  {
    PairShape(w.cash, b.advances[w.which].account, w.amount);
    assert [Taken(w.which, w.amount)][..0] == [];
  }

  lemma {:induction false} LinesPurposeful(advances: seq<Advance>, taken: seq<Taken>, run: nat, roster: seq<Employee>)
    ensures var lines := Compute(advances, taken, run, roster).lines;
      |lines| == |roster| && forall i :: 0 <= i < |roster| ==>
        lines[i].account == roster[i].account && lines[i].run == run && lines[i].employee == roster[i].id
  {
    if roster != [] {
      LinesPurposeful(advances, taken, run, roster[..|roster| - 1]);
    }
  }

  lemma {:induction false} NothingOn(use: Account -> Use, lines: seq<PayLine>, a: Account)
    requires use(a) != ForNetPay && forall i :: 0 <= i < |lines| ==> use(lines[i].account) == ForNetPay
    ensures NetOn(lines, a) == 0
  {
    if lines != [] {
      NothingOn(use, lines[..|lines| - 1], a);
    }
  }

  lemma {:induction false} PayrollNets(use: Account -> Use, b: Books, w: Work, a: Account)
    requires Separate(use) && Respects(use, w) && Purposeful(use, b) && w.RunPayroll?
    ensures var f := Compute(b.advances, b.taken, w.run, w.roster);
      && (use(a) == ForAdvances ==> Net(EntryOf(f), a) == 0 - TakesOn(b.advances, f.takes, a))
      && (use(a) == ForNetPay ==> Net(EntryOf(f), a) == 0 - NetOn(f.lines, a))
      && (a == Mapped(GosiPayable) ==> Net(EntryOf(f), a) == 0 - (f.employeeShares + f.employerShares))
  {
    var f := Compute(b.advances, b.taken, w.run, w.roster);
    PayrollEntryNet(b.advances, b.taken, w.run, w.roster, a);
    if use(a) != ForAdvances {
      NoTakesOn(use, b, f.takes, a);
    }
    LinesPurposeful(b.advances, b.taken, w.run, w.roster);
    if use(a) != ForNetPay {
      NothingOn(use, f.lines, a);
    }
  }

  lemma {:induction false} OneOwed(n: int)
    ensures SumBy([n], Same) == n && SumBy([], Same) == 0
  {
    assert [n][..0] == [];
  }

  lemma {:induction false} PayrollRowsTied(use: Account -> Use, b: Books, f: Figures, date: Day)
    requires ValidShape(EntryOf(f)) && Known(b.advances, f.takes)
    requires forall a :: use(a) == ForAdvances ==> Net(EntryOf(f), a) == 0 - TakesOn(b.advances, f.takes, a)
    requires forall a :: use(a) == ForNetPay ==> Net(EntryOf(f), a) == 0 - NetOn(f.lines, a)
    requires Net(EntryOf(f), Mapped(GosiPayable)) == 0 - (f.employeeShares + f.employerShares)
    ensures Tied(use, b, PayrollRows(f, date))
  {
    OneOwed(f.employeeShares + f.employerShares);
  }

  lemma {:induction false} PayrollTied(use: Account -> Use, b: Books, w: Work)
    requires Separate(use) && Respects(use, w) && Purposeful(use, b) && w.RunPayroll? && PlanOf(b, w).Some?
    ensures Tied(use, b, PlanOf(b, w).value)
  {
    ComputeConsistent(b.advances, b.taken, w.run, w.roster);
    forall a {
      PayrollNets(use, b, w, a);
    }
    PayrollRowsTied(use, b, Compute(b.advances, b.taken, w.run, w.roster), w.date);
  }

  lemma {:induction false} DebitsNet(t: Tally<Account>, a: Account)
    requires Distinct(t)
    ensures Net(Debits(t), a) == Get(t, a)
  {
    if t != [] {
      var n := |t| - 1;
      DebitsNet(t[..n], a);
      assert Debits(t)[..n] == Debits(t[..n]);
      LastEntry(t, a);
    }
  }

  lemma {:induction false} PaymentNet(t: Tally<Account>, cash: Account, a: Account)
    requires Distinct(t) && a != cash
    ensures Net(PaymentOf(t, cash), a) == Get(t, a)
  {
    DebitsNet(t, a);
    OneLine(Cr(cash, Total(t)));
    NetConcat(Debits(t), [Cr(cash, Total(t))], a);
  }

  lemma {:induction false} ByPayAccountSums(lines: seq<PayLine>, items: seq<nat>)
    ensures Distinct(ByPayAccount(lines, items))
    ensures forall a :: Get(ByPayAccount(lines, items), a) == PaidOn(lines, items, a)
  {
    if items == [] {
      forall a ensures Get<Account>([], a) == 0 {}
    } else {
      var k, before := items[|items| - 1], items[..|items| - 1];
      ByPayAccountSums(lines, before);
      if k < |lines| {
        AddEffect(ByPayAccount(lines, before), lines[k].account, lines[k].net);
      }
    }
  }

  lemma {:induction false} GosiTied(use: Account -> Use, b: Books, w: Work)
    requires Separate(use) && Respects(use, w) && w.PayGosi? && PlanOf(b, w).Some?
    ensures Tied(use, b, PlanOf(b, w).value)
  {
    var t: Tally<Account> := [(Mapped(GosiPayable), w.amount)];
    forall a | a != w.cash ensures Net(PaymentOf(t, w.cash), a) == if a == Mapped(GosiPayable) then w.amount else 0 {
      PaymentNet(t, w.cash, a);
    }
    assert [w.amount][..0] == [];
  }

  lemma {:induction false} UnpaidLines(b: Books, run: nat, who: Option<set<nat>>, n: nat)
    requires n <= |b.lines|
    ensures forall k :: k in Unpaid(b, run, who, n) <==> 0 <= k < n && Due(b, run, who, k)
    ensures NoRepeats(Unpaid(b, run, who, n))
  {
    if n > 0 {
      UnpaidLines(b, run, who, n - 1);
      NoRepeatsSnoc(Unpaid(b, run, who, n - 1), n - 1);
    }
  }

  predicate NoRepeats(s: seq<nat>)
  {
    forall i, j :: 0 <= i < j < |s| ==> s[i] != s[j]
  }

  lemma {:induction false} NoRepeatsSnoc(s: seq<nat>, k: nat)
    requires NoRepeats(s) && k !in s
    ensures NoRepeats(s + [k])
  {
  }

  function SalaryRows(items: seq<nat>, entry: seq<Line>, date: Day): Books
  {
    EMPTY_BOOKS.(paid := items, ledger := [Entry(date, entry)])
  }

  lemma {:induction false} SalaryRowsTied(use: Account -> Use, b: Books, items: seq<nat>, entry: seq<Line>, date: Day)
    requires Separate(use) && Purposeful(use, b) && ValidShape(entry) && forall i :: 0 <= i < |items| ==> items[i] < |b.lines|
    requires forall a :: use(a) != ForCash ==> Net(entry, a) == PaidOn(b.lines, items, a)
    ensures Tied(use, b, SalaryRows(items, entry, date))
  {
    forall a | use(a) != ForNetPay ensures PaidOn(b.lines, items, a) == 0 {
      NothingPaidOn(use, b, items, a);
    }
  }

  lemma {:induction false} SalariesNet(lines: seq<PayLine>, items: seq<nat>, cash: Account)
    ensures forall a :: a != cash ==> Net(PaymentOf(ByPayAccount(lines, items), cash), a) == PaidOn(lines, items, a)
  {
    ByPayAccountSums(lines, items);
    forall a | a != cash {
      PaymentNet(ByPayAccount(lines, items), cash, a);
    }
  }

  lemma {:induction false} SalariesTied(use: Account -> Use, b: Books, w: Work)
    requires Separate(use) && Respects(use, w) && Purposeful(use, b) && w.PaySalaries? && PlanOf(b, w).Some?
    ensures Tied(use, b, PlanOf(b, w).value)
  {
    var items := Unpaid(b, w.run, w.who, |b.lines|);
    UnpaidLines(b, w.run, w.who, |b.lines|);
    assert forall i :: 0 <= i < |items| ==> items[i] in items;
    SalariesNet(b.lines, items, w.cash);
    SalaryRowsTied(use, b, items, PaymentOf(ByPayAccount(b.lines, items), w.cash), w.date);
  }

  lemma {:induction false} PlanTied(use: Account -> Use, b: Books, w: Work)
    requires Separate(use) && Respects(use, w) && Purposeful(use, b) && PlanOf(b, w).Some?
    ensures Tied(use, b, PlanOf(b, w).value)
  {
    match w
    case Grant(_, _, _) => GrantTied(use, b, w);
    case Repay(_, _, _, _) => RepayTied(use, b, w);
    case RunPayroll(_, _, _) => PayrollTied(use, b, w);
    case PayGosi(_, _, _) => GosiTied(use, b, w);
    case PaySalaries(_, _, _, _) => SalariesTied(use, b, w);
  }
}
