/** Trial balance, income, balance sheet and cash flow over the ledger, and the identities between them. */
module FinancialReports {
  import opened Wrappers
  import opened Sums
  import opened Journal

  datatype Type = Asset | Liability | Equity | Revenue | Expense
  datatype Normal = DebitNormal | CreditNormal

  datatype ChartRow = ChartRow(id: Account, code: string, kind: Type, normal: Normal)

  function NormalBalanceFor(t: Type): Normal
  {
    if t == Asset || t == Expense then DebitNormal else CreditNormal
  }

  predicate OnBalanceSheet(t: Type) { t == Asset || t == Liability || t == Equity }

  predicate OncePerAccount(chart: seq<ChartRow>)
  {
    forall i, j :: 0 <= i < j < |chart| ==> chart[i].id != chart[j].id
  }

  predicate InChart(chart: seq<ChartRow>, a: Account)
  {
    exists i :: 0 <= i < |chart| && chart[i].id == a
  }

  /** Accounts are distinct, keep the normal balance of their type, and every posted line names one of them. */
  predicate Charted(chart: seq<ChartRow>, ledger: Ledger)
  {
    && OncePerAccount(chart)
    && (forall i :: 0 <= i < |chart| ==> chart[i].normal == NormalBalanceFor(chart[i].kind))
    && (forall i :: 0 <= i < |ledger| ==> LinesCharted(chart, ledger[i].lines))
  }

  predicate LinesCharted(chart: seq<ChartRow>, lines: seq<Line>)
  {
    forall j :: 0 <= j < |lines| ==> InChart(chart, lines[j].account)
  }

  // ---- what an account was debited and credited ----

  function Turnover(lines: seq<Line>, a: Account, side: Line -> int): int
  {
    if lines == [] then 0
    else
      var l := lines[|lines| - 1];
      Turnover(lines[..|lines| - 1], a, side) + if l.account == a then side(l) else 0
  }

  /** Entries dated from .. to; without a first day, everything up to the last. */
  datatype Period = Period(from: Option<Day>, to: Day)

  const ALL_TIME := Period(None, FAR_FUTURE)

  predicate In(day: Day, p: Period)
  {
    (p.from.Some? ==> p.from.value <= day) && day <= p.to
  }

  function Posted(ledger: Ledger, a: Account, p: Period, side: Line -> int): int
  {
    if ledger == [] then 0
    else
      var e := ledger[|ledger| - 1];
      Posted(ledger[..|ledger| - 1], a, p, side) + if In(e.date, p) then Turnover(e.lines, a, side) else 0
  }

  /** Debits less credits over the period. */
  function Change(ledger: Ledger, a: Account, p: Period): int
  {
    Posted(ledger, a, p, DebitOf) - Posted(ledger, a, p, CreditOf)
  }

  function Opening(ledger: Ledger, a: Account, p: Period): int
  {
    if p.from.Some? then NetUpTo(ledger, a, p.from.value - 1) else 0
  }

  lemma {:induction false} TurnoverNet(lines: seq<Line>, a: Account)
    ensures Turnover(lines, a, DebitOf) - Turnover(lines, a, CreditOf) == Net(lines, a)
  {
    if lines != [] {
      TurnoverNet(lines[..|lines| - 1], a);
    }
  }

  /** What happens in a period is what changes the balance over it. */
  lemma {:induction false} ChangeIsNet(ledger: Ledger, a: Account, p: Period)
    requires p.from.Some? ==> p.from.value - 1 <= p.to
    ensures Change(ledger, a, p) == NetUpTo(ledger, a, p.to) - Opening(ledger, a, p)
  {
    if ledger != [] {
      ChangeIsNet(ledger[..|ledger| - 1], a, p);
      TurnoverNet(ledger[|ledger| - 1].lines, a);
    }
  }

  // ---- across the chart ----

  function Across(chart: seq<ChartRow>, f: ChartRow -> int): int
  {
    SumBy(chart, f)
  }

  lemma {:induction false} AcrossAdd(chart: seq<ChartRow>, f: ChartRow -> int, g: ChartRow -> int, h: ChartRow -> int)
    requires forall r :: r in chart ==> h(r) == f(r) + g(r)
    ensures Across(chart, h) == Across(chart, f) + Across(chart, g)
  {
    if chart != [] {
      AcrossAdd(chart[..|chart| - 1], f, g, h);
    }
  }

  lemma {:induction false} AcrossSame(chart: seq<ChartRow>, f: ChartRow -> int, g: ChartRow -> int)
    requires forall r :: r in chart ==> f(r) == g(r)
    ensures Across(chart, f) == Across(chart, g)
  {
    if chart != [] {
      AcrossSame(chart[..|chart| - 1], f, g);
    }
  }

  function At(a: Account, v: int): ChartRow -> int { (r: ChartRow) => if r.id == a then v else 0 }

  lemma {:induction false} AcrossNone(chart: seq<ChartRow>, a: Account, v: int)
    requires !InChart(chart, a)
    ensures Across(chart, At(a, v)) == 0
  {
    if chart != [] {
      var n := |chart| - 1;
      assert !InChart(chart[..n], a) by {
        assert forall i :: 0 <= i < n ==> chart[..n][i] == chart[i];
      }
      AcrossNone(chart[..n], a, v);
      assert chart[n].id != a;
    }
  }

  lemma {:induction false} AcrossOne(chart: seq<ChartRow>, a: Account, v: int)
    requires OncePerAccount(chart) && InChart(chart, a)
    ensures Across(chart, At(a, v)) == v
  {
    var n := |chart| - 1;
    if chart[n].id == a {
      assert !InChart(chart[..n], a);
      AcrossNone(chart[..n], a, v);
    } else {
      var i :| 0 <= i < |chart| && chart[i].id == a;
      assert chart[..n][i].id == a;
      AcrossOne(chart[..n], a, v);
    }
  }

  function TurnoverOf(lines: seq<Line>, side: Line -> int): ChartRow -> int { (r: ChartRow) => Turnover(lines, r.id, side) }

  function PostedOf(ledger: Ledger, p: Period, side: Line -> int): ChartRow -> int
  {
    (r: ChartRow) => Posted(ledger, r.id, p, side)
  }

  /** One side of an entry, account by account, is that side in all. */
  lemma {:induction false} AcrossLines(chart: seq<ChartRow>, lines: seq<Line>, side: Line -> int)
    requires OncePerAccount(chart) && LinesCharted(chart, lines)
    ensures Across(chart, TurnoverOf(lines, side)) == SumBy(lines, side)
  {
    if lines == [] {
      AcrossZero(chart, TurnoverOf(lines, side));
    } else {
      var before, l := lines[..|lines| - 1], lines[|lines| - 1];
      AcrossLines(chart, before, side);
      AcrossOne(chart, l.account, side(l));
      AcrossAdd(chart, TurnoverOf(before, side), At(l.account, side(l)), TurnoverOf(lines, side));
    }
  }

  lemma {:induction false} AcrossZero(chart: seq<ChartRow>, f: ChartRow -> int)
    requires forall r :: r in chart ==> f(r) == 0
    ensures Across(chart, f) == 0
  {
    if chart != [] {
      AcrossZero(chart[..|chart| - 1], f);
    }
  }

  /** Over any period the debits of all accounts equal their credits. */
  lemma {:induction false} DebitsAreCredits(chart: seq<ChartRow>, ledger: Ledger, p: Period)
    requires Charted(chart, ledger) && Sound(ledger)
    ensures Across(chart, PostedOf(ledger, p, DebitOf)) == Across(chart, PostedOf(ledger, p, CreditOf))
  {
    if ledger == [] {
      AcrossZero(chart, PostedOf(ledger, p, DebitOf));
      AcrossZero(chart, PostedOf(ledger, p, CreditOf));
    } else {
      var before, e := ledger[..|ledger| - 1], ledger[|ledger| - 1];
      DebitsAreCredits(chart, before, p);
      var lines := if In(e.date, p) then e.lines else [];
      assert LinesCharted(chart, ledger[|ledger| - 1].lines) && ValidShape(ledger[|ledger| - 1].lines);
      AcrossLines(chart, lines, DebitOf);
      AcrossLines(chart, lines, CreditOf);
      AcrossAdd(chart, PostedOf(before, p, DebitOf), TurnoverOf(lines, DebitOf), PostedOf(ledger, p, DebitOf));
      AcrossAdd(chart, PostedOf(before, p, CreditOf), TurnoverOf(lines, CreditOf), PostedOf(ledger, p, CreditOf));
    }
  }

  function NetOf(ledger: Ledger, day: Day): ChartRow -> int { (r: ChartRow) => NetUpTo(ledger, r.id, day) }

  /** On every day the balances of all accounts add up to nothing. */
  lemma {:induction false} BalancesCancel(chart: seq<ChartRow>, ledger: Ledger, day: Day)
    requires Charted(chart, ledger) && Sound(ledger)
    ensures Across(chart, NetOf(ledger, day)) == 0
  {
    if ledger == [] {
      AcrossZero(chart, NetOf(ledger, day));
    } else {
      var before, e := ledger[..|ledger| - 1], ledger[|ledger| - 1];
      BalancesCancel(chart, before, day);
      var lines := if e.date <= day then e.lines else [];
      assert LinesCharted(chart, ledger[|ledger| - 1].lines) && ValidShape(ledger[|ledger| - 1].lines);
      AcrossLines(chart, lines, DebitOf);
      AcrossLines(chart, lines, CreditOf);
      var net := (r: ChartRow) => Net(lines, r.id);
      forall r: ChartRow {
        TurnoverNet(lines, r.id);
      }
      AcrossAdd(chart, net, TurnoverOf(lines, CreditOf), TurnoverOf(lines, DebitOf));
      AcrossAdd(chart, NetOf(before, day), net, NetOf(ledger, day));
    }
  }

  /** The WHERE and HAVING of a report's query. */
  function Pick(chart: seq<ChartRow>, keep: ChartRow -> bool): seq<ChartRow>
  {
    if chart == [] then []
    else Pick(chart[..|chart| - 1], keep) + if keep(chart[|chart| - 1]) then [chart[|chart| - 1]] else []
  }

  lemma {:induction false} PickSum(chart: seq<ChartRow>, keep: ChartRow -> bool, f: ChartRow -> int)
    requires forall r :: r in chart && !keep(r) ==> f(r) == 0
    ensures SumBy(Pick(chart, keep), f) == Across(chart, f)
  {
    if chart != [] {
      var before, r := chart[..|chart| - 1], chart[|chart| - 1];
      PickSum(before, keep, f);
      SumBySnoc(Pick(before, keep), r, f);
      assert Pick(before, keep) + [] == Pick(before, keep);
    }
  }

  lemma {:induction false} PickIn(chart: seq<ChartRow>, keep: ChartRow -> bool)
    ensures forall r :: r in Pick(chart, keep) <==> r in chart && keep(r)
  {
    if chart != [] {
      PickIn(chart[..|chart| - 1], keep);
      assert chart == chart[..|chart| - 1] + [chart[|chart| - 1]];
    }
  }

  // ---- revenue and expense ----

  function RevenueOf(ledger: Ledger, p: Period): ChartRow -> int
  {
    (r: ChartRow) => if r.kind == Revenue then 0 - Change(ledger, r.id, p) else 0
  }

  function ExpenseOf(ledger: Ledger, p: Period): ChartRow -> int
  {
    (r: ChartRow) => if r.kind == Expense then Change(ledger, r.id, p) else 0
  }

  predicate Turned(ledger: Ledger, a: Account, p: Period)
  {
    Posted(ledger, a, p, DebitOf) != 0 || Posted(ledger, a, p, CreditOf) != 0
  }

  /** The loop of computeRevenueAndExpense. */
  method RevenueAndExpense(chart: seq<ChartRow>, ledger: Ledger, p: Period) returns (totalRevenue: int, totalExpense: int)
    ensures totalRevenue == Across(chart, RevenueOf(ledger, p)) && totalExpense == Across(chart, ExpenseOf(ledger, p))
  {
    var keep := (r: ChartRow) => !OnBalanceSheet(r.kind) && Turned(ledger, r.id, p);
    var rows := Pick(chart, keep);
    PickIn(chart, keep);
    totalRevenue, totalExpense := 0, 0;
    for i := 0 to |rows|
      invariant totalRevenue == SumBy(rows[..i], RevenueOf(ledger, p)) && totalExpense == SumBy(rows[..i], ExpenseOf(ledger, p))
    {
      SumByPrefix(rows, i, RevenueOf(ledger, p));
      SumByPrefix(rows, i, ExpenseOf(ledger, p));
      assert rows[i] in rows;
      var debit, credit := Posted(ledger, rows[i].id, p, DebitOf), Posted(ledger, rows[i].id, p, CreditOf);
      if rows[i].kind == Revenue {
        totalRevenue := totalRevenue + (credit - debit);
      } else {
        totalExpense := totalExpense + (debit - credit);
      }
    }
    assert rows[..|rows|] == rows;
    PickSum(chart, keep, RevenueOf(ledger, p));
    PickSum(chart, keep, ExpenseOf(ledger, p));
  }

  // ---- balance sheet ----

  function Natural(normal: Normal, change: int): int
  {
    if normal == DebitNormal then change else 0 - change
  }

  function OfKind(ledger: Ledger, p: Period, kind: Type): ChartRow -> int
  {
    (r: ChartRow) => if r.kind == kind then Natural(r.normal, Change(ledger, r.id, p)) else 0
  }

  /** Assets are liabilities and equity plus whatever was earned, over any period. */
  lemma {:induction false} AccountingEquation(chart: seq<ChartRow>, ledger: Ledger, p: Period)
    requires Charted(chart, ledger) && Sound(ledger)
    ensures Across(chart, OfKind(ledger, p, Asset))
         == Across(chart, OfKind(ledger, p, Liability)) + Across(chart, OfKind(ledger, p, Equity))
            + Across(chart, RevenueOf(ledger, p)) - Across(chart, ExpenseOf(ledger, p))
  {
    DebitsAreCredits(chart, ledger, p);
    KindsCover(chart, ledger, p);
  }

  lemma {:induction false} KindsCover(chart: seq<ChartRow>, ledger: Ledger, p: Period)
    requires forall r :: r in chart ==> r.normal == NormalBalanceFor(r.kind)
    ensures Across(chart, PostedOf(ledger, p, DebitOf)) - Across(chart, PostedOf(ledger, p, CreditOf))
         == Across(chart, OfKind(ledger, p, Asset)) - Across(chart, OfKind(ledger, p, Liability)) - Across(chart, OfKind(ledger, p, Equity))
            - Across(chart, RevenueOf(ledger, p)) + Across(chart, ExpenseOf(ledger, p))
  {
    if chart != [] {
      KindsCover(chart[..|chart| - 1], ledger, p);
      assert chart[|chart| - 1] in chart;
    }
  }

  datatype BalanceSheet = BalanceSheet(assets: int, liabilities: int, equity: int, currentEarnings: int, isBalanced: bool)

  /** The balance sheet over all entries, what was earned folded into equity: always balanced. */
  method ComputeBalanceSheet(chart: seq<ChartRow>, ledger: Ledger) returns (b: BalanceSheet)
    ensures b.assets == Across(chart, OfKind(ledger, ALL_TIME, Asset)) && b.liabilities == Across(chart, OfKind(ledger, ALL_TIME, Liability))
    ensures b.equity == Across(chart, OfKind(ledger, ALL_TIME, Equity))
    ensures b.currentEarnings == Across(chart, RevenueOf(ledger, ALL_TIME)) - Across(chart, ExpenseOf(ledger, ALL_TIME))
    ensures b.isBalanced <==> b.assets == b.liabilities + (b.equity + b.currentEarnings)
    ensures Charted(chart, ledger) && Sound(ledger) ==> b.isBalanced
  {
    var p := ALL_TIME;
    var keep := (r: ChartRow) => OnBalanceSheet(r.kind) && Turned(ledger, r.id, p);
    var rows := Pick(chart, keep);
    PickIn(chart, keep);
    var totalAssets, totalLiabilities, totalEquityAccounts := 0, 0, 0;
    for i := 0 to |rows|
      invariant totalAssets == SumBy(rows[..i], OfKind(ledger, p, Asset))
      invariant totalLiabilities == SumBy(rows[..i], OfKind(ledger, p, Liability))
      invariant totalEquityAccounts == SumBy(rows[..i], OfKind(ledger, p, Equity))
    {
      SumByPrefix(rows, i, OfKind(ledger, p, Asset));
      SumByPrefix(rows, i, OfKind(ledger, p, Liability));
      SumByPrefix(rows, i, OfKind(ledger, p, Equity));
      assert rows[i] in rows;
      var debit, credit := Posted(ledger, rows[i].id, p, DebitOf), Posted(ledger, rows[i].id, p, CreditOf);
      var net := if rows[i].normal == DebitNormal then debit - credit else credit - debit;
      if rows[i].kind == Asset {
        totalAssets := totalAssets + net;
      } else if rows[i].kind == Liability {
        totalLiabilities := totalLiabilities + net;
      } else {
        totalEquityAccounts := totalEquityAccounts + net;
      }
    }
    assert rows[..|rows|] == rows;
    PickSum(chart, keep, OfKind(ledger, p, Asset));
    PickSum(chart, keep, OfKind(ledger, p, Liability));
    PickSum(chart, keep, OfKind(ledger, p, Equity));
    var totalRevenue, totalExpense := RevenueAndExpense(chart, ledger, p);
    var currentEarnings := totalRevenue - totalExpense;
    b := BalanceSheet(totalAssets, totalLiabilities, totalEquityAccounts, currentEarnings,
                      totalAssets == totalLiabilities + (totalEquityAccounts + currentEarnings));
    if Charted(chart, ledger) && Sound(ledger) {
      AccountingEquation(chart, ledger, p);
    }
  }

  // ---- cash flow ----

  datatype Class = Cash | OtherCurrentAsset | NonCurrentAsset | CurrentLiability | NonCurrentLiability | EquityClass | Unclassified

  /** The section a balance-sheet account falls in, by the prefix of its code. */
  function ClassOf(code: string): Class
  {
    if "11101" <= code || "11102" <= code then Cash
    else if "11" <= code then OtherCurrentAsset
    else if "21" <= code then CurrentLiability
    else if "12" <= code || "13" <= code || "14" <= code || "15" <= code then NonCurrentAsset
    else if "22" <= code then NonCurrentLiability
    else if "3" <= code then EquityClass
    else Unclassified
  }

  /** The sign with which a class's change enters the cash flow. */
  function Counted(section: Class, change: int): int
  {
    match section
    case Cash => 0
    case OtherCurrentAsset => 0 - change
    case NonCurrentAsset => 0 - change
    case CurrentLiability => change
    case NonCurrentLiability => change
    case EquityClass => change
    case Unclassified => 0
  }

  /** The prefix says of the account what its normal balance says. */
  predicate WellClassified(r: ChartRow)
  {
    match ClassOf(r.code)
    case Cash => r.normal == DebitNormal
    case OtherCurrentAsset => r.normal == DebitNormal
    case NonCurrentAsset => r.normal == DebitNormal
    case CurrentLiability => r.normal == CreditNormal
    case NonCurrentLiability => r.normal == CreditNormal
    case EquityClass => r.normal == CreditNormal
    case Unclassified => false
  }

  function Moved(ledger: Ledger, a: Account, begin: Day, end: Day): int
  {
    NetUpTo(ledger, a, end) - NetUpTo(ledger, a, begin)
  }

  function InSection(ledger: Ledger, section: Class, begin: Day, end: Day): ChartRow -> int
  {
    (r: ChartRow) => if OnBalanceSheet(r.kind) && ClassOf(r.code) == section then Natural(r.normal, Moved(ledger, r.id, begin, end)) else 0
  }

  function CashOn(ledger: Ledger, day: Day): ChartRow -> int
  {
    (r: ChartRow) => if OnBalanceSheet(r.kind) && ClassOf(r.code) == Cash then Natural(r.normal, NetUpTo(ledger, r.id, day)) else 0
  }

  /** What an account puts between the cash flow and the change in cash. */
  function Stray(ledger: Ledger, begin: Day, end: Day): ChartRow -> int
  {
    (r: ChartRow) =>
      if !OnBalanceSheet(r.kind) then 0
      else
        var change := Moved(ledger, r.id, begin, end);
        var natural, section := Natural(r.normal, change), ClassOf(r.code);
        change + Counted(section, natural) - if section == Cash then natural else 0
  }

  predicate Touched(ledger: Ledger, a: Account, day: Day)
  {
    exists i :: 0 <= i < |ledger| && ledger[i].date <= day && exists j :: 0 <= j < |ledger[i].lines| && ledger[i].lines[j].account == a
  }

  lemma {:induction false} NoLinesNoNet(lines: seq<Line>, a: Account)
    requires !exists j :: 0 <= j < |lines| && lines[j].account == a
    ensures Net(lines, a) == 0
  {
    if lines != [] {
      var before := lines[..|lines| - 1];
      assert forall j :: 0 <= j < |before| ==> before[j] == lines[j];
      NoLinesNoNet(before, a);
      assert lines[|lines| - 1].account != a;
    }
  }

  lemma {:induction false} UntouchedIsZero(ledger: Ledger, a: Account, day: Day)
    requires !Touched(ledger, a, day)
    ensures NetUpTo(ledger, a, day) == 0
  {
    if ledger != [] {
      var before, n := ledger[..|ledger| - 1], |ledger| - 1;
      assert forall i :: 0 <= i < n ==> before[i] == ledger[i];
      UntouchedIsZero(before, a, day);
      if ledger[n].date <= day {
        NoLinesNoNet(ledger[n].lines, a);
      }
    }
  }

  datatype CashFlow = CashFlow(
    netIncome: int,
    otherCurrentAssets: int,
    nonCurrentAssets: int,
    currentLiabilities: int,
    nonCurrentLiabilities: int,
    equity: int,
    beginningCash: int,
    endingCash: int)

  /** The totals of the three sections, and the net change in cash they add up to. */
  function Operating(c: CashFlow): int { c.netIncome + (0 - c.otherCurrentAssets + c.currentLiabilities) }
  function Investing(c: CashFlow): int { 0 - c.nonCurrentAssets }
  function Financing(c: CashFlow): int { c.nonCurrentLiabilities + c.equity }
  function NetChange(c: CashFlow): int { Operating(c) + Investing(c) + Financing(c) }

  predicate IsBalanced(c: CashFlow)
  {
    -2 < NetChange(c) - (c.endingCash - c.beginningCash) < 2
  }

  /** The figures of the report: the change in each section and the cash at both ends, over balance-sheet accounts. */
  function CashFlowOf(chart: seq<ChartRow>, ledger: Ledger, from: Day, to: Day): CashFlow
  {
    var p := Period(Some(from), to);
    CashFlow(Across(chart, RevenueOf(ledger, p)) - Across(chart, ExpenseOf(ledger, p)),
             Across(chart, InSection(ledger, OtherCurrentAsset, from - 1, to)),
             Across(chart, InSection(ledger, NonCurrentAsset, from - 1, to)),
             Across(chart, InSection(ledger, CurrentLiability, from - 1, to)),
             Across(chart, InSection(ledger, NonCurrentLiability, from - 1, to)),
             Across(chart, InSection(ledger, EquityClass, from - 1, to)),
             Across(chart, CashOn(ledger, from - 1)), Across(chart, CashOn(ledger, to)))
  }

  /** One more account adds its change to its own section only. */
  lemma {:induction false} SectionStep(rows: seq<ChartRow>, i: nat, ledger: Ledger, section: Class, begin: Day, end: Day)
    requires i < |rows| && OnBalanceSheet(rows[i].kind)
    ensures SumBy(rows[..i + 1], InSection(ledger, section, begin, end)) == SumBy(rows[..i], InSection(ledger, section, begin, end))
      + if ClassOf(rows[i].code) == section then Natural(rows[i].normal, Moved(ledger, rows[i].id, begin, end)) else 0
  {
    SumByPrefix(rows, i, InSection(ledger, section, begin, end));
  }

  lemma {:induction false} CashStep(rows: seq<ChartRow>, i: nat, ledger: Ledger, day: Day)
    requires i < |rows| && OnBalanceSheet(rows[i].kind)
    ensures SumBy(rows[..i + 1], CashOn(ledger, day)) == SumBy(rows[..i], CashOn(ledger, day))
      + if ClassOf(rows[i].code) == Cash then Natural(rows[i].normal, NetUpTo(ledger, rows[i].id, day)) else 0
  {
    SumByPrefix(rows, i, CashOn(ledger, day));
  }

  /** The loop over the accounts. */
  method Classify(rows: seq<ChartRow>, ledger: Ledger, begin: Day, end: Day) returns (c: CashFlow)
    requires forall r :: r in rows ==> OnBalanceSheet(r.kind)
    ensures c.netIncome == 0
    ensures c.otherCurrentAssets == SumBy(rows, InSection(ledger, OtherCurrentAsset, begin, end))
    ensures c.nonCurrentAssets == SumBy(rows, InSection(ledger, NonCurrentAsset, begin, end))
    ensures c.currentLiabilities == SumBy(rows, InSection(ledger, CurrentLiability, begin, end))
    ensures c.nonCurrentLiabilities == SumBy(rows, InSection(ledger, NonCurrentLiability, begin, end))
    ensures c.equity == SumBy(rows, InSection(ledger, EquityClass, begin, end))
    ensures c.beginningCash == SumBy(rows, CashOn(ledger, begin)) && c.endingCash == SumBy(rows, CashOn(ledger, end))
  {
    var beginCash, endCash, other, nonCurrent, current, longTerm, equity := 0, 0, 0, 0, 0, 0, 0;
    for i := 0 to |rows|
      invariant other == SumBy(rows[..i], InSection(ledger, OtherCurrentAsset, begin, end))
      invariant nonCurrent == SumBy(rows[..i], InSection(ledger, NonCurrentAsset, begin, end))
      invariant current == SumBy(rows[..i], InSection(ledger, CurrentLiability, begin, end))
      invariant longTerm == SumBy(rows[..i], InSection(ledger, NonCurrentLiability, begin, end))
      invariant equity == SumBy(rows[..i], InSection(ledger, EquityClass, begin, end))
      invariant beginCash == SumBy(rows[..i], CashOn(ledger, begin)) && endCash == SumBy(rows[..i], CashOn(ledger, end))
    {
      var r := rows[i];
      SectionStep(rows, i, ledger, OtherCurrentAsset, begin, end);
      SectionStep(rows, i, ledger, NonCurrentAsset, begin, end);
      SectionStep(rows, i, ledger, CurrentLiability, begin, end);
      SectionStep(rows, i, ledger, NonCurrentLiability, begin, end);
      SectionStep(rows, i, ledger, EquityClass, begin, end);
      CashStep(rows, i, ledger, begin);
      CashStep(rows, i, ledger, end);
      var beginBalance := Natural(r.normal, NetUpTo(ledger, r.id, begin));
      var endBalance := Natural(r.normal, NetUpTo(ledger, r.id, end));
      var change := endBalance - beginBalance;
      if "11101" <= r.code || "11102" <= r.code {
        beginCash, endCash := beginCash + beginBalance, endCash + endBalance;
      } else if "11" <= r.code {
        other := other + change;
      } else if "21" <= r.code {
        current := current + change;
      } else if "12" <= r.code || "13" <= r.code || "14" <= r.code || "15" <= r.code {
        nonCurrent := nonCurrent + change;
      } else if "22" <= r.code {
        longTerm := longTerm + change;
      } else if "3" <= r.code {
        equity := equity + change;
      }
    }
    assert rows[..|rows|] == rows;
    c := CashFlow(0, other, nonCurrent, current, longTerm, equity, beginCash, endCash);
  }

  /** An account with no entries by either day has nothing to add. */
  lemma {:induction false} UntouchedSection(chart: seq<ChartRow>, keep: ChartRow -> bool, ledger: Ledger, section: Class, begin: Day, end: Day)
    requires forall r :: r in chart && !keep(r) && OnBalanceSheet(r.kind) ==> !Touched(ledger, r.id, begin) && !Touched(ledger, r.id, end)
    ensures SumBy(Pick(chart, keep), InSection(ledger, section, begin, end)) == Across(chart, InSection(ledger, section, begin, end))
  {
    forall r | r in chart && !keep(r) ensures InSection(ledger, section, begin, end)(r) == 0 {
      if OnBalanceSheet(r.kind) {
        UntouchedIsZero(ledger, r.id, begin);
        UntouchedIsZero(ledger, r.id, end);
      }
    }
    PickSum(chart, keep, InSection(ledger, section, begin, end));
  }

  lemma {:induction false} UntouchedCash(chart: seq<ChartRow>, keep: ChartRow -> bool, ledger: Ledger, day: Day)
    requires forall r :: r in chart && !keep(r) && OnBalanceSheet(r.kind) ==> !Touched(ledger, r.id, day)
    ensures SumBy(Pick(chart, keep), CashOn(ledger, day)) == Across(chart, CashOn(ledger, day))
  {
    forall r | r in chart && !keep(r) ensures CashOn(ledger, day)(r) == 0 {
      if OnBalanceSheet(r.kind) {
        UntouchedIsZero(ledger, r.id, day);
      }
    }
    PickSum(chart, keep, CashOn(ledger, day));
  }

  method ComputeCashFlow(chart: seq<ChartRow>, ledger: Ledger, from: Day, to: Day) returns (c: CashFlow)
    ensures c == CashFlowOf(chart, ledger, from, to)
  {
    var begin: Day := from - 1;
    var keep := (r: ChartRow) => OnBalanceSheet(r.kind) && (Touched(ledger, r.id, begin) || Touched(ledger, r.id, to));
    var rows := Pick(chart, keep);
    PickIn(chart, keep);
    c := Classify(rows, ledger, begin, to);
    UntouchedSection(chart, keep, ledger, OtherCurrentAsset, begin, to);
    UntouchedSection(chart, keep, ledger, NonCurrentAsset, begin, to);
    UntouchedSection(chart, keep, ledger, CurrentLiability, begin, to);
    UntouchedSection(chart, keep, ledger, NonCurrentLiability, begin, to);
    UntouchedSection(chart, keep, ledger, EquityClass, begin, to);
    UntouchedCash(chart, keep, ledger, begin);
    UntouchedCash(chart, keep, ledger, to);
    var revenue, expense := RevenueAndExpense(chart, ledger, Period(Some(from), to));
    c := c.(netIncome := revenue - expense);
  }

  /** One account's part in the cash flow, less its part in the change in cash. */
  lemma {:induction false} OneAccount(r: ChartRow, ledger: Ledger, from: Day, to: Day)
    requires from - 1 <= to
    ensures var (p, begin: Day) := (Period(Some(from), to), from - 1);
      RevenueOf(ledger, p)(r) - ExpenseOf(ledger, p)(r)
        - InSection(ledger, OtherCurrentAsset, begin, to)(r) - InSection(ledger, NonCurrentAsset, begin, to)(r)
        + InSection(ledger, CurrentLiability, begin, to)(r) + InSection(ledger, NonCurrentLiability, begin, to)(r)
        + InSection(ledger, EquityClass, begin, to)(r) - CashOn(ledger, to)(r) + CashOn(ledger, begin)(r)
      == Stray(ledger, begin, to)(r) - Change(ledger, r.id, p)
  {
    ChangeIsNet(ledger, r.id, Period(Some(from), to));
  }

  lemma {:induction false} SectionsCover(chart: seq<ChartRow>, ledger: Ledger, from: Day, to: Day)
    requires from - 1 <= to
    ensures var c := CashFlowOf(chart, ledger, from, to);
      NetChange(c) - (c.endingCash - c.beginningCash)
        == Across(chart, Stray(ledger, from - 1, to)) - (Across(chart, PostedOf(ledger, Period(Some(from), to), DebitOf))
                                                           - Across(chart, PostedOf(ledger, Period(Some(from), to), CreditOf)))
  {
    if chart != [] {
      SectionsCover(chart[..|chart| - 1], ledger, from, to);
      OneAccount(chart[|chart| - 1], ledger, from, to);
    }
  }

  /** The cash flow misses the change in cash by exactly what the accounts whose code does not say what they are
      contribute; with every balance-sheet code in the right section it ties, for every period. */
  lemma {:induction false} CashFlowTies(chart: seq<ChartRow>, ledger: Ledger, from: Day, to: Day)
    requires Charted(chart, ledger) && Sound(ledger) && from - 1 <= to
    ensures var c := CashFlowOf(chart, ledger, from, to);
      NetChange(c) == c.endingCash - c.beginningCash + Across(chart, Stray(ledger, from - 1, to))
    ensures (forall r :: r in chart && OnBalanceSheet(r.kind) ==> WellClassified(r)) ==>
      var c := CashFlowOf(chart, ledger, from, to);
      NetChange(c) == c.endingCash - c.beginningCash && IsBalanced(c)
  {
    SectionsCover(chart, ledger, from, to);
    DebitsAreCredits(chart, ledger, Period(Some(from), to));
    if forall r :: r in chart && OnBalanceSheet(r.kind) ==> WellClassified(r) {
      AcrossZero(chart, Stray(ledger, from - 1, to));
    }
  }

  // ---- trial balance ----

  /** Exactly one side carries the balance. */
  function SplitNetBalance(net: int): (r: (nat, nat))
    ensures r.0 - r.1 == net && (r.0 == 0 || r.1 == 0)
  {
    if net >= 0 then (net, 0) else (0, 0 - net)
  }

  datatype TrialRow = TrialRow(id: Account, openingNet: int, movementDebit: int, movementCredit: int)
  datatype TrialLine = TrialLine(id: Account, opening: (nat, nat), movement: (int, int), closing: (nat, nat))
  datatype TrialTotals = TrialTotals(opening: (int, int), movement: (int, int), closing: (int, int))

  function OpeningNet(r: TrialRow): int { r.openingNet }
  function MovementDebit(r: TrialRow): int { r.movementDebit }
  function MovementCredit(r: TrialRow): int { r.movementCredit }

  function LineFor(r: TrialRow): TrialLine
  {
    TrialLine(r.id, SplitNetBalance(r.openingNet), (r.movementDebit, r.movementCredit),
              SplitNetBalance(r.openingNet + r.movementDebit - r.movementCredit))
  }

  function OpeningDebit(l: TrialLine): int { l.opening.0 }
  function OpeningCredit(l: TrialLine): int { l.opening.1 }
  function MovedDebit(l: TrialLine): int { l.movement.0 }
  function MovedCredit(l: TrialLine): int { l.movement.1 }
  function ClosingDebit(l: TrialLine): int { l.closing.0 }
  function ClosingCredit(l: TrialLine): int { l.closing.1 }

  /** Each column of the report, added up. */
  function ColumnSums(lines: seq<TrialLine>): TrialTotals
  {
    TrialTotals((SumBy(lines, OpeningDebit), SumBy(lines, OpeningCredit)),
                (SumBy(lines, MovedDebit), SumBy(lines, MovedCredit)),
                (SumBy(lines, ClosingDebit), SumBy(lines, ClosingCredit)))
  }

  predicate Shown(r: TrialRow) { r.openingNet != 0 || r.movementDebit != 0 || r.movementCredit != 0 }

  function LinesFor(rows: seq<TrialRow>): seq<TrialLine>
  {
    if rows == [] then []
    else
      var r := rows[|rows| - 1];
      LinesFor(rows[..|rows| - 1]) + if Shown(r) then [LineFor(r)] else []
  }

  lemma {:induction false} LinesForRows(rows: seq<TrialRow>)
    ensures forall l :: l in LinesFor(rows) ==> exists i :: 0 <= i < |rows| && l == LineFor(rows[i])
    ensures forall i :: 0 <= i < |rows| && Shown(rows[i]) ==> LineFor(rows[i]) in LinesFor(rows)
  {
    if rows != [] {
      var before, n := rows[..|rows| - 1], |rows| - 1;
      LinesForRows(before);
      forall l | l in LinesFor(rows) ensures exists i :: 0 <= i < |rows| && l == LineFor(rows[i]) {
        if l in LinesFor(before) {
          var i :| 0 <= i < n && l == LineFor(before[i]);
          assert l == LineFor(rows[i]);
        } else {
          assert l == LineFor(rows[n]);
        }
      }
      forall i | 0 <= i < |rows| && Shown(rows[i]) ensures LineFor(rows[i]) in LinesFor(rows) {
        assert i < n ==> before[i] == rows[i];
      }
    }
  }

  /** buildPeriodTrialBalance: a line for every account that shows anything; the totals are the sums of the lines'
      own columns. */
  method BuildPeriodTrialBalance(rows: seq<TrialRow>) returns (lines: seq<TrialLine>, total: TrialTotals)
    ensures lines == LinesFor(rows)
    ensures total == ColumnSums(lines)
  {
    lines := [];
    var od, oc, md, mc, cd, cc := 0, 0, 0, 0, 0, 0;
    for i := 0 to |rows|
      invariant lines == LinesFor(rows[..i])
      invariant od == SumBy(lines, OpeningDebit) && oc == SumBy(lines, OpeningCredit)
      invariant md == SumBy(lines, MovedDebit) && mc == SumBy(lines, MovedCredit)
      invariant cd == SumBy(lines, ClosingDebit) && cc == SumBy(lines, ClosingCredit)
    {
      assert rows[..i + 1][..i] == rows[..i];
      var row := rows[i];
      if row.openingNet == 0 && row.movementDebit == 0 && row.movementCredit == 0 {
        assert lines + [] == lines;
        continue;
      }
      var opening := SplitNetBalance(row.openingNet);
      var closing := SplitNetBalance(row.openingNet + row.movementDebit - row.movementCredit);
      var line := TrialLine(row.id, opening, (row.movementDebit, row.movementCredit), closing);
      OneMoreLine(lines, line);
      od, oc := od + opening.0, oc + opening.1;
      md, mc := md + row.movementDebit, mc + row.movementCredit;
      cd, cc := cd + closing.0, cc + closing.1;
      lines := lines + [line];
    }
    assert rows[..|rows|] == rows;
    total := TrialTotals((od, oc), (md, mc), (cd, cc));
  }

  lemma {:induction false} OneMoreLine(lines: seq<TrialLine>, l: TrialLine)
    ensures var (c, d) := (ColumnSums(lines), ColumnSums(lines + [l]));
      && d.opening == (c.opening.0 + l.opening.0, c.opening.1 + l.opening.1)
      && d.movement == (c.movement.0 + l.movement.0, c.movement.1 + l.movement.1)
      && d.closing == (c.closing.0 + l.closing.0, c.closing.1 + l.closing.1)
  {
    SumBySnoc(lines, l, OpeningDebit);
    SumBySnoc(lines, l, OpeningCredit);
    SumBySnoc(lines, l, MovedDebit);
    SumBySnoc(lines, l, MovedCredit);
    SumBySnoc(lines, l, ClosingDebit);
    SumBySnoc(lines, l, ClosingCredit);
  }

  /** The two sides of each column differ by what the rows add up to. */
  lemma {:induction false} ColumnsFromRows(rows: seq<TrialRow>)
    ensures var c := ColumnSums(LinesFor(rows));
      && c.opening.0 - c.opening.1 == SumBy(rows, OpeningNet)
      && c.movement == (SumBy(rows, MovementDebit), SumBy(rows, MovementCredit))
      && c.closing.0 - c.closing.1 == SumBy(rows, OpeningNet) + SumBy(rows, MovementDebit) - SumBy(rows, MovementCredit)
  {
    if rows != [] {
      var before, r := rows[..|rows| - 1], rows[|rows| - 1];
      ColumnsFromRows(before);
      OneMoreLine(LinesFor(before), LineFor(r));
      assert LinesFor(before) + [] == LinesFor(before);
    }
  }

  function OpeningOn(from: Day, to: Day): Day { if from - 1 <= to then from - 1 else to }

  /** What the query returns for an account: entries before the period net, those in it side by side. */
  function TrialRowOf(ledger: Ledger, a: Account, from: Day, to: Day): TrialRow
  {
    var p := Period(Some(from), to);
    TrialRow(a, NetUpTo(ledger, a, OpeningOn(from, to)), Posted(ledger, a, p, DebitOf), Posted(ledger, a, p, CreditOf))
  }

  function TrialRows(rows: seq<ChartRow>, ledger: Ledger, from: Day, to: Day): seq<TrialRow>
  {
    seq(|rows|, i requires 0 <= i < |rows| => TrialRowOf(ledger, rows[i].id, from, to))
  }

  lemma {:induction false} TrialSums(rows: seq<ChartRow>, ledger: Ledger, from: Day, to: Day)
    ensures SumBy(TrialRows(rows, ledger, from, to), OpeningNet) == SumBy(rows, NetOf(ledger, OpeningOn(from, to)))
    ensures SumBy(TrialRows(rows, ledger, from, to), MovementDebit) == SumBy(rows, PostedOf(ledger, Period(Some(from), to), DebitOf))
    ensures SumBy(TrialRows(rows, ledger, from, to), MovementCredit) == SumBy(rows, PostedOf(ledger, Period(Some(from), to), CreditOf))
  {
    if rows != [] {
      var before := rows[..|rows| - 1];
      TrialSums(before, ledger, from, to);
      assert TrialRows(rows, ledger, from, to)[..|rows| - 1] == TrialRows(before, ledger, from, to);
    }
  }

  lemma {:induction false} EmptyPeriod(ledger: Ledger, a: Account, p: Period, side: Line -> int)
    requires p.from.Some? && p.to < p.from.value
    ensures Posted(ledger, a, p, side) == 0
  {
    if ledger != [] {
      EmptyPeriod(ledger[..|ledger| - 1], a, p, side);
    }
  }

  /** An account closes where the ledger has it on the last day, whether or not the period is empty. */
  lemma {:induction false} ClosesOnLedger(ledger: Ledger, a: Account, from: Day, to: Day)
    ensures var r := TrialRowOf(ledger, a, from, to); r.openingNet + r.movementDebit - r.movementCredit == NetUpTo(ledger, a, to)
  {
    var p := Period(Some(from), to);
    if from - 1 <= to {
      ChangeIsNet(ledger, a, p);
    } else {
      EmptyPeriod(ledger, a, p, DebitOf);
      EmptyPeriod(ledger, a, p, CreditOf);
    }
  }

  lemma {:induction false} NoTurnover(lines: seq<Line>, a: Account, side: Line -> int)
    requires !exists j :: 0 <= j < |lines| && lines[j].account == a
    ensures Turnover(lines, a, side) == 0
  {
    if lines != [] {
      var before := lines[..|lines| - 1];
      assert forall j :: 0 <= j < |before| ==> before[j] == lines[j];
      NoTurnover(before, a, side);
      assert lines[|lines| - 1].account != a;
    }
  }

  lemma {:induction false} UntouchedPosts(ledger: Ledger, a: Account, p: Period, side: Line -> int)
    requires !Touched(ledger, a, p.to)
    ensures Posted(ledger, a, p, side) == 0
  {
    if ledger != [] {
      var before, n := ledger[..|ledger| - 1], |ledger| - 1;
      assert forall i :: 0 <= i < n ==> before[i] == ledger[i];
      UntouchedPosts(before, a, p, side);
      if ledger[n].date <= p.to {
        NoTurnover(ledger[n].lines, a, side);
      }
    }
  }

  lemma {:induction false} TouchedSums(chart: seq<ChartRow>, keep: ChartRow -> bool, ledger: Ledger, from: Day, to: Day)
    requires forall r :: keep(r) == Touched(ledger, r.id, to)
    ensures SumBy(Pick(chart, keep), NetOf(ledger, OpeningOn(from, to))) == Across(chart, NetOf(ledger, OpeningOn(from, to)))
    ensures forall side: Line -> int :: SumBy(Pick(chart, keep), PostedOf(ledger, Period(Some(from), to), side))
                                     == Across(chart, PostedOf(ledger, Period(Some(from), to), side))
  {
    forall r | r in chart && !keep(r) ensures NetOf(ledger, OpeningOn(from, to))(r) == 0 {
      assert !Touched(ledger, r.id, OpeningOn(from, to));
      UntouchedIsZero(ledger, r.id, OpeningOn(from, to));
    }
    PickSum(chart, keep, NetOf(ledger, OpeningOn(from, to)));
    forall side: Line -> int
      ensures SumBy(Pick(chart, keep), PostedOf(ledger, Period(Some(from), to), side)) == Across(chart, PostedOf(ledger, Period(Some(from), to), side))
    {
      var p := Period(Some(from), to);
      forall r | r in chart && !keep(r) ensures PostedOf(ledger, p, side)(r) == 0 {
        UntouchedPosts(ledger, r.id, p, side);
      }
      PickSum(chart, keep, PostedOf(ledger, p, side));
    }
  }

  predicate Even(total: TrialTotals)
  {
    total.opening.0 == total.opening.1 && total.movement.0 == total.movement.1 && total.closing.0 == total.closing.1
  }

  /** The line the report shows for an account: from the ledger's balance before the period to its balance at the
      end, through what was debited and credited in it. */
  function LineOf(ledger: Ledger, a: Account, from: Day, to: Day): TrialLine
  {
    var p := Period(Some(from), to);
    TrialLine(a, SplitNetBalance(NetUpTo(ledger, a, OpeningOn(from, to))), (Posted(ledger, a, p, DebitOf), Posted(ledger, a, p, CreditOf)),
              SplitNetBalance(NetUpTo(ledger, a, to)))
  }

  lemma {:induction false} LinesOnLedger(picked: seq<ChartRow>, ledger: Ledger, from: Day, to: Day, l: TrialLine)
    requires l in LinesFor(TrialRows(picked, ledger, from, to))
    ensures l == LineOf(ledger, l.id, from, to)
  {
    var rows := TrialRows(picked, ledger, from, to);
    LinesForRows(rows);
    var i :| 0 <= i < |rows| && l == LineFor(rows[i]);
    ClosesOnLedger(ledger, picked[i].id, from, to);
  }

  lemma {:induction false} NoneMissing(picked: seq<ChartRow>, ledger: Ledger, from: Day, to: Day, r: ChartRow)
    requires r in picked && Shown(TrialRowOf(ledger, r.id, from, to))
    ensures LineOf(ledger, r.id, from, to) in LinesFor(TrialRows(picked, ledger, from, to))
  {
    var rows := TrialRows(picked, ledger, from, to);
    LinesForRows(rows);
    var i :| 0 <= i < |picked| && picked[i] == r;
    ClosesOnLedger(ledger, r.id, from, to);
    assert Shown(rows[i]) && LineFor(rows[i]) == LineOf(ledger, r.id, from, to);
  }

  /** An account with a balance at the end has something to show. */
  lemma {:induction false} BalanceShows(ledger: Ledger, a: Account, from: Day, to: Day)
    requires NetUpTo(ledger, a, to) != 0
    ensures Shown(TrialRowOf(ledger, a, from, to))
  {
    ClosesOnLedger(ledger, a, from, to);
  }

  lemma {:induction false} UntouchedShowsNothing(ledger: Ledger, a: Account, from: Day, to: Day)
    requires !Touched(ledger, a, to)
    ensures !Shown(TrialRowOf(ledger, a, from, to))
  {
    assert !Touched(ledger, a, OpeningOn(from, to));
    UntouchedIsZero(ledger, a, OpeningOn(from, to));
    UntouchedPosts(ledger, a, Period(Some(from), to), DebitOf);
    UntouchedPosts(ledger, a, Period(Some(from), to), CreditOf);
  }

  /** The lines are those of the accounts of the chart that have something to show, one each, as the ledger has them. */
  ghost predicate ShowsLedger(lines: seq<TrialLine>, chart: seq<ChartRow>, ledger: Ledger, from: Day, to: Day)
  {
    && (forall l :: l in lines ==> InChart(chart, l.id) && l == LineOf(ledger, l.id, from, to))
    && (OncePerAccount(chart) ==> OneLineEach(lines))
    && (forall r :: r in chart && Shown(TrialRowOf(ledger, r.id, from, to)) ==> LineOf(ledger, r.id, from, to) in lines)
  }

  lemma {:induction false} PickOnce(chart: seq<ChartRow>, keep: ChartRow -> bool)
    requires OncePerAccount(chart)
    ensures OncePerAccount(Pick(chart, keep))
  {
    if chart != [] {
      var before, r := chart[..|chart| - 1], chart[|chart| - 1];
      PickOnce(before, keep);
      PickIn(before, keep);
      var picked := Pick(before, keep);
      forall i | 0 <= i < |picked| ensures picked[i].id != r.id {
        assert picked[i] in picked;
      }
    }
  }

  lemma {:induction false} LinesOnce(picked: seq<ChartRow>, ledger: Ledger, from: Day, to: Day)
    requires OncePerAccount(picked)
    ensures var lines := LinesFor(TrialRows(picked, ledger, from, to));
      && (forall l :: l in lines ==> InChart(picked, l.id))
      && OneLineEach(lines)
  {
    var rows := TrialRows(picked, ledger, from, to);
    LinesForRows(rows);
    forall l | l in LinesFor(rows) ensures InChart(picked, l.id) {
      var i :| 0 <= i < |rows| && l == LineFor(rows[i]);
      assert picked[i].id == l.id;
    }
    if picked != [] {
      var n := |picked| - 1;
      LinesOnce(picked[..n], ledger, from, to);
      assert TrialRows(picked, ledger, from, to)[..n] == TrialRows(picked[..n], ledger, from, to);
      NotYet(picked, ledger, from, to);
      var before := LinesFor(TrialRows(picked[..n], ledger, from, to));
      if Shown(rows[n]) {
        OneMoreOnce(before, LineFor(rows[n]));
        assert LinesFor(rows) == before + [LineFor(rows[n])];
      } else {
        assert LinesFor(rows) == before;
      }
    }
  }

  predicate OneLineEach(lines: seq<TrialLine>)
  {
    forall i, j :: 0 <= i < j < |lines| ==> lines[i].id != lines[j].id
  }

  lemma {:induction false} OneMoreOnce(lines: seq<TrialLine>, l: TrialLine)
    requires OneLineEach(lines) && forall i :: 0 <= i < |lines| ==> lines[i].id != l.id
    ensures OneLineEach(lines + [l])
  {
  }

  lemma {:induction false} NotYet(picked: seq<ChartRow>, ledger: Ledger, from: Day, to: Day)
    requires OncePerAccount(picked) && picked != []
    requires forall l :: l in LinesFor(TrialRows(picked[..|picked| - 1], ledger, from, to)) ==> InChart(picked[..|picked| - 1], l.id)
    ensures var before := LinesFor(TrialRows(picked[..|picked| - 1], ledger, from, to));
      forall i :: 0 <= i < |before| ==> before[i].id != picked[|picked| - 1].id
  {
    var n := |picked| - 1;
    var before := LinesFor(TrialRows(picked[..n], ledger, from, to));
    forall i | 0 <= i < |before| ensures before[i].id != picked[n].id {
      assert before[i] in before;
      var k :| 0 <= k < n && picked[..n][k].id == before[i].id;
      assert picked[k].id == before[i].id;
    }
  }

  lemma {:induction false} LineInChart(chart: seq<ChartRow>, keep: ChartRow -> bool, ledger: Ledger, from: Day, to: Day, l: TrialLine)
    requires l in LinesFor(TrialRows(Pick(chart, keep), ledger, from, to))
    ensures InChart(chart, l.id)
  {
    var rows := TrialRows(Pick(chart, keep), ledger, from, to);
    LinesForRows(rows);
    var i :| 0 <= i < |rows| && l == LineFor(rows[i]);
    PickIn(chart, keep);
    assert Pick(chart, keep)[i] in Pick(chart, keep);
  }

  lemma {:induction false} TrialBalanceIsLedger(chart: seq<ChartRow>, keep: ChartRow -> bool, ledger: Ledger, from: Day, to: Day)
    requires forall r :: keep(r) == Touched(ledger, r.id, to)
    ensures ShowsLedger(LinesFor(TrialRows(Pick(chart, keep), ledger, from, to)), chart, ledger, from, to)
  {
    var picked := Pick(chart, keep);
    forall l | l in LinesFor(TrialRows(picked, ledger, from, to)) ensures InChart(chart, l.id) && l == LineOf(ledger, l.id, from, to) {
      LinesOnLedger(picked, ledger, from, to, l);
      LineInChart(chart, keep, ledger, from, to, l);
    }
    if OncePerAccount(chart) {
      PickOnce(chart, keep);
      LinesOnce(picked, ledger, from, to);
    }
    PickIn(chart, keep);
    forall r | r in chart && Shown(TrialRowOf(ledger, r.id, from, to))
      ensures LineOf(ledger, r.id, from, to) in LinesFor(TrialRows(picked, ledger, from, to))
    {
      if !keep(r) {
        UntouchedShowsNothing(ledger, r.id, from, to);
      }
      NoneMissing(picked, ledger, from, to, r);
    }
  }

  lemma {:induction false} ColumnsEven(chart: seq<ChartRow>, keep: ChartRow -> bool, ledger: Ledger, from: Day, to: Day)
    requires forall r :: keep(r) == Touched(ledger, r.id, to)
    requires Charted(chart, ledger) && Sound(ledger)
    ensures var rows := TrialRows(Pick(chart, keep), ledger, from, to);
      SumBy(rows, OpeningNet) == 0 && SumBy(rows, MovementDebit) == SumBy(rows, MovementCredit)
  {
    TrialSums(Pick(chart, keep), ledger, from, to);
    TouchedSums(chart, keep, ledger, from, to);
    BalancesCancel(chart, ledger, OpeningOn(from, to));
    DebitsAreCredits(chart, ledger, Period(Some(from), to));
  }

  /** The period trial balance: each column adds up to its total, and opening, movement and closing columns balance. */
  method ComputeForPeriod(chart: seq<ChartRow>, ledger: Ledger, from: Day, to: Day) returns (lines: seq<TrialLine>, total: TrialTotals)
    ensures total == ColumnSums(lines)
    ensures ShowsLedger(lines, chart, ledger, from, to)
    ensures Charted(chart, ledger) && Sound(ledger) ==> Even(total)
  {
    var keep := (r: ChartRow) => Touched(ledger, r.id, to);
    var rows := TrialRows(Pick(chart, keep), ledger, from, to);
    lines, total := BuildPeriodTrialBalance(rows);
    TrialBalanceIsLedger(chart, keep, ledger, from, to);
    ColumnsFromRows(rows);
    if Charted(chart, ledger) && Sound(ledger) {
      ColumnsEven(chart, keep, ledger, from, to);
    }
  }

  /** The trial balance over all entries. */
  method ComputeTrialBalance(chart: seq<ChartRow>, ledger: Ledger) returns (totalDebit: int, totalCredit: int)
    ensures totalDebit == Across(chart, PostedOf(ledger, ALL_TIME, DebitOf)) && totalCredit == Across(chart, PostedOf(ledger, ALL_TIME, CreditOf))
    ensures Charted(chart, ledger) && Sound(ledger) ==> totalDebit == totalCredit
  {
    var keep := (r: ChartRow) => Turned(ledger, r.id, ALL_TIME);
    var lines := Pick(chart, keep);
    totalDebit, totalCredit := 0, 0;
    for i := 0 to |lines|
      invariant totalDebit == SumBy(lines[..i], PostedOf(ledger, ALL_TIME, DebitOf))
      invariant totalCredit == SumBy(lines[..i], PostedOf(ledger, ALL_TIME, CreditOf))
    {
      SumByPrefix(lines, i, PostedOf(ledger, ALL_TIME, DebitOf));
      SumByPrefix(lines, i, PostedOf(ledger, ALL_TIME, CreditOf));
      totalDebit := totalDebit + Posted(ledger, lines[i].id, ALL_TIME, DebitOf);
      totalCredit := totalCredit + Posted(ledger, lines[i].id, ALL_TIME, CreditOf);
    }
    assert lines[..|lines|] == lines;
    PickSum(chart, keep, PostedOf(ledger, ALL_TIME, DebitOf));
    PickSum(chart, keep, PostedOf(ledger, ALL_TIME, CreditOf));
    if Charted(chart, ledger) && Sound(ledger) {
      DebitsAreCredits(chart, ledger, ALL_TIME);
    }
  }
}
