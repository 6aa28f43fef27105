/** What the figures of the reports are, read off the ledger's balances and the accounts' types and codes. */
module ReportFigures {
  import opened Wrappers
  import opened Sums
  import opened Journal
  import opened FinancialReports

  /** A balance-sheet account's balance in its natural direction: assets as debits, the others as credits. */
  function Held(ledger: Ledger, r: ChartRow, day: Day): int
  {
    if r.kind == Asset then NetUpTo(ledger, r.id, day) else 0 - NetUpTo(ledger, r.id, day)
  }

  function HeldBy(ledger: Ledger, kind: Type, day: Day): ChartRow -> int
  {
    (r: ChartRow) => if r.kind == kind then Held(ledger, r, day) else 0
  }

  /** What a period earned on an account: a revenue's credits, an expense's debits against it. */
  function Earned(ledger: Ledger, from: Day, to: Day): ChartRow -> int
  {
    (r: ChartRow) =>
      if r.kind == Revenue || r.kind == Expense then NetUpTo(ledger, r.id, from - 1) - NetUpTo(ledger, r.id, to) else 0
  }

  function EarnedEver(ledger: Ledger): ChartRow -> int
  {
    (r: ChartRow) => if r.kind == Revenue || r.kind == Expense then 0 - NetUpTo(ledger, r.id, FAR_FUTURE) else 0
  }

  /** The balance sheet shows what the accounts of each type hold, and as earnings what was ever earned. */
  lemma {:induction false} BalanceSheetReads(chart: seq<ChartRow>, ledger: Ledger)
    requires forall r :: r in chart ==> r.normal == NormalBalanceFor(r.kind)
    ensures Across(chart, OfKind(ledger, ALL_TIME, Asset)) == SumBy(chart, HeldBy(ledger, Asset, FAR_FUTURE))
    ensures Across(chart, OfKind(ledger, ALL_TIME, Liability)) == SumBy(chart, HeldBy(ledger, Liability, FAR_FUTURE))
    ensures Across(chart, OfKind(ledger, ALL_TIME, Equity)) == SumBy(chart, HeldBy(ledger, Equity, FAR_FUTURE))
    ensures Across(chart, RevenueOf(ledger, ALL_TIME)) - Across(chart, ExpenseOf(ledger, ALL_TIME)) == SumBy(chart, EarnedEver(ledger))
  {
    if chart != [] {
      var r := chart[|chart| - 1];
      BalanceSheetReads(chart[..|chart| - 1], ledger);
      ChangeIsNet(ledger, r.id, ALL_TIME);
    }
  }

  // ---- the cash flow ----

  predicate OnSheet(r: ChartRow) { r.kind == Asset || r.kind == Liability || r.kind == Equity }

  /** Petty cash and bank accounts: 11101 and 11102. */
  predicate CashCode(code: string)
  {
    5 <= |code| && code[0] == '1' && code[1] == '1' && code[2] == '1' && code[3] == '0' && (code[4] == '1' || code[4] == '2')
  }

  predicate CurrentAssetCode(code: string) { 2 <= |code| && code[0] == '1' && code[1] == '1' && !CashCode(code) }
  predicate FixedAssetCode(code: string) { 2 <= |code| && code[0] == '1' && '2' <= code[1] <= '5' }
  predicate CurrentDebtCode(code: string) { 2 <= |code| && code[0] == '2' && code[1] == '1' }
  predicate LongDebtCode(code: string) { 2 <= |code| && code[0] == '2' && code[1] == '2' }
  predicate EquityCode(code: string) { 1 <= |code| && code[0] == '3' }

  /** The section an account falls in by the characters its code begins with. */
  predicate Falls(code: string, section: Class)
  {
    match section
    case Cash => CashCode(code)
    case OtherCurrentAsset => CurrentAssetCode(code)
    case NonCurrentAsset => FixedAssetCode(code)
    case CurrentLiability => CurrentDebtCode(code)
    case NonCurrentLiability => LongDebtCode(code)
    case EquityClass => EquityCode(code)
    case Unclassified => code == "" || code[0] !in {'1', '2', '3'} || (code[0] != '3' && (|code| < 2 || code[1] !in {'1', '2', '3', '4', '5'} || (code[0] == '2' && code[1] !in {'1', '2'})))
  }

  /** How the balances of the accounts that fall in a section grew over the period. */
  function Grown(ledger: Ledger, from: Day, to: Day, section: Class): ChartRow -> int
  {
    (r: ChartRow) => if OnSheet(r) && Falls(r.code, section) then Held(ledger, r, to) - Held(ledger, r, from - 1) else 0
  }

  function CashHeld(ledger: Ledger, day: Day): ChartRow -> int
  {
    (r: ChartRow) => if OnSheet(r) && CashCode(r.code) then Held(ledger, r, day) else 0
  }

  lemma {:induction false} ClassIsCode(code: string)
    ensures Falls(code, ClassOf(code)) && forall section :: Falls(code, section) ==> section == ClassOf(code)
  {
    Begins(code);
  }

  /** A prefix, character by character. */
  lemma {:induction false} Begins(code: string)
    ensures "11101" <= code <==> 5 <= |code| && code[0] == '1' && code[1] == '1' && code[2] == '1' && code[3] == '0' && code[4] == '1'
    ensures "11102" <= code <==> 5 <= |code| && code[0] == '1' && code[1] == '1' && code[2] == '1' && code[3] == '0' && code[4] == '2'
    ensures forall c, d :: [c, d] <= code <==> 2 <= |code| && code[0] == c && code[1] == d
    ensures "3" <= code <==> 1 <= |code| && code[0] == '3'
  {
    if 5 <= |code| {
      assert code[..5] == [code[0], code[1], code[2], code[3], code[4]];
    }
    if 2 <= |code| {
      assert code[..2] == [code[0], code[1]];
    }
    if 1 <= |code| {
      assert code[..1] == [code[0]];
    }
  }

  lemma {:induction false} OneRow(r: ChartRow, ledger: Ledger, from: Day, to: Day)
    requires from - 1 <= to && r.normal == NormalBalanceFor(r.kind)
    ensures var begin: Day := from - 1;
      && InSection(ledger, OtherCurrentAsset, begin, to)(r) == Grown(ledger, from, to, OtherCurrentAsset)(r)
      && InSection(ledger, NonCurrentAsset, begin, to)(r) == Grown(ledger, from, to, NonCurrentAsset)(r)
      && InSection(ledger, CurrentLiability, begin, to)(r) == Grown(ledger, from, to, CurrentLiability)(r)
      && InSection(ledger, NonCurrentLiability, begin, to)(r) == Grown(ledger, from, to, NonCurrentLiability)(r)
      && InSection(ledger, EquityClass, begin, to)(r) == Grown(ledger, from, to, EquityClass)(r)
      && CashOn(ledger, begin)(r) == CashHeld(ledger, begin)(r) && CashOn(ledger, to)(r) == CashHeld(ledger, to)(r)
      && RevenueOf(ledger, Period(Some(from), to))(r) - ExpenseOf(ledger, Period(Some(from), to))(r) == Earned(ledger, from, to)(r)
  {
    ClassIsCode(r.code);
    ChangeIsNet(ledger, r.id, Period(Some(from), to));
  }

  /** Each section is how the balances of the accounts with its codes grew, each cash figure what cash accounts held, and net
      income what was earned in the period. */
  lemma {:induction false} CashFlowReads(chart: seq<ChartRow>, ledger: Ledger, from: Day, to: Day)
    requires from - 1 <= to && forall r :: r in chart ==> r.normal == NormalBalanceFor(r.kind)
    ensures var c := CashFlowOf(chart, ledger, from, to);
      && c.netIncome == SumBy(chart, Earned(ledger, from, to))
      && c.otherCurrentAssets == SumBy(chart, Grown(ledger, from, to, OtherCurrentAsset))
      && c.nonCurrentAssets == SumBy(chart, Grown(ledger, from, to, NonCurrentAsset))
      && c.currentLiabilities == SumBy(chart, Grown(ledger, from, to, CurrentLiability))
      && c.nonCurrentLiabilities == SumBy(chart, Grown(ledger, from, to, NonCurrentLiability))
      && c.equity == SumBy(chart, Grown(ledger, from, to, EquityClass))
      && c.beginningCash == SumBy(chart, CashHeld(ledger, from - 1)) && c.endingCash == SumBy(chart, CashHeld(ledger, to))
  {
    if chart != [] {
      CashFlowReads(chart[..|chart| - 1], ledger, from, to);
      OneRow(chart[|chart| - 1], ledger, from, to);
    }
  }

  /** Growing assets use cash and growing debts and equity bring it, each in its section of the report. */
  lemma {:induction false} SectionsOf(c: CashFlow)
    ensures Operating(c) == c.netIncome - c.otherCurrentAssets + c.currentLiabilities
    ensures Investing(c) == 0 - c.nonCurrentAssets
    ensures Financing(c) == c.nonCurrentLiabilities + c.equity
    ensures NetChange(c) == Operating(c) + Investing(c) + Financing(c)
    ensures IsBalanced(c) <==> NetChange(c) - (c.endingCash - c.beginningCash) in {-1, 0, 1}
  {
  }
}
