/** Inputs on which the plain claims fail, one for each: the exact ones are proved elsewhere for all inputs. */
module Counterexamples {
  import opened Wrappers
  import opened Sums
  import opened Journal
  import opened Rounding
  import opened WeightedAverage
  import opened Books
  import opened Invoicing
  import opened Inventory
  import opened Settlement
  import opened History
  import opened Reconciliation
  import opened Ageing
  import Reports = FinancialReports
  import Chart = ChartOfAccounts

  // ---- a cash flow that misses cash ----

  const CASH := Reports.ChartRow(Own(0), "1110101", Reports.Asset, Reports.DebitNormal)
  const LOAN := Reports.ChartRow(Own(1), "29", Reports.Liability, Reports.CreditNormal)
  const BORROWED := Entry(1, [Dr(Own(0), 10000), Cr(Own(1), 10000)])

  lemma {:induction false} SumOfOne<T>(x: T, f: T -> int)
    ensures SumBy([x], f) == f(x)
  {
    SumBySnoc([], x, f);
    assert [] + [x] == [x];
  }

  lemma {:induction false} FoldOfOne<S, T, E>(init: S, x: T, step: (S, T) -> Result<S, E>)
    ensures Fold(init, [x], step) == step(init, x)
  {
    FoldStep(init, [x], 0, step);
    assert [x][..0] == [] && [x][..1] == [x];
  }

  lemma {:induction false} TwoAccounts(a: Reports.ChartRow, b: Reports.ChartRow, f: Reports.ChartRow -> int)
    ensures Reports.Across([a, b], f) == f(a) + f(b)
  {
    SumBySnoc([], a, f);
    SumBySnoc([a], b, f);
    assert [] + [a] == [a] && [a] + [b] == [a, b];
  }

  lemma {:induction false} OneEntryUpTo(e: Entry, a: Account, day: Day)
    ensures NetUpTo([e], a, day) == if e.date <= day then Net(e.lines, a) else 0
  {
    NetUpToSnoc([], e, a, day);
    assert [] + [e] == [e];
  }

  lemma {:induction false} Borrows(day: Day)
    ensures NetUpTo([BORROWED], Own(0), day) == if 1 <= day then 10000 else 0
    ensures NetUpTo([BORROWED], Own(1), day) == if 1 <= day then -10000 else 0
    ensures ValidShape(BORROWED.lines)
  {
    PairShape(Own(0), Own(1), 10000);
    OneEntryUpTo(BORROWED, Own(0), day);
    OneEntryUpTo(BORROWED, Own(1), day);
  }

  lemma {:induction false} BorrowingCharted()
    ensures Reports.Charted([CASH, LOAN], [BORROWED]) && Journal.Sound([BORROWED])
  {
    Borrows(1);
    assert [CASH, LOAN][0].id == Own(0) && [CASH, LOAN][1].id == Own(1);
  }

  lemma {:induction false} BorrowingCounts()
    ensures Reports.Across([CASH, LOAN], Reports.CashOn([BORROWED], 0)) == 0
    ensures Reports.Across([CASH, LOAN], Reports.CashOn([BORROWED], 1)) == 10000
    ensures Reports.Across([CASH, LOAN], Reports.Stray([BORROWED], 0, 1)) == -10000
  {
    Borrows(0);
    Borrows(1);
    assert "29"[0] == '2' && "29"[1] == '9';
    assert Reports.ClassOf("1110101") == Reports.Cash && Reports.ClassOf("29") == Reports.Unclassified;
    TwoAccounts(CASH, LOAN, Reports.CashOn([BORROWED], 0));
    TwoAccounts(CASH, LOAN, Reports.CashOn([BORROWED], 1));
    TwoAccounts(CASH, LOAN, Reports.Stray([BORROWED], 0, 1));
  }

  /** Cash of 1.0000 borrowed on an account coded 29, which is in no section: the cash flow reports no change. */
  lemma {:induction false} CodeOutsideSections()
    ensures Reports.Charted([CASH, LOAN], [BORROWED]) && Journal.Sound([BORROWED])
    ensures var c := Reports.CashFlowOf([CASH, LOAN], [BORROWED], 1, 1);
      Reports.NetChange(c) == 0 && c.beginningCash == 0 && c.endingCash == 10000 && !Reports.IsBalanced(c)
  {
    BorrowingCharted();
    BorrowingCounts();
    Reports.CashFlowTies([CASH, LOAN], [BORROWED], 1, 1);
  }

  // ---- an active account under a stopped group ----

  lemma {:induction false} OneMore(steps: seq<Chart.Step>, s: Chart.Step)
    requires Chart.FaithfulRun(steps) && !s.command.Provision?
    ensures Chart.Run(steps + [s]) == Chart.After(s.world, Chart.Run(steps), s.command) && Chart.FaithfulRun(steps + [s])
  {
    assert (steps + [s])[..|steps|] == steps;
  }

  const NOBODY := Chart.World({}, {}, {}, {})
  const GROUP := Chart.Account("1", Reports.Asset, Reports.DebitNormal, false, true, None, None, None)
  const CHILD := Chart.Account("11", Reports.Asset, Reports.DebitNormal, true, true, Some(0), None, None)

  /** From the empty chart: a group is created, stopped, and an account created under it. */
  lemma {:induction false} ActiveUnderStopped() returns (steps: seq<Chart.Step>)
    ensures Chart.FaithfulRun(steps) && !Chart.ActiveOnly(Chart.Run(steps))
  {
    var s1 := Chart.Step(NOBODY, Chart.Create(0, "1", Reports.Asset, false, None, None, None));
    OneMore([], s1);
    assert Chart.Run([] + [s1]) == map[0 := GROUP];
    var s2 := Chart.Step(NOBODY, Chart.SetActive(0, false, false));
    OneMore([] + [s1], s2);
    assert Chart.Run([] + [s1] + [s2]) == map[0 := GROUP.(active := false)];
    var s3 := Chart.Step(NOBODY, Chart.Create(1, "11", Reports.Asset, true, Some(0), None, None));
    steps := [] + [s1] + [s2] + [s3];
    OneMore([] + [s1] + [s2], s3);
    assert Chart.Run(steps) == map[0 := GROUP.(active := false), 1 := CHILD];
    assert !Chart.HangsActive(Chart.Run(steps), 1);
  }

  // ---- a count whose zero floor parts stock from the ledger ----

  lemma {:induction false} OneMoreCommand(commands: seq<Command>, c: Command)
    ensures Run(EXACT, commands + [c]) == After(EXACT, Run(EXACT, commands), c)
    ensures FloorAddedBy(EXACT, commands + [c]) == FloorAddedBy(EXACT, commands) + FloorIn(Run(EXACT, commands), c)
  {
    assert (commands + [c])[..|commands|] == commands;
  }

  const SLOT := Slot(0, 0)

  /** A direct receipt of one line worth something is accepted. */
  lemma {:induction false} ReceivesOne(t: Tables, quantity: nat, unitCost: nat)
    requires 0 < quantity && 0 < ValueOf(quantity, unitCost)
    ensures var r := Apply(EXACT, t, DirectReceipt(1, [DirectLine(SLOT, quantity, unitCost)]));
      var s := RowOf(t.stock, SLOT);
      && r.Success? && r.value.counts == t.counts
      && r.value.stock == t.stock[SLOT := StockState(s.quantity + quantity, s.value + ValueOf(quantity, unitCost))]
  {
    var inputs := DirectInputs([DirectLine(SLOT, quantity, unitCost)]);
    var input := ReceiptInput(SLOT, None, quantity, unitCost);
    assert inputs == [input] && [input][..0] == [];
    assert ReceiveLines(t.stock, []) == Success(Receiving(t.stock, 0, []));
    assert ReceiveLines(t.stock, inputs) == ReceiveLine(Receiving(t.stock, 0, []), input);
    ReceiptAccepted(t, 1, inputs);
    ReceiptDoes(t, 1, inputs);
  }

  const COUNTED := CountLine(SLOT, 30000, 0, 6667)

  lemma {:induction false} FloorOfOne(stock: Stock)
    requires SLOT in stock && stock[SLOT] == StockState(30000, 20000)
    ensures RecordLines(EXACT, stock, [CountInput(SLOT, 0, None)]) == Success([COUNTED])
    ensures FloorOf(stock, [COUNTED]) == 1
  {
    RoundDivUnique(20000 * SCALE, 30000, 6667);
    RoundDivUnique(-30000 * 6667, SCALE, -20001);
    assert [CountInput(SLOT, 0, None)][..0] == [] && [COUNTED][..0] == [];
    assert CountLines(stock, []).stock == stock;
    assert EXACT.cost(stock[SLOT]) == 6667;
    assert RecordLine(EXACT, stock, CountInput(SLOT, 0, None)) == Success(COUNTED);
    assert RecordLines(EXACT, stock, []) == Success([]) && [] + [COUNTED] == [COUNTED];
  }

  const RECORD := CountRecorded(1, [CountInput(SLOT, 0, None)])

  lemma {:induction false} ReceivesMore(commands: seq<Command>, quantity: nat, unitCost: nat) returns (more: seq<Command>)
    requires Unnamed(commands, Mapped(Role.Inventory)) && 0 < quantity && 0 < ValueOf(quantity, unitCost)
    ensures Unnamed(more, Mapped(Role.Inventory)) && FloorAddedBy(EXACT, more) == FloorAddedBy(EXACT, commands)
    ensures var t, u := Run(EXACT, commands), Run(EXACT, more);
      && u.counts == t.counts
      && RowOf(u.stock, SLOT) == StockState(RowOf(t.stock, SLOT).quantity + quantity, RowOf(t.stock, SLOT).value + ValueOf(quantity, unitCost))
      && SLOT in u.stock
  {
    more := commands + [DirectReceipt(1, [DirectLine(SLOT, quantity, unitCost)])];
    OneMoreCommand(commands, more[|commands|]);
    ReceivesOne(Run(EXACT, commands), quantity, unitCost);
  }

  lemma {:induction false} Receives() returns (commands: seq<Command>)
    ensures Unnamed(commands, Mapped(Role.Inventory)) && FloorAddedBy(EXACT, commands) == 0
    ensures var t := Run(EXACT, commands); t.counts == [] && SLOT in t.stock && t.stock[SLOT] == StockState(30000, 20000)
  {
    RoundDivUnique(10000 * 10000, SCALE, 10000);
    RoundDivUnique(20000 * 5000, SCALE, 10000);
    commands := ReceivesMore([], 10000, 10000);
    commands := ReceivesMore(commands, 20000, 5000);
  }

  /** One unit received at 1.0000 and two at 0.5000, then counted to nothing: the stored average of 0.6667 makes the
      loss 2.0001 of the 2.0000 there are, and Inventory ends 0.0001 below the stock it controls. */
  lemma {:induction false} FloorPartsStockFromLedger() returns (commands: seq<Command>)
    ensures Unnamed(commands, Mapped(Role.Inventory)) && FloorAddedBy(EXACT, commands) == 1
    ensures NetDebit(Run(EXACT, commands).ledger, Mapped(Role.Inventory)) == StockValue(Run(EXACT, commands).stock) - 1
  {
    var received := Receives();
    FloorOfOne(Run(EXACT, received).stock);
    OneMoreCommand(received, RECORD);
    OneMoreCommand(received + [RECORD], CountPosted(0));
    commands := received + [RECORD] + [CountPosted(0)];
    InventoryTiesUnnamed(EXACT, commands);
  }

  // ---- a payment dated before its invoice ----

  const SERVICE := SalesInput(None, None, None, 10000, 10000, 0)
  const BILL := Sale(0, 10, None, [SERVICE])
  const EARLY := Pay(Sales, 0, 5, 10000, Own(0), [Allocation(0, 10000)])
  const BILLED := Doc(Sales, Kind.Invoice, 0, None, 10, Some(10), 10000)
  const PAID := Payment(Sales, 0, 5, 10000, [Allocation(0, 10000)])

  lemma {:induction false} Bills()
    ensures var r := Apply(EXACT, EMPTY, BILL); r.Success? && r.value.docs == [BILLED] && r.value.payments == []
  {
    var priced := [Priced(SERVICE)];
    assert PricedLines([SERVICE]) == priced;
    RoundDivUnique(10000 * 10000, SCALE, 10000);
    RoundDivUnique(10000 * 0, 100 * SCALE, 0);
    SumOfOne(Priced(SERVICE), NetOf);
    SumOfOne(Priced(SERVICE), TaxOf);
    assert TotalsOf(priced) == Totals(10000, 0);
    FoldOfOne(Issuing(EMPTY.stock, []), SERVICE, SellLine(EXACT));
    assert SellLines(EXACT, EMPTY.stock, [SERVICE]) == Success(Issuing(EMPTY.stock, []));
    SalesEntryAccepted(priced, 0);
  }

  lemma {:induction false} OwesAll(t: Tables)
    requires t.docs == [BILLED] && t.payments == []
    ensures Outstanding(t, 0, FAR_FUTURE) == 10000
    ensures var r := Apply(EXACT, t, EARLY); r.Success? && r.value.docs == [BILLED] && r.value.payments == [PAID]
  {
    assert [BILLED][..0] == [] && [Allocation(0, 10000)][..0] == [];
    assert Noted([], 0, DebitNote, FAR_FUTURE) == 0 && Noted([], 0, CreditNote, FAR_FUTURE) == 0;
    AllocationsChecked(t, Sales, 0, [Allocation(0, 10000)]);
    PairShape(Own(0), Mapped(Receivable), 10000);
  }

  lemma {:induction false} AllEarly(t: Tables)
    requires t.docs == [BILLED] && t.payments == [PAID]
    ensures Early(t, Selection(Sales, None, 7)) == 10000
  {
    assert [PAID][..0] == [] && [Allocation(0, 10000)][..0] == [] && [BILLED][..0] == [];
    assert EarlyAllocated(t.docs, PAID.allocations, 7) == 10000;
    var s := Selection(Sales, None, 7);
    assert EarlyPaid(t.docs, [], s) == 0 && EarlyPaid(t.docs, [PAID], s) == 10000;
    assert EarlyNoted(t.docs, [], s) == 0 && EarlyNoted(t.docs, [BILLED], s) == 0;
  }

  lemma {:induction false} NamesNoControl()
    ensures Unnamed([BILL, EARLY], Mapped(Receivable))
  {
    assert SERVICE.revenue.None?;
    assert NamedBy(BILL) == {} && NamedBy(EARLY) == {Own(0)};
  }

  /** An invoice of 1.0000 dated the 10th and paid on the 5th: on the 7th the ageing report is 1.0000 above the
      receivable account, which the payment has already credited and the invoice has not yet debited. */
  lemma {:induction false} PaidBeforeInvoiced()
    ensures var commands := [BILL, EARLY];
      var t, s := Run(EXACT, commands), Selection(Sales, None, 7);
      && Unnamed(commands, Mapped(Receivable))
      && Early(t, s) == 10000
      && AgeingTotal(t, s) - NetUpTo(t.ledger, Mapped(Receivable), 7) == 10000
  {
    OneMoreCommand([], BILL);
    Bills();
    OneMoreCommand([] + [BILL], EARLY);
    OwesAll(Run(EXACT, [] + [BILL]));
    assert [] + [BILL] + [EARLY] == [BILL, EARLY];
    AllEarly(Run(EXACT, [BILL, EARLY]));
    NamesNoControl();
    UnnamedPutsNothing(EXACT, [BILL, EARLY], Mapped(Receivable), 7);
    AgeingTiesToLedger(EXACT, [BILL, EARLY], Sales, 7);
  }
}
