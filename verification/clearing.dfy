/** How far rounding can take GRNI from what is open on the orders, and when stock rows empty out. */
module Clearing {
  import opened Wrappers
  import opened Sums
  import opened Journal
  import opened Rounding
  import opened WeightedAverage
  import opened Books
  import opened Inventory
  import opened Purchasing
  import opened SupplierInvoicing
  import opened Settlement
  import opened History
  import opened Reconciliation

  /** Every line posted to GRNI carries quantity x price, rounded once. */
  predicate RoundedOnce(t: Tables)
  {
    && (forall i :: 0 <= i < |t.receipts| ==> t.receipts[i].value == ValueOf(t.receipts[i].quantity, t.receipts[i].unitCost))
    && (forall i :: 0 <= i < |t.returned| ==> t.returned[i].orderValue == ValueOf(t.returned[i].quantity, t.returned[i].price))
    && (forall i :: 0 <= i < |t.matched| ==> t.matched[i].orderValue == ValueOf(t.matched[i].quantity, t.matched[i].price))
  }

  lemma {:induction false} ReceiptsRoundedOnce(t: Tables, u: Tables, lines: seq<ReceiptInput>)
    requires RoundedOnce(t) && ReceiveLines(t.stock, lines).Success?
    requires u.receipts == t.receipts + ReceiveLines(t.stock, lines).value.records
    requires u.returned == t.returned && u.matched == t.matched
    ensures RoundedOnce(u)
  {
    ReceiveLinesMove(t.stock, lines);
  }

  lemma {:induction false} MatchedRoundedOnce(t: Tables, supplier: nat, lines: seq<InvoiceInput>)
    requires Evaluate(t, supplier, lines).Success?
    ensures var m := Evaluate(t, supplier, lines).value.matched;
      forall i :: 0 <= i < |m| ==> m[i].math.orderValue == ValueOf(m[i].quantity, m[i].orderPrice)
  {
    if lines != [] {
      MatchedRoundedOnce(t, supplier, lines[..|lines| - 1]);
    }
  }

  lemma {:induction false} StepRoundedOnce(average: Averaging, t: Tables, c: Command)
    requires RoundedOnce(t)
    ensures RoundedOnce(After(average, t, c))
  {
    if Apply(average, t, c).Success? {
      if c.GoodsReturn? || c.SupplierInvoice? {
        StepMatchedRoundedOnce(average, t, c);
      } else {
        StepReceivedRoundedOnce(average, t, c);
      }
    }
  }

  lemma {:induction false} StepReceivedRoundedOnce(average: Averaging, t: Tables, c: Command)
    requires RoundedOnce(t) && Apply(average, t, c).Success? && !c.GoodsReturn? && !c.SupplierInvoice?
    ensures RoundedOnce(Apply(average, t, c).value)
  {
    var u := Apply(average, t, c).value;
    match c
    case DirectReceipt(date, goods) =>
      ReceiptDoes(t, date, DirectInputs(goods));
      ReceiptsRoundedOnce(t, u, DirectInputs(goods));
    case OrderReceipt(id, date, warehouse, wants) =>
      ReceiveOrderDoes(t, id, date, warehouse, wants);
      ReceiptsRoundedOnce(t, u, ReceiptInputs(t.orderLines, warehouse, wants));
    case _ =>
  }

  lemma {:induction false} ReturnRoundedOnce(t: Tables, u: Tables, lines: seq<OrderLine>, entries: Tally<nat>, values: seq<nat>)
    requires RoundedOnce(t) && u.returned == t.returned + ReturnRecords(lines, entries, values)
    requires u.receipts == t.receipts && u.matched == t.matched
    ensures RoundedOnce(u)
  {
  }

  lemma {:induction false} InvoiceRoundedOnce(t: Tables, u: Tables, m: seq<MatchResult>)
    requires RoundedOnce(t) && u.matched == t.matched + MatchRecords(m)
    requires u.receipts == t.receipts && u.returned == t.returned
    requires forall i :: 0 <= i < |m| ==> m[i].math.orderValue == ValueOf(m[i].quantity, m[i].orderPrice)
    ensures RoundedOnce(u)
  {
  }

  lemma {:induction false} StepMatchedRoundedOnce(average: Averaging, t: Tables, c: Command)
    requires RoundedOnce(t) && Apply(average, t, c).Success? && (c.GoodsReturn? || c.SupplierInvoice?)
    ensures RoundedOnce(Apply(average, t, c).value)
  {
    var u := Apply(average, t, c).value;
    match c
    case GoodsReturn(id, date, warehouse, wants) =>
      CreateReturnDoes(average, t, id, date, warehouse, wants);
      var entries := SortByItem(t.orderLines, Requested(wants));
      var r := IssueLines(average, t.stock, IssueInputs(t.orderLines, warehouse, entries)).value;
      ReturnRoundedOnce(t, u, t.orderLines, entries, r.values);
    case SupplierInvoice(supplier, date, due, accept, invoiced) =>
      CreateInvoiceDoes(t, supplier, date, due, accept, invoiced);
      MatchedRoundedOnce(t, supplier, invoiced);
      InvoiceRoundedOnce(t, u, Evaluate(t, supplier, invoiced).value.matched);
  }

  lemma {:induction false} RunRoundedOnce(average: Averaging, commands: seq<Command>)
    ensures RoundedOnce(Run(average, commands))
  {
    if commands != [] {
      RunRoundedOnce(average, commands[..|commands| - 1]);
      StepRoundedOnce(average, Run(average, commands[..|commands| - 1]), commands[|commands| - 1]);
    }
  }

  predicate AgainstOrder(l: ReceiptLine) { l.orderLine.Some? }

  function OrderReceipts(receipts: seq<ReceiptLine>): nat
  {
    if receipts == [] then 0
    else OrderReceipts(receipts[..|receipts| - 1]) + if AgainstOrder(receipts[|receipts| - 1]) then 1 else 0
  }

  /** The lines against orders that were posted to GRNI: receipts, returns and matches. */
  function PostedLines(t: Tables): nat
  {
    OrderReceipts(t.receipts) + |t.returned| + |t.matched|
  }

  /** A sum of residues is at most half a ten-thousandth a line. */
  lemma {:induction false} ResiduesBounded<T>(s: seq<T>, f: T -> int)
    requires forall i :: 0 <= i < |s| ==> -SCALE <= 2 * f(s[i]) <= SCALE
    ensures -SCALE * |s| <= 2 * SumBy(s, f) <= SCALE * |s|
  {
    if s != [] {
      ResiduesBounded(s[..|s| - 1], f);
    }
  }

  lemma {:induction false} ReceiptResiduesBounded(receipts: seq<ReceiptLine>)
    requires forall i :: 0 <= i < |receipts| ==> receipts[i].value == ValueOf(receipts[i].quantity, receipts[i].unitCost)
    ensures -SCALE * OrderReceipts(receipts) <= 2 * SumBy(receipts, ReceiptResidue) <= SCALE * OrderReceipts(receipts)
  {
    if receipts != [] {
      var l := receipts[|receipts| - 1];
      ReceiptResiduesBounded(receipts[..|receipts| - 1]);
      assert -SCALE <= 2 * Residue(l.quantity, l.unitCost) <= SCALE;
    }
  }

  lemma {:induction false} DriftBounded(t: Tables)
    requires RoundedOnce(t)
    ensures -SCALE * PostedLines(t) <= 2 * Drift(t) <= SCALE * PostedLines(t)
  {
    ReceiptResiduesBounded(t.receipts);
    forall i | 0 <= i < |t.returned| ensures -SCALE <= 2 * ReturnResidue(t.returned[i]) <= SCALE {
      assert ReturnResidue(t.returned[i]) == Residue(t.returned[i].quantity, t.returned[i].price);
    }
    forall i | 0 <= i < |t.matched| ensures -SCALE <= 2 * MatchResidue(t.matched[i]) <= SCALE {
      assert MatchResidue(t.matched[i]) == Residue(t.matched[i].quantity, t.matched[i].price);
    }
    ResiduesBounded(t.returned, ReturnResidue);
    ResiduesBounded(t.matched, MatchResidue);
  }

  /** Every product the lines carry fits the column. */
  predicate NoRounding(t: Tables)
  {
    && (forall i :: 0 <= i < |t.receipts| ==> (t.receipts[i].quantity * t.receipts[i].unitCost) % SCALE == 0)
    && (forall i :: 0 <= i < |t.returned| ==> (t.returned[i].quantity * t.returned[i].price) % SCALE == 0)
    && (forall i :: 0 <= i < |t.matched| ==> (t.matched[i].quantity * t.matched[i].price) % SCALE == 0)
  }

  lemma {:induction false} ZeroSum<T>(s: seq<T>, f: T -> int)
    requires forall i :: 0 <= i < |s| ==> f(s[i]) == 0
    ensures SumBy(s, f) == 0
  {
    if s != [] {
      ZeroSum(s[..|s| - 1], f);
    }
  }

  lemma {:induction false} NoRoundingNoDrift(t: Tables)
    requires RoundedOnce(t) && NoRounding(t)
    ensures Drift(t) == 0
  {
    forall i | 0 <= i < |t.receipts| ensures ReceiptResidue(t.receipts[i]) == 0 {
      ExactProductHasNoResidue(t.receipts[i].quantity, t.receipts[i].unitCost);
    }
    forall i | 0 <= i < |t.returned| ensures ReturnResidue(t.returned[i]) == 0 {
      ExactProductHasNoResidue(t.returned[i].quantity, t.returned[i].price);
    }
    forall i | 0 <= i < |t.matched| ensures MatchResidue(t.matched[i]) == 0 {
      ExactProductHasNoResidue(t.matched[i].quantity, t.matched[i].price);
    }
    ZeroSum(t.receipts, ReceiptResidue);
    ZeroSum(t.returned, ReturnResidue);
    ZeroSum(t.matched, MatchResidue);
  }

  /** What GRNI's credit is over direct receipts and the value received and not invoiced, in units of 10^-8. */
  function GrniExcess(t: Tables): int
  {
    -SCALE * NetDebit(t.ledger, Mapped(Grni)) - SCALE * SumBy(t.receipts, DirectValue) - OpenValue(t.orderLines)
  }

  /** Over every run, apart from what documents put on GRNI by naming it, it clears to within half a ten-thousandth
      per order line posted to it, and exactly when no product needed rounding. */
  lemma {:induction false} GrniClears(average: Averaging, commands: seq<Command>)
    ensures var t := Run(average, commands);
      var rounding := GrniExcess(t) + SCALE * PutBy(average, commands, Mapped(Grni), FAR_FUTURE);
      && -SCALE * PostedLines(t) <= 2 * rounding <= SCALE * PostedLines(t)
      && (NoRounding(t) ==> rounding == 0)
  {
    var t := Run(average, commands);
    GrniTies(average, commands);
    RunRoundedOnce(average, commands);
    DriftBounded(t);
    if NoRounding(t) {
      NoRoundingNoDrift(t);
    }
  }

  // ---- rows that empty out ----

  /** A row with nothing on hand holds no value. */
  predicate Tidy(stock: Stock)
  {
    forall k :: k in stock && stock[k].quantity == 0 ==> stock[k].value == 0
  }

  lemma {:induction false} ReceiveTidy(stock: Stock, lines: seq<ReceiptInput>)
    requires Tidy(stock) && ReceiveLines(stock, lines).Success?
    ensures Tidy(ReceiveLines(stock, lines).value.stock)
  {
    if lines != [] {
      ReceiveTidy(stock, lines[..|lines| - 1]);
    }
  }

  lemma {:induction false} IssueOneTidy(average: Averaging, r: Issuing, l: IssueInput)
    requires Tidy(r.stock) && IssueOne(average, r, l).Success?
    ensures Tidy(IssueOne(average, r, l).value.stock)
  {
    IssueConserves(average, RowOf(r.stock, l.slot), l.quantity);
  }

  lemma {:induction false} IssueTidy(average: Averaging, stock: Stock, lines: seq<IssueInput>)
    requires Tidy(stock) && IssueLines(average, stock, lines).Success?
    ensures Tidy(IssueLines(average, stock, lines).value.stock)
  {
    if lines != [] {
      var n := |lines| - 1;
      IssueTidy(average, stock, lines[..n]);
      IssueOneTidy(average, IssueLines(average, stock, lines[..n]).value, lines[n]);
    }
  }

  lemma {:induction false} SellTidy(average: Averaging, stock: Stock, lines: seq<SalesInput>)
    requires Tidy(stock) && SellLines(average, stock, lines).Success?
    ensures Tidy(SellLines(average, stock, lines).value.stock)
  {
    if lines != [] {
      var n := |lines| - 1;
      SellTidy(average, stock, lines[..n]);
      var p, l := SellLines(average, stock, lines[..n]).value, lines[n];
      if l.item.Some? && l.warehouse.Some? {
        IssueOneTidy(average, p, IssueInput(Slot(l.item.value, l.warehouse.value), l.quantity));
      }
    }
  }

  lemma {:induction false} StepTidy(average: Averaging, t: Tables, c: Command)
    requires Tidy(t.stock) && !c.CountPosted?
    ensures Tidy(After(average, t, c).stock)
  {
    if Apply(average, t, c).Success? {
      match c
      case DirectReceipt(date, goods) =>
        ReceiptDoes(t, date, DirectInputs(goods));
        ReceiveTidy(t.stock, DirectInputs(goods));
      case StockIssue(date, issues) => IssueTidy(average, t.stock, issues);
      case OrderReceipt(id, date, warehouse, wants) =>
        ReceiveOrderDoes(t, id, date, warehouse, wants);
        ReceiveTidy(t.stock, ReceiptInputs(t.orderLines, warehouse, wants));
      case GoodsReturn(id, date, warehouse, wants) =>
        CreateReturnDoes(average, t, id, date, warehouse, wants);
        IssueTidy(average, t.stock, IssueInputs(t.orderLines, warehouse, SortByItem(t.orderLines, Requested(wants))));
      case SupplierInvoice(supplier, date, due, accept, invoiced) => CreateInvoiceDoes(t, supplier, date, due, accept, invoiced);
      case Sale(_, _, _, sold) => SellTidy(average, t.stock, sold);
      case _ =>
    }
  }

  /** Over every run without counts, an empty row is worth nothing, however the averages are rounded. */
  lemma {:induction false} EmptyRowsHoldNothing(average: Averaging, commands: seq<Command>)
    requires forall i :: 0 <= i < |commands| ==> !commands[i].CountPosted?
    ensures Tidy(Run(average, commands).stock)
  {
    if commands != [] {
      EmptyRowsHoldNothing(average, commands[..|commands| - 1]);
      StepTidy(average, Run(average, commands[..|commands| - 1]), commands[|commands| - 1]);
    }
  }

  /** A count can break it: counting a row worth 1.0000 for 3.0000 units down to nothing, at its stored average
      of 0.3333, leaves 0.0001 of value on zero units. */
  lemma {:induction false} CountCanStrandValue(slot: Slot)
    ensures var stock: Stock := map[slot := StockState(30000, 10000)];
      var line := RecordLine(EXACT, stock, CountInput(slot, 0, None)).value;
      Tidy(stock) && CountLines(stock, [line]).stock[slot] == StockState(0, 1)
  {
    var stock: Stock := map[slot := StockState(30000, 10000)];
    RoundDivUnique(10000 * SCALE, 30000, 3333);
    var line := RecordLine(EXACT, stock, CountInput(slot, 0, None)).value;
    assert line == CountLine(slot, 30000, 0, 3333);
    RoundDivUnique(-30000 * 3333, SCALE, -9999);
    assert CountLines(stock, []).stock == stock && [line][..0] == [];
  }
}
