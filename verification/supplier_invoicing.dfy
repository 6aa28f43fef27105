/** The supplier invoice, matched three ways against order, receipt and invoice; and the supplier debit note. */
module SupplierInvoicing {
  import opened Wrappers
  import opened Sums
  import opened Journal
  import opened Rounding
  import opened Books
  import opened Invoicing
  import opened Purchasing

  datatype InvoiceInput =
    | PoLine(line: nat, quantity: nat, unitPrice: nat, rate: nat)
    | ExpenseLine(priced: PricedLine)

  /** The arithmetic of an order line: what the receipt booked to GRNI, and what the supplier charges beyond it. */
  datatype PoLineMath = PoLineMath(net: int, orderValue: int, priceVariance: int, tax: int)

  function PoMath(quantity: nat, invoicePrice: nat, orderPrice: nat, rate: nat): PoLineMath
  {
    var net, orderValue := ValueOf(quantity, invoicePrice), ValueOf(quantity, orderPrice);
    PoLineMath(net, orderValue, net - orderValue, TaxOn(net, rate))
  }

  /** An order line of the invoice after the match; exceeds marks QTY_EXCEEDS_RECEIVED. */
  datatype MatchResult = MatchResult(line: nat, orderPrice: nat, quantity: nat, math: PoLineMath, exceeds: bool)

  datatype Evaluation = Evaluation(claimed: Tally<nat>, matched: seq<MatchResult>, expenses: seq<PricedLine>)

  const NOTHING := Evaluation([], [], [])

  predicate SuppliedBy(t: Tables, line: nat, supplier: nat)
  {
    LineAt(t.orderLines, line).order < |t.orders| && t.orders[LineAt(t.orderLines, line).order].supplier == supplier
  }

  function MatchLine(t: Tables, claimed: Tally<nat>, line: nat, quantity: nat, unitPrice: nat, rate: nat): MatchResult
  {
    var po := LineAt(t.orderLines, line);
    var invoiceable := po.received - po.invoiced - Get(claimed, line);
    MatchResult(line, po.price, quantity, PoMath(quantity, unitPrice, po.price, rate), quantity > invoiceable)
  }

  function EvaluateLine(t: Tables, supplier: nat): (Evaluation, InvoiceInput) -> Result<Evaluation, Refusal>
  {
    (e: Evaluation, l: InvoiceInput) =>
      match l
      case PoLine(line, quantity, unitPrice, rate) =>
        if |t.orderLines| <= line then Failure(LineNotOnOrder)
        else if !SuppliedBy(t, line, supplier) then Failure(SupplierMismatch)
        else Success(Evaluation(Add(e.claimed, line, quantity),
                                e.matched + [MatchLine(t, e.claimed, line, quantity, unitPrice, rate)], e.expenses))
      case ExpenseLine(priced) => Success(e.(expenses := e.expenses + [priced]))
  }

  function Evaluate(t: Tables, supplier: nat, lines: seq<InvoiceInput>): Result<Evaluation, Refusal>
  {
    Fold(NOTHING, lines, EvaluateLine(t, supplier))
  }

  function MatchedNet(m: MatchResult): int { m.math.net }
  function MatchedTax(m: MatchResult): int { m.math.tax }
  function MatchedOrderValue(m: MatchResult): int { m.math.orderValue }
  function MatchedVariance(m: MatchResult): int { m.math.priceVariance }

  datatype InvoiceTotals = InvoiceTotals(net: int, tax: int, grniDebit: int, priceVariance: int, expenseNet: int)

  function TotalsOfInvoice(e: Evaluation): InvoiceTotals
  {
    var x := TotalsOf(e.expenses);
    InvoiceTotals(SumBy(e.matched, MatchedNet) + x.net, SumBy(e.matched, MatchedTax) + x.tax,
                  SumBy(e.matched, MatchedOrderValue), SumBy(e.matched, MatchedVariance), x.net)
  }

  function GrossOf(e: Evaluation): int { TotalsOfInvoice(e).net + TotalsOfInvoice(e).tax }

  /** One debit per expense line that costs anything. */
  function ExpenseDebits(expenses: seq<PricedLine>): seq<Line>
  {
    if expenses == [] then []
    else
      var l := expenses[|expenses| - 1];
      ExpenseDebits(expenses[..|expenses| - 1]) + DrIf(l.account, NetOf(l))
  }

  function GoodsDebits(e: Evaluation): seq<Line>
  {
    DrIf(Mapped(Grni), TotalsOfInvoice(e).grniDebit) + DrSigned(Mapped(PriceVariance), TotalsOfInvoice(e).priceVariance)
      + ExpenseDebits(e.expenses)
  }

  function SupplierInvoiceEntry(e: Evaluation): seq<Line>
  {
    GoodsDebits(e) + DrIf(Mapped(VatInput), TotalsOfInvoice(e).tax) + [Cr(Mapped(Payable), GrossOf(e))]
  }

  function MatchRecord(m: MatchResult): MatchedLine
  {
    MatchedLine(m.line, m.orderPrice, m.quantity, m.math.net, m.math.orderValue)
  }

  function MatchRecords(matched: seq<MatchResult>): (r: seq<MatchedLine>)
    ensures |r| == |matched|
  {
    seq(|matched|, i requires 0 <= i < |matched| => MatchRecord(matched[i]))
  }

  predicate AnyExceeds(e: Evaluation)
  {
    exists i :: 0 <= i < |e.matched| && e.matched[i].exceeds
  }

  predicate HasVariance(e: Evaluation)
  {
    exists i :: 0 <= i < |e.matched| && e.matched[i].math.priceVariance != 0
  }

  /** The invoice's own rows: the document, its matched lines and the invoiced counters. */
  function WithInvoice(t: Tables, e: Evaluation, supplier: nat, date: Day, due: Option<Day>): Tables
  {
    t.(orderLines := Moved(t.orderLines, e.claimed, Move.Invoicing), matched := t.matched + MatchRecords(e.matched),
       docs := t.docs + [Doc(Supplier, Kind.Invoice, supplier, None, date, due, GrossOf(e))])
  }

  function CreateInvoice(t: Tables, supplier: nat, date: Day, due: Option<Day>, acceptVariance: bool, lines: seq<InvoiceInput>)
    : Result<Tables, Refusal>
  {
    if lines == [] then Failure(Empty)
    else
      var e :- Evaluate(t, supplier, lines);
      if AnyExceeds(e) then Failure(QuantityExceedsReceived)
      else if HasVariance(e) && !acceptVariance then Failure(VarianceNotAccepted)
      else if GrossOf(e) == 0 then Failure(ZeroDocument)
      else
        Post(WithInvoice(t, e, supplier, date, due), date, SupplierInvoiceEntry(e))
  }

  /** What an accepted invoice has done to the tables. */
  ghost predicate InvoicedFrom(t: Tables, u: Tables, supplier: nat, date: Day, due: Option<Day>, lines: seq<InvoiceInput>)
  {
    var r := Evaluate(t, supplier, lines);
    && r.Success? && !AnyExceeds(r.value) && GrossOf(r.value) != 0 && ValidShape(SupplierInvoiceEntry(r.value))
    && u.ledger == t.ledger + [Entry(date, SupplierInvoiceEntry(r.value))]
    && u.orderLines == Moved(t.orderLines, r.value.claimed, Move.Invoicing)
    && u.matched == t.matched + MatchRecords(r.value.matched)
    && u.docs == t.docs + [Doc(Supplier, Kind.Invoice, supplier, None, date, due, GrossOf(r.value))]
    && u.stock == t.stock && u.counts == t.counts && u.orders == t.orders
    && u.receipts == t.receipts && u.returned == t.returned && u.payments == t.payments
  }

  lemma {:induction false} CreateInvoiceDoes(t: Tables, supplier: nat, date: Day, due: Option<Day>, acceptVariance: bool, lines: seq<InvoiceInput>)
    requires CreateInvoice(t, supplier, date, due, acceptVariance, lines).Success?
    ensures InvoicedFrom(t, CreateInvoice(t, supplier, date, due, acceptVariance, lines).value, supplier, date, due, lines)
  {
  }

  // ---- the match ----

  predicate TameLine(m: MatchResult)
  {
    && m.math.priceVariance == m.math.net - m.math.orderValue
    && 0 <= m.math.net && 0 <= m.math.orderValue && 0 <= m.math.tax
  }

  predicate Tame(e: Evaluation, n: nat)
  {
    Counted(e.claimed, n) && forall i :: 0 <= i < |e.matched| ==> e.matched[i].line < n && TameLine(e.matched[i])
  }

  /** Checking each line against what the lines before it left is the same as checking every order line's
      sum once: the running check refuses an invoice exactly when some sum does not fit. */
  lemma {:induction false} PrefixCheckIsAggregate(t: Tables, supplier: nat, lines: seq<InvoiceInput>)
    requires Evaluate(t, supplier, lines).Success?
    ensures Tame(Evaluate(t, supplier, lines).value, |t.orderLines|)
    ensures AnyExceeds(Evaluate(t, supplier, lines).value)
       <==> !Fits(Evaluate(t, supplier, lines).value.claimed, t.orderLines, LeftToInvoice)
  {
    if lines != [] {
      var n := |lines| - 1;
      PrefixCheckIsAggregate(t, supplier, lines[..n]);
      var p, e := Evaluate(t, supplier, lines[..n]).value, Evaluate(t, supplier, lines).value;
      match lines[n]
      case ExpenseLine(_) =>
      case PoLine(line, quantity, unitPrice, rate) =>
        AddCounted(p.claimed, line, quantity, |t.orderLines|);
        AddFits(p.claimed, line, quantity, t.orderLines);
        var m := MatchLine(t, p.claimed, line, quantity, unitPrice, rate);
        assert e.matched == p.matched + [m];
        assert AnyExceeds(e) <==> AnyExceeds(p) || m.exceeds by {
          if AnyExceeds(p) {
            var i :| 0 <= i < |p.matched| && p.matched[i].exceeds;
            assert e.matched[i].exceeds;
          }
          if m.exceeds {
            assert e.matched[|p.matched|].exceeds;
          }
        }
    }
  }

  lemma {:induction false} AddFits(claimed: Tally<nat>, line: nat, quantity: nat, lines: seq<OrderLine>)
    requires Counted(claimed, |lines|) && line < |lines|
    ensures Fits(Add(claimed, line, quantity), lines, LeftToInvoice)
       <==> Fits(claimed, lines, LeftToInvoice) && quantity <= LeftToInvoice(lines[line]) - Get(claimed, line)
  {
    var j, u := IndexOf(claimed, line), Add(claimed, line, quantity);
    if j < |claimed| {
      assert forall i :: 0 <= i < |claimed| && i != j ==> u[i] == claimed[i];
      assert u[j] == (line, claimed[j].1 + quantity);
    } else {
      assert forall i :: 0 <= i < |claimed| ==> u[i] == claimed[i];
      assert u[|claimed|] == (line, quantity);
    }
    if Fits(u, lines, LeftToInvoice) {
      forall i | 0 <= i < |claimed| ensures claimed[i].1 <= LeftToInvoice(LineAt(lines, claimed[i].0)) {
        assert u[i].1 <= LeftToInvoice(LineAt(lines, u[i].0));
      }
    }
  }

  /** What rounding added to the matched order values, over and above quantity x order price. */
  function MatchResidue(l: MatchedLine): int { SCALE * l.orderValue - l.quantity * l.price }

  /** The order value the match clears from GRNI is the weight of what it claims, up to rounding. */
  lemma {:induction false} MatchWeighs(t: Tables, supplier: nat, lines: seq<InvoiceInput>)
    requires Evaluate(t, supplier, lines).Success?
    ensures var e := Evaluate(t, supplier, lines).value;
      SCALE * SumBy(e.matched, MatchedOrderValue) == Weight(e.claimed, t.orderLines) + SumBy(MatchRecords(e.matched), MatchResidue)
  {
    if lines != [] {
      var n := |lines| - 1;
      MatchWeighs(t, supplier, lines[..n]);
      var p, e := Evaluate(t, supplier, lines[..n]).value, Evaluate(t, supplier, lines).value;
      match lines[n]
      case ExpenseLine(_) =>
      case PoLine(line, quantity, unitPrice, rate) =>
        var m := MatchLine(t, p.claimed, line, quantity, unitPrice, rate);
        AddWeight(p.claimed, line, quantity, t.orderLines);
        SumBySnoc(p.matched, m, MatchedOrderValue);
        SumBySnoc(MatchRecords(p.matched), MatchRecord(m), MatchResidue);
        assert MatchRecords(e.matched) == MatchRecords(p.matched) + [MatchRecord(m)];
    }
  }

  /** The match, line by line with the running map `claimed`. */
  method EvaluateLines(t: Tables, supplier: nat, lines: seq<InvoiceInput>) returns (r: Result<Evaluation, Refusal>)
    ensures r == Evaluate(t, supplier, lines)
  {
    var claimed, matched, expenses := [], [], [];
    for i := 0 to |lines|
      invariant Evaluate(t, supplier, lines[..i]) == Success(Evaluation(claimed, matched, expenses))
    {
      FoldStep(NOTHING, lines, i, EvaluateLine(t, supplier));
      match lines[i]
      case PoLine(line, quantity, unitPrice, rate) =>
        if |t.orderLines| <= line {
          FoldRefused(NOTHING, lines, i + 1, EvaluateLine(t, supplier));
          return Failure(LineNotOnOrder);
        }
        if !SuppliedBy(t, line, supplier) {
          FoldRefused(NOTHING, lines, i + 1, EvaluateLine(t, supplier));
          return Failure(SupplierMismatch);
        }
        matched := matched + [MatchLine(t, claimed, line, quantity, unitPrice, rate)];
        claimed := Add(claimed, line, quantity);
      case ExpenseLine(priced) =>
        expenses := expenses + [priced];
    }
    assert lines[..|lines|] == lines;
    return Success(Evaluation(claimed, matched, expenses));
  }

  /** invoiceTotals: the two accumulating loops. */
  method AddUp(e: Evaluation) returns (s: InvoiceTotals)
    ensures s == TotalsOfInvoice(e)
  {
    var net, tax, grniDebit, priceVariance, expenseNet := 0, 0, 0, 0, 0;
    for i := 0 to |e.matched|
      invariant net == SumBy(e.matched[..i], MatchedNet) && tax == SumBy(e.matched[..i], MatchedTax)
      invariant grniDebit == SumBy(e.matched[..i], MatchedOrderValue) && priceVariance == SumBy(e.matched[..i], MatchedVariance)
    {
      SumByPrefix(e.matched, i, MatchedNet);
      SumByPrefix(e.matched, i, MatchedTax);
      SumByPrefix(e.matched, i, MatchedOrderValue);
      SumByPrefix(e.matched, i, MatchedVariance);
      var math := e.matched[i].math;
      net, tax, grniDebit, priceVariance := net + math.net, tax + math.tax, grniDebit + math.orderValue, priceVariance + math.priceVariance;
    }
    assert e.matched[..|e.matched|] == e.matched;
    ghost var poNet, poTax := net, tax;
    for i := 0 to |e.expenses|
      invariant net == poNet + SumBy(e.expenses[..i], NetOf) && tax == poTax + SumBy(e.expenses[..i], TaxOf)
      invariant expenseNet == SumBy(e.expenses[..i], NetOf)
    {
      SumByPrefix(e.expenses, i, NetOf);
      SumByPrefix(e.expenses, i, TaxOf);
      var l := e.expenses[i];
      net, tax, expenseNet := net + NetOf(l), tax + TaxOf(l), expenseNet + NetOf(l);
    }
    assert e.expenses[..|e.expenses|] == e.expenses;
    return InvoiceTotals(net, tax, grniDebit, priceVariance, expenseNet);
  }

  // ---- the entry ----

  method PushExpenses(journalLines: seq<Line>, expenses: seq<PricedLine>) returns (r: seq<Line>)
    ensures r == journalLines + ExpenseDebits(expenses)
  {
    r := journalLines;
    for i := 0 to |expenses|
      invariant r == journalLines + ExpenseDebits(expenses[..i])
    {
      assert expenses[..i + 1][..i] == expenses[..i];
      if NetOf(expenses[i]) != 0 {
        r := r + [Dr(expenses[i].account, NetOf(expenses[i]))];
      }
    }
    assert expenses[..|expenses|] == expenses;
  }

  method BuildEntry(e: Evaluation, totals: InvoiceTotals) returns (entry: seq<Line>)
    requires totals == TotalsOfInvoice(e)
    ensures entry == SupplierInvoiceEntry(e)
  {
    entry := DrIf(Mapped(Grni), totals.grniDebit) + DrSigned(Mapped(PriceVariance), totals.priceVariance);
    entry := PushExpenses(entry, e.expenses);
    entry := entry + DrIf(Mapped(VatInput), totals.tax) + [Cr(Mapped(Payable), totals.net + totals.tax)];
  }

  lemma {:induction false} MatchedSums(matched: seq<MatchResult>)
    requires forall i :: 0 <= i < |matched| ==> TameLine(matched[i])
    ensures SumBy(matched, MatchedVariance) == SumBy(matched, MatchedNet) - SumBy(matched, MatchedOrderValue)
    ensures 0 <= SumBy(matched, MatchedNet) && 0 <= SumBy(matched, MatchedTax) && 0 <= SumBy(matched, MatchedOrderValue)
  {
    if matched != [] {
      MatchedSums(matched[..|matched| - 1]);
    }
  }

  lemma {:induction false} ExpenseDebitsSums(expenses: seq<PricedLine>)
    ensures SumBy(ExpenseDebits(expenses), DebitOf) == TotalsOf(expenses).net
    ensures SumBy(ExpenseDebits(expenses), CreditOf) == 0
    ensures AllOneSided(ExpenseDebits(expenses))
    ensures forall a :: Net(ExpenseDebits(expenses), a) == NamedOn(expenses, a)
    ensures 0 <= TotalsOf(expenses).net && 0 <= TotalsOf(expenses).tax
    ensures ExpenseDebits(expenses) == [] ==> TotalsOf(expenses).net == 0
  {
    if expenses != [] {
      var before, l := expenses[..|expenses| - 1], expenses[|expenses| - 1];
      ExpenseDebitsSums(before);
      PieceSums(l.account, NetOf(l));
      ConcatSums(ExpenseDebits(before), DrIf(l.account, NetOf(l)));
      JoinSides(ExpenseDebits(before), DrIf(l.account, NetOf(l)));
      forall a ensures Net(ExpenseDebits(expenses), a) == NamedOn(expenses, a) {
        NetConcat(ExpenseDebits(before), DrIf(l.account, NetOf(l)), a);
      }
    }
  }

  lemma {:induction false} GoodsDebitsSums(e: Evaluation, n: nat)
    requires Tame(e, n)
    ensures var s, d := TotalsOfInvoice(e), GoodsDebits(e);
      && AllOneSided(d)
      && SumBy(d, DebitOf) - SumBy(d, CreditOf) == s.net
      && (d == [] ==> s.net == 0) && 0 <= s.net && 0 <= s.tax && 0 <= s.grniDebit
      && forall a :: Net(d, a) == (if a == Mapped(Grni) then s.grniDebit else 0) + NamedOn(e.expenses, a)
           + if a == Mapped(PriceVariance) then s.priceVariance else 0
  {
    var s := TotalsOfInvoice(e);
    MatchedSums(e.matched);
    ExpenseDebitsSums(e.expenses);
    PieceSums(Mapped(Grni), s.grniDebit);
    SignedPieceSums(Mapped(PriceVariance), s.priceVariance);
    Join(DrIf(Mapped(Grni), s.grniDebit), DrSigned(Mapped(PriceVariance), s.priceVariance), ExpenseDebits(e.expenses));
  }

  /** Whatever the price differences, the entry balances with no rounding line and is acceptable exactly when
      there is something to pay. It debits GRNI by the order value and every account by what the expense
      lines naming it are worth, and credits the payable by the gross. */
  lemma {:induction false} SupplierInvoiceEntryAccepted(e: Evaluation, n: nat)
    requires Tame(e, n)
    ensures 0 <= GrossOf(e)
    ensures ValidShape(SupplierInvoiceEntry(e)) <==> 0 < GrossOf(e)
    ensures forall a :: a != Mapped(PriceVariance) && a != Mapped(VatInput) ==>
      Net(SupplierInvoiceEntry(e), a) ==
        (if a == Mapped(Grni) then TotalsOfInvoice(e).grniDebit else 0) + NamedOn(e.expenses, a) - if a == Mapped(Payable) then GrossOf(e) else 0
  {
    var s, d := TotalsOfInvoice(e), GoodsDebits(e);
    GoodsDebitsSums(e, n);
    PieceSums(Mapped(VatInput), s.tax);
    AgainstAccepted(Cr(Mapped(Payable), GrossOf(e)), d, DrIf(Mapped(VatInput), s.tax), s.net, s.tax);
    OneLine(Cr(Mapped(Payable), GrossOf(e)));
    Join(d, DrIf(Mapped(VatInput), s.tax), [Cr(Mapped(Payable), GrossOf(e))]);
  }

  class SupplierInvoiceService {
    const db: Database

    constructor (db: Database)
      ensures this.db == db
    {
      this.db := db;
    }

    method Create(supplier: nat, date: Day, due: Option<Day>, acceptVariance: bool, lines: seq<InvoiceInput>) returns (r: Outcome<Refusal>)
      modifies db
      ensures r.Pass? ==> CreateInvoice(old(db.tables), supplier, date, due, acceptVariance, lines) == Success(db.tables)
      ensures r.Fail? ==>
        db.tables == old(db.tables) && CreateInvoice(db.tables, supplier, date, due, acceptVariance, lines) == Failure(r.error)
    {
      var t := db.tables;
      if |lines| == 0 {
        return Fail(Empty);
      }
      var evaluated := EvaluateLines(t, supplier, lines);
      if evaluated.Failure? {
        return Fail(evaluated.error);
      }
      var e := evaluated.value;
      if AnyExceeds(e) {
        return Fail(QuantityExceedsReceived);
      }
      if HasVariance(e) && !acceptVariance {
        return Fail(VarianceNotAccepted);
      }
      var totals := AddUp(e);
      if totals.net + totals.tax == 0 {
        return Fail(ZeroDocument);
      }
      var entry := BuildEntry(e, totals);
      var shape := ValidateShape(entry);
      if shape.Fail? {
        return Fail(EntryRejected);
      }
      var booked := WithInvoice(t, e, supplier, date, due);
      db.tables := booked.(ledger := booked.ledger + [Entry(date, entry)]);
      return Pass;
    }
  }
}
