/** What every document is worth and what it books on every account, read off its input lines; and when it is accepted. */
module DocumentEffects {
  import opened Wrappers
  import opened Sums
  import opened Journal
  import opened Rounding
  import opened WeightedAverage
  import opened Books
  import opened Invoicing
  import opened Inventory
  import opened Purchasing
  import opened SupplierInvoicing
  import opened Settlement
  import opened StockEffects

  /** One entry more in the ledger. */
  predicate OneMore(before: Ledger, after: Ledger, date: Day)
  {
    |after| == |before| + 1 && after[..|before|] == before && after[|before|].date == date
  }

  // ---- sales ----

  function SoldNet(l: SalesInput): int { ValueOf(l.quantity, l.unitPrice) }
  function SoldTax(l: SalesInput): int { TaxOn(ValueOf(l.quantity, l.unitPrice), l.rate) }
  function SoldGross(l: SalesInput): int { ValueOf(l.quantity, l.unitPrice) + TaxOn(ValueOf(l.quantity, l.unitPrice), l.rate) }

  /** A line's net goes to the account it names, or to sales revenue. */
  function RevenueTo(a: Account): SalesInput -> int
  {
    (l: SalesInput) => if a == (if l.revenue.Some? then l.revenue.value else Mapped(SalesRevenue)) then ValueOf(l.quantity, l.unitPrice) else 0
  }

  lemma {:induction false} PricedSums(lines: seq<SalesInput>)
    ensures TotalsOf(PricedLines(lines)) == Totals(SumBy(lines, SoldNet), SumBy(lines, SoldTax))
    ensures SumBy(lines, SoldGross) == SumBy(lines, SoldNet) + SumBy(lines, SoldTax)
  {
    if lines != [] {
      var n := |lines| - 1;
      PricedSums(lines[..n]);
      assert PricedLines(lines)[..n] == PricedLines(lines[..n]);
      assert PricedLines(lines)[n] == Priced(lines[n]);
    }
  }

  lemma {:induction false} PricedNamed(lines: seq<SalesInput>, a: Account)
    ensures NamedOn(PricedLines(lines), a) == SumBy(lines, RevenueTo(a))
  {
    if lines != [] {
      var n := |lines| - 1;
      PricedNamed(lines[..n], a);
      assert PricedLines(lines)[..n] == PricedLines(lines[..n]);
      assert PricedLines(lines)[n] == Priced(lines[n]);
    }
  }

  lemma {:induction false} CostNet(cost: int, a: Account)
    ensures Net(CostEntry(cost), a) == On(a, Mapped(CostOfGoodsSold), cost) - On(a, Mapped(Role.Inventory), cost)
  {
    NetConcat(DrIf(Mapped(CostOfGoodsSold), cost), CrIf(Mapped(Role.Inventory), cost), a);
  }

  lemma {:induction false} RevenueNet(lines: seq<PricedLine>, a: Account)
    ensures Net(RevenueEntry(lines), a)
         == On(a, Mapped(Receivable), Gross(TotalsOf(lines))) - On(a, Mapped(VatOutput), TotalsOf(lines).tax) - NamedOn(lines, a)
  {
    ByAccountGroups(lines);
    DocumentEntryNet(Mapped(Receivable), Mapped(VatOutput), true, ByAccount(lines), TotalsOf(lines), a);
  }

  lemma {:induction false} SaleDoes(average: Averaging, t: Tables, customer: nat, date: Day, due: Option<Day>, lines: seq<SalesInput>)
    requires CreateSale(average, t, customer, date, due, lines).Success?
    ensures var u, r := CreateSale(average, t, customer, date, due, lines).value, SellLines(average, t.stock, lines);
      && r.Success?
      && u.ledger == t.ledger + [Entry(date, SalesEntry(PricedLines(lines), Cost(r.value)))]
      && u.docs == t.docs + [Doc(Sales, Kind.Invoice, customer, None, date, Some(if due.Some? then due.value else date), Gross(TotalsOf(PricedLines(lines))))]
      && u == t.(stock := r.value.stock, docs := u.docs, ledger := u.ledger)
  {
  }

  /** A sale is worth the sum of its lines' net and tax; that is the invoice's gross. */
  lemma {:induction false} SaleInvoices(average: Averaging, t: Tables, customer: nat, date: Day, due: Option<Day>, lines: seq<SalesInput>)
    requires CreateSale(average, t, customer, date, due, lines).Success?
    ensures var u := CreateSale(average, t, customer, date, due, lines).value;
      && |u.docs| == |t.docs| + 1 && u.docs[..|t.docs|] == t.docs
      && var d := u.docs[|t.docs|];
      && d.side == Sales && d.kind == Kind.Invoice && d.party == customer && d.original == None && d.date == date
      && d.due == Some(if due.Some? then due.value else date) && d.gross == SumBy(lines, SoldGross)
      && u == t.(stock := u.stock, docs := u.docs, ledger := u.ledger)
  {
    SaleDoes(average, t, customer, date, due, lines);
    PricedSums(lines);
  }

  /** The receivable is debited by the gross, VAT credited by the lines' tax and every account by the net of the lines that
      go to it; what left stock moves from Inventory to the cost of goods sold. */
  function SaleOn(a: Account, lines: seq<SalesInput>, cost: int): int
  {
    On(a, Mapped(Receivable), SumBy(lines, SoldGross)) - On(a, Mapped(VatOutput), SumBy(lines, SoldTax)) - SumBy(lines, RevenueTo(a))
      + On(a, Mapped(CostOfGoodsSold), cost) - On(a, Mapped(Role.Inventory), cost)
  }

  lemma {:induction false} SalesEntryNet(lines: seq<SalesInput>, cost: int, a: Account)
    ensures Net(SalesEntry(PricedLines(lines), cost), a) == SaleOn(a, lines, cost)
  {
    PricedSums(lines);
    PricedNamed(lines, a);
    RevenueNet(PricedLines(lines), a);
    CostNet(cost, a);
    NetConcat(RevenueEntry(PricedLines(lines)), CostEntry(cost), a);
  }

  /** What a sale books on any account, the ones its lines name included. */
  lemma {:induction false} SaleBooks(average: Averaging, t: Tables, customer: nat, date: Day, due: Option<Day>, lines: seq<SalesInput>, a: Account)
    requires CreateSale(average, t, customer, date, due, lines).Success?
    ensures var u := CreateSale(average, t, customer, date, due, lines).value;
      && OneMore(t.ledger, u.ledger, date)
      && Net(u.ledger[|t.ledger|].lines, a) == SaleOn(a, lines, StockValue(t.stock) - StockValue(u.stock))
  {
    SaleDoes(average, t, customer, date, due, lines);
    SellLinesMove(average, t.stock, lines);
    SalesEntryNet(lines, Cost(SellLines(average, t.stock, lines).value), a);
  }

  /** A sale is accepted exactly when its goods can be taken out and it is worth something. */
  lemma {:induction false} SaleAccepted(average: Averaging, t: Tables, customer: nat, date: Day, due: Option<Day>, lines: seq<SalesInput>)
    ensures CreateSale(average, t, customer, date, due, lines).Success? <==>
      && Housed(lines)
      && (forall i :: 0 <= i < |lines| && lines[i].item.Some? ==> 0 < lines[i].quantity)
      && (forall k: Slot :: SumBy(lines, SoldFrom(k)) <= RowOf(t.stock, k).quantity)
      && 0 < SumBy(lines, SoldGross)
  {
    SaleAccepts(average, t.stock, lines);
    PricedSums(lines);
    if SellLines(average, t.stock, lines).Success? {
      SellLinesMove(average, t.stock, lines);
      SalesEntryAccepted(PricedLines(lines), Cost(SellLines(average, t.stock, lines).value));
    }
  }

  // ---- supplier invoices ----

  function BilledNet(l: InvoiceInput): int
  {
    match l
    case PoLine(_, quantity, unitPrice, _) => ValueOf(quantity, unitPrice)
    case ExpenseLine(x) => ValueOf(x.quantity, x.unitPrice)
  }

  function BilledTax(l: InvoiceInput): int
  {
    match l
    case PoLine(_, quantity, unitPrice, rate) => TaxOn(ValueOf(quantity, unitPrice), rate)
    case ExpenseLine(x) => TaxOn(ValueOf(x.quantity, x.unitPrice), x.rate)
  }

  function BilledGross(l: InvoiceInput): int { BilledNet(l) + BilledTax(l) }

  /** What the order priced the goods of a line at. */
  function OrderedWorth(orderLines: seq<OrderLine>): InvoiceInput -> int
  {
    (l: InvoiceInput) =>
      match l
      case PoLine(line, quantity, _, _) => ValueOf(quantity, PriceOn(orderLines, line))
      case ExpenseLine(_) => 0
  }

  /** What the supplier bills for the goods of a line beyond that. */
  function Excess(orderLines: seq<OrderLine>): InvoiceInput -> int
  {
    (l: InvoiceInput) =>
      match l
      case PoLine(line, quantity, unitPrice, _) => ValueOf(quantity, unitPrice) - ValueOf(quantity, PriceOn(orderLines, line))
      case ExpenseLine(_) => 0
  }

  function ExpenseTo(a: Account): InvoiceInput -> int
  {
    (l: InvoiceInput) =>
      match l
      case PoLine(_, _, _, _) => 0
      case ExpenseLine(x) => if x.account == a then ValueOf(x.quantity, x.unitPrice) else 0
  }

  function ClaimedOn(i: nat): InvoiceInput -> int
  {
    (l: InvoiceInput) =>
      match l
      case PoLine(line, quantity, _, _) => if line == i then quantity else 0
      case ExpenseLine(_) => 0
  }

  lemma {:induction false} TotalsGrow(e: Evaluation, m: MatchResult, claimed: Tally<nat>)
    ensures var after := TotalsOfInvoice(Evaluation(claimed, e.matched + [m], e.expenses));
      var s := TotalsOfInvoice(e);
      && after.net == s.net + m.math.net && after.tax == s.tax + m.math.tax
      && after.grniDebit == s.grniDebit + m.math.orderValue && after.priceVariance == s.priceVariance + m.math.priceVariance
  {
    SumBySnoc(e.matched, m, MatchedNet);
    SumBySnoc(e.matched, m, MatchedTax);
    SumBySnoc(e.matched, m, MatchedOrderValue);
    SumBySnoc(e.matched, m, MatchedVariance);
  }

  lemma {:induction false} ExpensesGrow(e: Evaluation, x: PricedLine)
    ensures var after := TotalsOfInvoice(e.(expenses := e.expenses + [x]));
      var s := TotalsOfInvoice(e);
      && after.net == s.net + ValueOf(x.quantity, x.unitPrice) && after.tax == s.tax + TaxOn(ValueOf(x.quantity, x.unitPrice), x.rate)
      && after.grniDebit == s.grniDebit && after.priceVariance == s.priceVariance
  {
    SumBySnoc(e.expenses, x, NetOf);
    SumBySnoc(e.expenses, x, TaxOf);
  }

  /** Known to the supplier's orders, as far as it is about goods. */
  predicate Ordered(t: Tables, supplier: nat, l: InvoiceInput)
  {
    match l
    case PoLine(line, _, _, _) =>
      && line < |t.orderLines|
      && t.orderLines[line].order < |t.orders| && t.orders[t.orderLines[line].order].supplier == supplier
    case ExpenseLine(_) => true
  }

  predicate AllOrdered(t: Tables, supplier: nat, lines: seq<InvoiceInput>)
  {
    forall i :: 0 <= i < |lines| ==> Ordered(t, supplier, lines[i])
  }

  /** What one more line adds to an evaluation. */
  predicate Adds(orderLines: seq<OrderLine>, p: Evaluation, e: Evaluation, l: InvoiceInput)
  {
    match l
    case PoLine(line, quantity, unitPrice, rate) =>
      && e.expenses == p.expenses && e.claimed == Add(p.claimed, line, quantity)
      && |e.matched| == |p.matched| + 1 && e.matched[..|p.matched|] == p.matched
      && var m := e.matched[|p.matched|];
         && m.line == line && m.orderPrice == PriceOn(orderLines, line) && m.quantity == quantity
         && m.math.net == ValueOf(quantity, unitPrice) && m.math.orderValue == ValueOf(quantity, PriceOn(orderLines, line))
         && m.math.priceVariance == ValueOf(quantity, unitPrice) - ValueOf(quantity, PriceOn(orderLines, line))
         && m.math.tax == TaxOn(ValueOf(quantity, unitPrice), rate)
    case ExpenseLine(x) => e.claimed == p.claimed && e.matched == p.matched && e.expenses == p.expenses + [x]
  }

  lemma {:induction false} EvaluateLast(t: Tables, supplier: nat, lines: seq<InvoiceInput>)
    requires lines != []
    ensures var n := |lines| - 1;
      Evaluate(t, supplier, lines).Success? <==> Evaluate(t, supplier, lines[..n]).Success? && Ordered(t, supplier, lines[n])
    ensures Evaluate(t, supplier, lines).Success? ==>
      Adds(t.orderLines, Evaluate(t, supplier, lines[..|lines| - 1]).value, Evaluate(t, supplier, lines).value, lines[|lines| - 1])
  {
  }

  lemma {:induction false} TotalsAdd(orderLines: seq<OrderLine>, p: Evaluation, e: Evaluation, l: InvoiceInput)
    requires Adds(orderLines, p, e, l)
    ensures var before, after := TotalsOfInvoice(p), TotalsOfInvoice(e);
      && after.net == before.net + BilledNet(l) && after.tax == before.tax + BilledTax(l)
      && after.grniDebit == before.grniDebit + OrderedWorth(orderLines)(l)
      && after.priceVariance == before.priceVariance + Excess(orderLines)(l)
  {
    match l
    case PoLine(_, _, _, _) =>
      var m := e.matched[|p.matched|];
      assert e.matched == p.matched + [m];
      TotalsGrow(p, m, e.claimed);
    case ExpenseLine(x) => ExpensesGrow(p, x);
  }

  /** The evaluation's totals are those of the lines as they came. */
  lemma {:induction false} EvaluatedTotals(t: Tables, supplier: nat, lines: seq<InvoiceInput>)
    requires Evaluate(t, supplier, lines).Success?
    ensures var s := TotalsOfInvoice(Evaluate(t, supplier, lines).value);
      && s.net == SumBy(lines, BilledNet) && s.tax == SumBy(lines, BilledTax)
      && s.grniDebit == SumBy(lines, OrderedWorth(t.orderLines)) && s.priceVariance == SumBy(lines, Excess(t.orderLines))
  {
    if lines != [] {
      var n := |lines| - 1;
      EvaluateLast(t, supplier, lines);
      EvaluatedTotals(t, supplier, lines[..n]);
      TotalsAdd(t.orderLines, Evaluate(t, supplier, lines[..n]).value, Evaluate(t, supplier, lines).value, lines[n]);
    }
  }

  lemma {:induction false} NamesAdd(orderLines: seq<OrderLine>, p: Evaluation, e: Evaluation, l: InvoiceInput, a: Account)
    requires Adds(orderLines, p, e, l)
    ensures NamedOn(e.expenses, a) == NamedOn(p.expenses, a) + ExpenseTo(a)(l)
  {
    if l.ExpenseLine? {
      assert e.expenses[..|p.expenses|] == p.expenses;
    }
  }

  lemma {:induction false} EvaluatedNames(t: Tables, supplier: nat, lines: seq<InvoiceInput>, a: Account)
    requires Evaluate(t, supplier, lines).Success?
    ensures NamedOn(Evaluate(t, supplier, lines).value.expenses, a) == SumBy(lines, ExpenseTo(a))
  {
    if lines != [] {
      var n := |lines| - 1;
      EvaluateLast(t, supplier, lines);
      EvaluatedNames(t, supplier, lines[..n], a);
      NamesAdd(t.orderLines, Evaluate(t, supplier, lines[..n]).value, Evaluate(t, supplier, lines).value, lines[n], a);
    }
  }

  lemma {:induction false} GrossSum(lines: seq<InvoiceInput>)
    ensures SumBy(lines, BilledGross) == SumBy(lines, BilledNet) + SumBy(lines, BilledTax)
  {
    if lines != [] {
      GrossSum(lines[..|lines| - 1]);
    }
  }

  /** The invoice's gross is the sum of its lines' net and tax, at the prices billed. */
  lemma {:induction false} InvoiceIsBilled(t: Tables, u: Tables, supplier: nat, date: Day, due: Option<Day>, lines: seq<InvoiceInput>)
    requires InvoicedFrom(t, u, supplier, date, due, lines)
    ensures |u.docs| == |t.docs| + 1 && u.docs[..|t.docs|] == t.docs
    ensures var d := u.docs[|t.docs|];
      && d.side == Supplier && d.kind == Kind.Invoice && d.party == supplier && d.original == None && d.date == date && d.due == due
      && d.gross == SumBy(lines, BilledGross)
  {
    EvaluatedTotals(t, supplier, lines);
    GrossSum(lines);
  }

  lemma {:induction false} SupplierEntryNet(e: Evaluation, n: nat, a: Account)
    requires Tame(e, n)
    ensures var s := TotalsOfInvoice(e);
      Net(SupplierInvoiceEntry(e), a)
        == On(a, Mapped(Grni), s.grniDebit) + On(a, Mapped(PriceVariance), s.priceVariance) + On(a, Mapped(VatInput), s.tax)
           + NamedOn(e.expenses, a) - On(a, Mapped(Payable), s.net + s.tax)
  {
    var s, d := TotalsOfInvoice(e), GoodsDebits(e);
    GoodsDebitsSums(e, n);
    OneLine(Cr(Mapped(Payable), GrossOf(e)));
    NetConcat(d, DrIf(Mapped(VatInput), s.tax), a);
    NetConcat(d + DrIf(Mapped(VatInput), s.tax), [Cr(Mapped(Payable), GrossOf(e))], a);
  }

  /** GRNI is cleared by the goods at the order's prices, what is billed beyond them goes to the variance account, VAT is
      debited by the lines' tax and every account by the expense lines that name it; the gross is owed. */
  function InvoiceOn(a: Account, orderLines: seq<OrderLine>, lines: seq<InvoiceInput>): int
  {
    On(a, Mapped(Grni), SumBy(lines, OrderedWorth(orderLines))) + On(a, Mapped(PriceVariance), SumBy(lines, Excess(orderLines)))
      + On(a, Mapped(VatInput), SumBy(lines, BilledTax)) + SumBy(lines, ExpenseTo(a)) - On(a, Mapped(Payable), SumBy(lines, BilledGross))
  }

  /** What a supplier invoice books on any account, the ones its lines name included. */
  lemma {:induction false} InvoiceBooks(t: Tables, u: Tables, supplier: nat, date: Day, due: Option<Day>, lines: seq<InvoiceInput>, a: Account)
    requires InvoicedFrom(t, u, supplier, date, due, lines)
    ensures OneMore(t.ledger, u.ledger, date)
    ensures Net(u.ledger[|t.ledger|].lines, a) == InvoiceOn(a, t.orderLines, lines)
  {
    var e := Evaluate(t, supplier, lines).value;
    PrefixCheckIsAggregate(t, supplier, lines);
    EvaluatedTotals(t, supplier, lines);
    EvaluatedNames(t, supplier, lines, a);
    GrossSum(lines);
    SupplierEntryNet(e, |t.orderLines|, a);
  }

  predicate Claims(l: InvoiceInput, i: nat) { l.PoLine? && l.line == i }

  predicate ClaimedIn(lines: seq<InvoiceInput>, i: nat)
  {
    exists j :: 0 <= j < |lines| && Claims(lines[j], i)
  }

  predicate Keeps(claimed: Tally<nat>, i: nat) { IndexOf(claimed, i) < |claimed| }

  lemma {:induction false} AddKeeps(t: Tally<nat>, k: nat, v: int, i: nat)
    requires Distinct(t)
    ensures Keeps(Add(t, k, v), i) <==> i == k || Keeps(t, i)
  {
    var u := Add(t, k, v);
    AddEffect(t, k, v);
    if Keeps(t, i) {
      assert u[IndexOf(t, i)].0 == i;
    }
    if i == k && !Keeps(t, k) {
      assert u[|t|].0 == k;
    }
    if Keeps(u, i) && i != k {
      assert t[IndexOf(u, i)].0 == i;
    }
  }

  lemma {:induction false} ClaimedLast(lines: seq<InvoiceInput>, i: nat)
    requires lines != []
    ensures ClaimedIn(lines, i) <==> ClaimedIn(lines[..|lines| - 1], i) || Claims(lines[|lines| - 1], i)
  {
    var before := lines[..|lines| - 1];
    if ClaimedIn(lines, i) && !Claims(lines[|lines| - 1], i) {
      var j :| 0 <= j < |lines| && Claims(lines[j], i);
      assert Claims(before[j], i);
    }
    if ClaimedIn(before, i) {
      var j :| 0 <= j < |before| && Claims(before[j], i);
      assert Claims(lines[j], i);
    }
  }

  /** The running map `claimed` holds, for each order line an invoice names, what its lines claim between them. */
  lemma {:induction false} EvaluatedClaims(t: Tables, supplier: nat, lines: seq<InvoiceInput>, i: nat)
    requires Evaluate(t, supplier, lines).Success?
    ensures var claimed := Evaluate(t, supplier, lines).value.claimed;
      && Distinct(claimed) && Get(claimed, i) == SumBy(lines, ClaimedOn(i))
      && (Keeps(claimed, i) <==> ClaimedIn(lines, i))
  {
    if lines != [] {
      var n := |lines| - 1;
      EvaluateLast(t, supplier, lines);
      EvaluatedClaims(t, supplier, lines[..n], i);
      ClaimedLast(lines, i);
      var p := Evaluate(t, supplier, lines[..n]).value.claimed;
      match lines[n]
      case PoLine(line, quantity, _, _) =>
        AddEffect(p, line, quantity);
        AddKeeps(p, line, quantity, i);
      case ExpenseLine(_) =>
    }
  }

  /** No order line is claimed beyond what is received and not yet invoiced. */
  predicate WithinReceived(t: Tables, lines: seq<InvoiceInput>)
  {
    forall i :: 0 <= i < |t.orderLines| && ClaimedIn(lines, i) ==> SumBy(lines, ClaimedOn(i)) <= t.orderLines[i].received - t.orderLines[i].invoiced
  }

  lemma {:induction false} FitsIsWithin(t: Tables, supplier: nat, lines: seq<InvoiceInput>)
    requires Evaluate(t, supplier, lines).Success?
    ensures Fits(Evaluate(t, supplier, lines).value.claimed, t.orderLines, LeftToInvoice) <==> WithinReceived(t, lines)
  {
    var claimed := Evaluate(t, supplier, lines).value.claimed;
    PrefixCheckIsAggregate(t, supplier, lines);
    if Fits(claimed, t.orderLines, LeftToInvoice) {
      forall i | 0 <= i < |t.orderLines| && ClaimedIn(lines, i)
        ensures SumBy(lines, ClaimedOn(i)) <= t.orderLines[i].received - t.orderLines[i].invoiced
      {
        EvaluatedClaims(t, supplier, lines, i);
        assert claimed[IndexOf(claimed, i)].0 == i;
      }
    }
    if WithinReceived(t, lines) {
      forall j | 0 <= j < |claimed| ensures claimed[j].1 <= LeftToInvoice(LineAt(t.orderLines, claimed[j].0)) {
        EvaluatedClaims(t, supplier, lines, claimed[j].0);
        IndexOfFound(claimed, j);
      }
    }
  }

  /** The goods are billed at what the order priced them. */
  predicate AsPriced(t: Tables, l: InvoiceInput)
  {
    l.PoLine? ==> ValueOf(l.quantity, l.unitPrice) == ValueOf(l.quantity, PriceOn(t.orderLines, l.line))
  }

  predicate AllAsPriced(t: Tables, lines: seq<InvoiceInput>)
  {
    forall i :: 0 <= i < |lines| ==> AsPriced(t, lines[i])
  }

  lemma {:induction false} VarianceAdds(t: Tables, p: Evaluation, e: Evaluation, l: InvoiceInput)
    requires Adds(t.orderLines, p, e, l)
    ensures HasVariance(e) <==> HasVariance(p) || !AsPriced(t, l)
  {
    if l.PoLine? {
      var m := e.matched[|p.matched|];
      assert e.matched == p.matched + [m];
      if HasVariance(p) {
        var i :| 0 <= i < |p.matched| && p.matched[i].math.priceVariance != 0;
        assert e.matched[i].math.priceVariance != 0;
      }
    }
  }

  lemma {:induction false} EvaluatedVariance(t: Tables, supplier: nat, lines: seq<InvoiceInput>)
    ensures Evaluate(t, supplier, lines).Success? <==> AllOrdered(t, supplier, lines)
    ensures Evaluate(t, supplier, lines).Success? ==> (HasVariance(Evaluate(t, supplier, lines).value) <==> !AllAsPriced(t, lines))
  {
    if lines != [] {
      var n := |lines| - 1;
      var before := lines[..n];
      EvaluateLast(t, supplier, lines);
      EvaluatedVariance(t, supplier, before);
      assert lines == before + [lines[n]];
      assert AllOrdered(t, supplier, lines) <==> AllOrdered(t, supplier, before) && Ordered(t, supplier, lines[n]);
      if Evaluate(t, supplier, lines).Success? {
        VarianceAdds(t, Evaluate(t, supplier, before).value, Evaluate(t, supplier, lines).value, lines[n]);
        assert AllAsPriced(t, lines) <==> AllAsPriced(t, before) && AsPriced(t, lines[n]);
      }
    }
  }

  /** The three-way match: an invoice is accepted exactly when its goods are on the supplier's orders, no order line is
      claimed beyond what is received and not invoiced, every price agrees or the differences were accepted, and there
      is something to pay. */
  lemma {:induction false} InvoiceAccepted(t: Tables, supplier: nat, date: Day, due: Option<Day>, acceptVariance: bool, lines: seq<InvoiceInput>)
    ensures CreateInvoice(t, supplier, date, due, acceptVariance, lines).Success? <==>
      && AllOrdered(t, supplier, lines) && WithinReceived(t, lines)
      && (acceptVariance || AllAsPriced(t, lines)) && 0 < SumBy(lines, BilledGross)
  {
    EvaluatedVariance(t, supplier, lines);
    GrossSum(lines);
    if Evaluate(t, supplier, lines).Success? {
      var e := Evaluate(t, supplier, lines).value;
      PrefixCheckIsAggregate(t, supplier, lines);
      FitsIsWithin(t, supplier, lines);
      EvaluatedTotals(t, supplier, lines);
      SupplierInvoiceEntryAccepted(e, |t.orderLines|);
    }
  }

  /** It is refused for its prices exactly when it otherwise matches, some goods are billed at other than the order's
      price, and the difference was not accepted. */
  lemma {:induction false} VarianceRefused(t: Tables, supplier: nat, date: Day, due: Option<Day>, acceptVariance: bool, lines: seq<InvoiceInput>)
    ensures CreateInvoice(t, supplier, date, due, acceptVariance, lines) == Failure(VarianceNotAccepted) <==>
      AllOrdered(t, supplier, lines) && WithinReceived(t, lines) && !acceptVariance && !AllAsPriced(t, lines)
  {
    EvaluatedVariance(t, supplier, lines);
    EvaluationRefusals(t, supplier, lines);
    if Evaluate(t, supplier, lines).Success? {
      PrefixCheckIsAggregate(t, supplier, lines);
      FitsIsWithin(t, supplier, lines);
    }
  }

  lemma {:induction false} EvaluationRefusals(t: Tables, supplier: nat, lines: seq<InvoiceInput>)
    ensures Evaluate(t, supplier, lines).Failure? ==> Evaluate(t, supplier, lines).error in {LineNotOnOrder, SupplierMismatch}
  {
    if lines != [] {
      EvaluationRefusals(t, supplier, lines[..|lines| - 1]);
    }
  }

  /** The row kept of each line about goods: at the price billed and at the order's. */
  function Billed(orderLines: seq<OrderLine>, lines: seq<InvoiceInput>): seq<MatchedLine>
  {
    if lines == [] then []
    else
      Billed(orderLines, lines[..|lines| - 1])
        + match lines[|lines| - 1]
          case ExpenseLine(_) => []
          case PoLine(line, quantity, unitPrice, _) =>
            [MatchedLine(line, PriceOn(orderLines, line), quantity, ValueOf(quantity, unitPrice), ValueOf(quantity, PriceOn(orderLines, line)))]
  }

  lemma {:induction false} RecordsAdd(orderLines: seq<OrderLine>, p: Evaluation, e: Evaluation, l: InvoiceInput)
    requires Adds(orderLines, p, e, l)
    ensures MatchRecords(e.matched) == MatchRecords(p.matched) + Billed(orderLines, [l])
  {
    assert [l][..0] == [];
    if l.PoLine? {
      var m := e.matched[|p.matched|];
      assert e.matched == p.matched + [m];
      assert MatchRecords(e.matched) == MatchRecords(p.matched) + [MatchRecord(m)];
    }
  }

  lemma {:induction false} EvaluatedRecords(t: Tables, supplier: nat, lines: seq<InvoiceInput>)
    requires Evaluate(t, supplier, lines).Success?
    ensures MatchRecords(Evaluate(t, supplier, lines).value.matched) == Billed(t.orderLines, lines)
  {
    if lines != [] {
      var n := |lines| - 1;
      EvaluateLast(t, supplier, lines);
      EvaluatedRecords(t, supplier, lines[..n]);
      RecordsAdd(t.orderLines, Evaluate(t, supplier, lines[..n]).value, Evaluate(t, supplier, lines).value, lines[n]);
      assert [lines[n]][..0] == [];
    }
  }

  /** An accepted invoice counts what it claims as invoiced, line by line, and keeps a row of each line about goods. */
  lemma {:induction false} InvoiceCounts(t: Tables, u: Tables, supplier: nat, date: Day, due: Option<Day>, lines: seq<InvoiceInput>, i: nat)
    requires InvoicedFrom(t, u, supplier, date, due, lines) && i < |t.orderLines|
    ensures |u.orderLines| == |t.orderLines|
    ensures u.orderLines[i] == t.orderLines[i].(invoiced := t.orderLines[i].invoiced + SumBy(lines, ClaimedOn(i)))
    ensures u.matched == t.matched + Billed(t.orderLines, lines)
  {
    EvaluatedClaims(t, supplier, lines, i);
    EvaluatedRecords(t, supplier, lines);
    MovedLine(t.orderLines, Evaluate(t, supplier, lines).value.claimed, Move.Invoicing, i);
  }

  // ---- notes ----

  function NotedNet(l: PricedLine): int { ValueOf(l.quantity, l.unitPrice) }
  function NotedTax(l: PricedLine): int { TaxOn(ValueOf(l.quantity, l.unitPrice), l.rate) }
  function NotedGross(l: PricedLine): int { NotedNet(l) + NotedTax(l) }
  function NotedTo(a: Account): PricedLine -> int { (l: PricedLine) => if l.account == a then ValueOf(l.quantity, l.unitPrice) else 0 }

  lemma {:induction false} NotedSums(lines: seq<PricedLine>)
    ensures TotalsOf(lines) == Totals(SumBy(lines, NotedNet), SumBy(lines, NotedTax))
    ensures SumBy(lines, NotedGross) == SumBy(lines, NotedNet) + SumBy(lines, NotedTax)
  {
    if lines != [] {
      NotedSums(lines[..|lines| - 1]);
    }
  }

  lemma {:induction false} NotedNames(lines: seq<PricedLine>, a: Account)
    ensures NamedOn(lines, a) == SumBy(lines, NotedTo(a))
  {
    if lines != [] {
      NotedNames(lines[..|lines| - 1], a);
    }
  }

  /** What a debit note books: the control account is charged with the gross, against VAT and the accounts its lines name. */
  function NoteCharges(side: Side, lines: seq<PricedLine>, a: Account): int
  {
    On(a, if side == Sales then Mapped(Receivable) else Mapped(Payable), SumBy(lines, NotedGross))
      - On(a, if side == Sales then Mapped(VatOutput) else Mapped(VatInput), SumBy(lines, NotedTax)) - SumBy(lines, NotedTo(a))
  }

  lemma {:induction false} ChargedNet(side: Side, debited: bool, lines: seq<PricedLine>, a: Account)
    ensures Net(DocumentEntry(Control(side), Vat(side), debited, ByAccount(lines), TotalsOf(lines)), a) == Signed(debited, NoteCharges(side, lines, a))
  {
    NotedSums(lines);
    NotedNames(lines, a);
    ByAccountGroups(lines);
    DocumentEntryNet(Control(side), Vat(side), debited, ByAccount(lines), TotalsOf(lines), a);
  }

  lemma {:induction false} NoteShape(side: Side, kind: Kind, lines: seq<PricedLine>)
    ensures ValidShape(NoteEntry(side, kind, lines)) <==> 0 < SumBy(lines, NotedGross)
  {
    NotedSums(lines);
    ByAccountGroups(lines);
    DocumentEntryAccepted(Control(side), Vat(side), kind == DebitNote, ByAccount(lines), TotalsOf(lines));
  }

  /** A note is accepted exactly when it is of an invoice of its side, is worth something, and the notes of its kind raised
      on that invoice, with this one, come to no more than the invoice. */
  lemma {:induction false} NoteAccepted(t: Tables, side: Side, kind: Kind, original: nat, date: Day, lines: seq<PricedLine>)
    requires kind == DebitNote || (side == Sales && kind == CreditNote)
    ensures CreateNote(t, side, kind, original, date, lines).Success? <==>
      && original < |t.docs| && t.docs[original].side == side && t.docs[original].kind == Kind.Invoice
      && 0 < SumBy(lines, NotedGross)
      && Noted(t.docs, original, kind, FAR_FUTURE) + SumBy(lines, NotedGross) <= t.docs[original].gross
  {
    NotedSums(lines);
    NoteShape(side, kind, lines);
  }

  lemma {:induction false} NoteDoes(t: Tables, side: Side, kind: Kind, original: nat, date: Day, lines: seq<PricedLine>)
    requires KindOf(side, kind) && CreateNote(t, side, kind, original, date, lines).Success?
    ensures original < |t.docs|
    ensures var u := CreateNote(t, side, kind, original, date, lines).value;
      && u.docs == t.docs + [NoteDoc(t, side, kind, original, date, Gross(TotalsOf(lines)))]
      && u.ledger == t.ledger + [Entry(date, NoteEntry(side, kind, lines))]
      && u == t.(docs := u.docs, ledger := u.ledger)
  {
    NoteAccepted(t, side, kind, original, date, lines);
    NotedSums(lines);
  }

  /** The note is the invoice's party's, for the sum of its lines' net and tax. */
  lemma {:induction false} NoteRaises(t: Tables, side: Side, kind: Kind, original: nat, date: Day, lines: seq<PricedLine>)
    requires KindOf(side, kind) && CreateNote(t, side, kind, original, date, lines).Success?
    ensures var u := CreateNote(t, side, kind, original, date, lines).value;
      && original < |t.docs|
      && u.docs == t.docs + [Doc(side, kind, t.docs[original].party, Some(original), date, None, SumBy(lines, NotedGross))]
      && u == t.(docs := u.docs, ledger := u.ledger)
  {
    NoteDoes(t, side, kind, original, date, lines);
    NotedSums(lines);
  }

  /** A debit note charges its accounts and a credit note gives the same back. */
  function NoteBookedOn(a: Account, side: Side, kind: Kind, lines: seq<PricedLine>): int
  {
    if kind == DebitNote then NoteCharges(side, lines, a) else 0 - NoteCharges(side, lines, a)
  }

  /** What a note books on any account, the ones its lines name included. */
  lemma {:induction false} NoteBooks(t: Tables, side: Side, kind: Kind, original: nat, date: Day, lines: seq<PricedLine>, a: Account)
    requires KindOf(side, kind) && CreateNote(t, side, kind, original, date, lines).Success?
    ensures var u := CreateNote(t, side, kind, original, date, lines).value;
      && OneMore(t.ledger, u.ledger, date)
      && Net(u.ledger[|t.ledger|].lines, a) == NoteBookedOn(a, side, kind, lines)
  {
    NoteDoes(t, side, kind, original, date, lines);
    ChargedNet(side, kind == DebitNote, lines, a);
  }

  // ---- payments ----

  /** A payment is accepted exactly when it is of something, its allocations name invoices of the party once each, within
      what they owe, and come to no more than the payment. */
  lemma {:induction false} PaymentAccepted(t: Tables, side: Side, party: nat, date: Day, amount: nat, cash: Account, allocations: seq<Allocation>)
    ensures CreatePayment(t, side, party, date, amount, cash, allocations).Success? <==>
      && 0 < amount && SumBy(allocations, AmountOf) <= amount
      && (forall i, j :: 0 <= i < j < |allocations| ==> allocations[i].invoice != allocations[j].invoice)
      && forall i :: 0 <= i < |allocations| ==>
           && allocations[i].invoice < |t.docs|
           && var d := t.docs[allocations[i].invoice];
              && d.side == side && d.party == party && d.kind == Kind.Invoice
              && allocations[i].amount <= Outstanding(t, allocations[i].invoice, FAR_FUTURE)
  {
    AllocationsChecked(t, side, party, allocations);
    PairShape(cash, Mapped(Receivable), amount);
    PairShape(Mapped(Payable), cash, amount);
  }

  /** A customer's payment moves the amount from the receivable to cash, a payment to a supplier from cash to the payable. */
  function PaymentOn(a: Account, side: Side, cash: Account, amount: int): int
  {
    if side == Sales then On(a, cash, amount) - On(a, Mapped(Receivable), amount) else On(a, Mapped(Payable), amount) - On(a, cash, amount)
  }

  lemma {:induction false} PaymentBooks(t: Tables, side: Side, party: nat, date: Day, amount: nat, cash: Account, allocations: seq<Allocation>, a: Account)
    requires CreatePayment(t, side, party, date, amount, cash, allocations).Success?
    ensures var u := CreatePayment(t, side, party, date, amount, cash, allocations).value;
      && u == t.(payments := t.payments + [Payment(side, party, date, amount, allocations)], ledger := u.ledger)
      && OneMore(t.ledger, u.ledger, date)
      && Net(u.ledger[|t.ledger|].lines, a) == PaymentOn(a, side, cash, amount)
  {
    PairShape(cash, Mapped(Receivable), amount);
    PairShape(Mapped(Payable), cash, amount);
  }
}
