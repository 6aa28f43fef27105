/** Sales invoices, credit and debit notes, payments and what is still owed on an invoice. */
module Settlement {
  import opened Wrappers
  import opened Sums
  import opened Journal
  import opened WeightedAverage
  import opened Books
  import opened Invoicing
  import opened Inventory

  // ---- still owed ----

  function AllocatedIn(allocations: seq<Allocation>, invoice: nat): int
  {
    if allocations == [] then 0
    else
      var a := allocations[|allocations| - 1];
      AllocatedIn(allocations[..|allocations| - 1], invoice) + if a.invoice == invoice then a.amount else 0
  }

  /** What payments dated by the cut-off have allocated to an invoice. */
  function AllocatedTo(payments: seq<Payment>, invoice: nat, asOf: Day): int
  {
    if payments == [] then 0
    else
      var p := payments[|payments| - 1];
      AllocatedTo(payments[..|payments| - 1], invoice, asOf) + if p.date <= asOf then AllocatedIn(p.allocations, invoice) else 0
  }

  /** What notes of one kind dated by the cut-off have been raised against an invoice. */
  function Noted(docs: seq<Doc>, invoice: nat, kind: Kind, asOf: Day): int
  {
    if docs == [] then 0
    else
      var d := docs[|docs| - 1];
      Noted(docs[..|docs| - 1], invoice, kind, asOf)
        + if d.original == Some(invoice) && d.kind == kind && d.date <= asOf then d.gross else 0
  }

  /** loadOutstanding: a sales credit note settles and a sales debit note adds; a supplier debit note settles. */
  function Outstanding(t: Tables, invoice: nat, asOf: Day): int
    requires invoice < |t.docs|
  {
    var d := t.docs[invoice];
    d.gross - AllocatedTo(t.payments, invoice, asOf)
      + match d.side
        case Sales => Noted(t.docs, invoice, DebitNote, asOf) - Noted(t.docs, invoice, CreditNote, asOf)
        case Supplier => -Noted(t.docs, invoice, DebitNote, asOf)
  }

  function Control(side: Side): Account
  {
    if side == Sales then Mapped(Receivable) else Mapped(Payable)
  }

  function Vat(side: Side): Account
  {
    if side == Sales then Mapped(VatOutput) else Mapped(VatInput)
  }

  // ---- sales invoices ----

  datatype SalesInput = SalesInput(item: Option<nat>, warehouse: Option<nat>, revenue: Option<Account>, quantity: nat, unitPrice: nat, rate: nat)

  function Priced(l: SalesInput): PricedLine
  {
    PricedLine(if l.revenue.Some? then l.revenue.value else Mapped(SalesRevenue), l.quantity, l.unitPrice, l.rate)
  }

  function PricedLines(lines: seq<SalesInput>): (r: seq<PricedLine>)
    ensures |r| == |lines|
  {
    seq(|lines|, i requires 0 <= i < |lines| => Priced(lines[i]))
  }

  /** A line with an item takes it out of the warehouse it names; a service line moves nothing. */
  function SellLine(average: Averaging): (Issuing, SalesInput) -> Result<Issuing, Refusal>
  {
    (r: Issuing, l: SalesInput) =>
      if l.item.None? then Success(r)
      else if l.warehouse.None? then Failure(WarehouseRequired)
      else IssueOne(average, r, IssueInput(Slot(l.item.value, l.warehouse.value), l.quantity))
  }

  function SellLines(average: Averaging, stock: Stock, lines: seq<SalesInput>): Result<Issuing, Refusal>
  {
    Fold(Issuing(stock, []), lines, SellLine(average))
  }

  function CostEntry(cost: int): seq<Line>
  {
    DrIf(Mapped(CostOfGoodsSold), cost) + CrIf(Mapped(Role.Inventory), cost)
  }

  function SalesEntry(lines: seq<PricedLine>, cost: int): seq<Line>
  {
    RevenueEntry(lines) + CostEntry(cost)
  }

  function CreateSale(average: Averaging, t: Tables, customer: nat, date: Day, due: Option<Day>, lines: seq<SalesInput>): Result<Tables, Refusal>
  {
    if lines == [] then Failure(Empty)
    else
      var sold :- SellLines(average, t.stock, lines);
      var priced := PricedLines(lines);
      var gross := Gross(TotalsOf(priced));
      if gross == 0 then Failure(ZeroDocument)
      else
        var doc := Doc(Sales, Kind.Invoice, customer, None, date, Some(if due.Some? then due.value else date), gross);
        Post(t.(stock := sold.stock, docs := t.docs + [doc]), date, SalesEntry(priced, Cost(sold)))
  }

  lemma {:induction false} SellLinesMove(average: Averaging, stock: Stock, lines: seq<SalesInput>)
    requires SellLines(average, stock, lines).Success?
    ensures var r := SellLines(average, stock, lines).value;
      StockValue(r.stock) == StockValue(stock) - Cost(r) && 0 <= Cost(r)
  {
    if lines != [] {
      var before, l := lines[..|lines| - 1], lines[|lines| - 1];
      SellLinesMove(average, stock, before);
      if l.item.Some? {
        var p, slot := SellLines(average, stock, before).value, Slot(l.item.value, l.warehouse.value);
        IssueConserves(average, RowOf(p.stock, slot), l.quantity);
        var issue := ApplyIssue(average, RowOf(p.stock, slot), l.quantity).value;
        SaveRow(p.stock, slot, issue.state);
        SumBySnoc(p.values, issue.value, Same);
      }
    }
  }

  function RevenueEntry(lines: seq<PricedLine>): seq<Line>
  {
    DocumentEntry(Mapped(Receivable), Mapped(VatOutput), true, ByAccount(lines), TotalsOf(lines))
  }

  lemma {:induction false} RevenueEntrySums(lines: seq<PricedLine>)
    ensures 0 <= Gross(TotalsOf(lines))
    ensures ValidShape(RevenueEntry(lines)) <==> 0 < Gross(TotalsOf(lines))
    ensures forall a :: a != Mapped(VatOutput) ==>
      Net(RevenueEntry(lines), a) == (if a == Mapped(Receivable) then Gross(TotalsOf(lines)) else 0) - NamedOn(lines, a)
  {
    ByAccountGroups(lines);
    DocumentEntryAccepted(Mapped(Receivable), Mapped(VatOutput), true, ByAccount(lines), TotalsOf(lines));
    forall a {
      DocumentEntryNet(Mapped(Receivable), Mapped(VatOutput), true, ByAccount(lines), TotalsOf(lines), a);
    }
  }

  /** A balanced pair put after an acceptable entry leaves it acceptable. */
  lemma {:induction false} CostEntryKeepsShape(e: seq<Line>, cost: nat)
    ensures ValidShape(e) ==> ValidShape(e + CostEntry(cost))
    ensures forall a :: a != Mapped(CostOfGoodsSold) ==>
      Net(e + CostEntry(cost), a) == Net(e, a) - if a == Mapped(Role.Inventory) then cost else 0
  {
    var d, c := DrIf(Mapped(CostOfGoodsSold), cost), CrIf(Mapped(Role.Inventory), cost);
    PieceSums(Mapped(CostOfGoodsSold), cost);
    PieceSums(Mapped(Role.Inventory), cost);
    Join(e, d, c);
    assert e + CostEntry(cost) == e + d + c;
  }

  /** A sale with something to pay is accepted, at whatever cost; it debits the receivable by the gross,
      credits Inventory by the cost, and every account by what the lines naming it are worth. */
  lemma {:induction false} SalesEntryAccepted(lines: seq<PricedLine>, cost: nat)
    ensures 0 <= Gross(TotalsOf(lines))
    ensures 0 < Gross(TotalsOf(lines)) ==> ValidShape(SalesEntry(lines, cost))
    ensures forall a :: a != Mapped(VatOutput) && a != Mapped(CostOfGoodsSold) ==>
      Net(SalesEntry(lines, cost), a) ==
        (if a == Mapped(Receivable) then Gross(TotalsOf(lines)) else 0) - NamedOn(lines, a) - if a == Mapped(Role.Inventory) then cost else 0
  {
    RevenueEntrySums(lines);
    CostEntryKeepsShape(RevenueEntry(lines), cost);
  }

  // ---- notes ----

  /** Credit notes exist on the sales side only. */
  predicate KindOf(side: Side, kind: Kind)
  {
    kind == DebitNote || (side == Sales && kind == CreditNote)
  }

  /** Notes already raised, plus this one, never exceed the invoice: the bound is its gross, not what is still owed. */
  function CreateNote(t: Tables, side: Side, kind: Kind, original: nat, date: Day, lines: seq<PricedLine>): Result<Tables, Refusal>
    requires KindOf(side, kind)
  {
    if |t.docs| <= original || t.docs[original].side != side then Failure(InvoiceNotFound)
    else if t.docs[original].kind != Kind.Invoice then Failure(NotAnInvoice)
    else if lines == [] then Failure(Empty)
    else
      var gross := Gross(TotalsOf(lines));
      if gross == 0 then Failure(ZeroDocument)
      else if t.docs[original].gross < Noted(t.docs, original, kind, FAR_FUTURE) + gross then Failure(NoteExceedsInvoice)
      else
        Post(t.(docs := t.docs + [NoteDoc(t, side, kind, original, date, gross)]), date, NoteEntry(side, kind, lines))
  }

  function NoteDoc(t: Tables, side: Side, kind: Kind, original: nat, date: Day, gross: int): Doc
    requires original < |t.docs|
  {
    Doc(side, kind, t.docs[original].party, Some(original), date, None, gross)
  }

  /** A debit note books like a sales invoice of its side, a credit note the other way round. */
  function NoteEntry(side: Side, kind: Kind, lines: seq<PricedLine>): seq<Line>
  {
    DocumentEntry(Control(side), Vat(side), kind == DebitNote, ByAccount(lines), TotalsOf(lines))
  }

  // ---- payments ----

  predicate NoDuplicates(allocations: seq<Allocation>)
  {
    forall i, j :: 0 <= i < j < |allocations| ==> allocations[i].invoice != allocations[j].invoice
  }

  function AmountOf(a: Allocation): int { a.amount }

  /** The invoice is this party's, on this side. */
  predicate Owes(t: Tables, side: Side, party: nat, invoice: nat)
  {
    invoice < |t.docs| && t.docs[invoice].side == side && t.docs[invoice].kind == Kind.Invoice && t.docs[invoice].party == party
  }

  function CheckAllocation(t: Tables, side: Side, party: nat): (int, Allocation) -> Result<int, Refusal>
  {
    (settled: int, a: Allocation) =>
      if !Owes(t, side, party, a.invoice) then Failure(InvoiceNotFound)
      else if a.amount > Outstanding(t, a.invoice, FAR_FUTURE) then Failure(OverAllocated)
      else Success(settled + a.amount)
  }

  function PaymentEntry(side: Side, cash: Account, amount: int): seq<Line>
  {
    if side == Sales then [Dr(cash, amount), Cr(Mapped(Receivable), amount)] else [Dr(Mapped(Payable), amount), Cr(cash, amount)]
  }

  function CreatePayment(t: Tables, side: Side, party: nat, date: Day, amount: nat, cash: Account, allocations: seq<Allocation>): Result<Tables, Refusal>
  {
    if !NoDuplicates(allocations) then Failure(DuplicateAllocation)
    else
      var settled :- Fold(0, allocations, CheckAllocation(t, side, party));
      if settled > amount then Failure(AllocationExceedsPayment)
      else Post(t.(payments := t.payments + [Payment(side, party, date, amount, allocations)]), date, PaymentEntry(side, cash, amount))
  }

  /** The allocations passed their loop exactly when every one is the party's invoice and within what it owes;
      the loop's total is their sum. */
  lemma {:induction false} AllocationsChecked(t: Tables, side: Side, party: nat, allocations: seq<Allocation>)
    ensures Fold(0, allocations, CheckAllocation(t, side, party)).Success? <==>
      forall i :: 0 <= i < |allocations| ==>
        Owes(t, side, party, allocations[i].invoice) && allocations[i].amount <= Outstanding(t, allocations[i].invoice, FAR_FUTURE)
    ensures Fold(0, allocations, CheckAllocation(t, side, party)).Success? ==>
      Fold(0, allocations, CheckAllocation(t, side, party)).value == SumBy(allocations, AmountOf)
  {
    if allocations != [] {
      AllocationsChecked(t, side, party, allocations[..|allocations| - 1]);
    }
  }

  lemma {:induction false} AllocatedInOne(allocations: seq<Allocation>, invoice: nat)
    requires NoDuplicates(allocations)
    ensures AllocatedIn(allocations, invoice) == 0 || exists i :: 0 <= i < |allocations| && allocations[i].invoice == invoice && allocations[i].amount == AllocatedIn(allocations, invoice)
    ensures (forall i :: 0 <= i < |allocations| ==> allocations[i].invoice != invoice) ==> AllocatedIn(allocations, invoice) == 0
    ensures 0 <= AllocatedIn(allocations, invoice)
  {
    if allocations != [] {
      AllocatedInOne(allocations[..|allocations| - 1], invoice);
    }
  }

  class PaymentService {
    const db: Database

    constructor (db: Database)
      ensures this.db == db
    {
      this.db := db;
    }

    method Create(side: Side, party: nat, date: Day, amount: nat, cash: Account, allocations: seq<Allocation>)
      returns (r: Result<int, Refusal>)
      modifies db
      ensures r.Success? ==>
        && CreatePayment(old(db.tables), side, party, date, amount, cash, allocations) == Success(db.tables)
        && r.value == amount - SumBy(allocations, AmountOf) && 0 <= r.value
      ensures r.Failure? ==>
        db.tables == old(db.tables) && CreatePayment(db.tables, side, party, date, amount, cash, allocations) == Failure(r.error)
    {
      var t := db.tables;
      if !NoDuplicates(allocations) {
        return Failure(DuplicateAllocation);
      }
      var checked := CheckAllocations(t, side, party, allocations);
      if checked.Failure? {
        return Failure(checked.error);
      }
      AllocationsChecked(t, side, party, allocations);
      var settled := checked.value;
      if settled > amount {
        return Failure(AllocationExceedsPayment);
      }
      var shape := ValidateShape(PaymentEntry(side, cash, amount));
      if shape.Fail? {
        return Failure(EntryRejected);
      }
      db.tables := t.(payments := t.payments + [Payment(side, party, date, amount, allocations)],
                      ledger := t.ledger + [Entry(date, PaymentEntry(side, cash, amount))]);
      return Success(amount - settled);
    }

    /** The loop over the allocations, each within what its invoice still owes. */
    method CheckAllocations(t: Tables, side: Side, party: nat, allocations: seq<Allocation>) returns (r: Result<int, Refusal>)
      ensures r == Fold(0, allocations, CheckAllocation(t, side, party))
    {
      var settled := 0;
      for i := 0 to |allocations|
        invariant Fold(0, allocations[..i], CheckAllocation(t, side, party)) == Success(settled)
      {
        FoldStep(0, allocations, i, CheckAllocation(t, side, party));
        var a := allocations[i];
        if !Owes(t, side, party, a.invoice) {
          FoldRefused(0, allocations, i + 1, CheckAllocation(t, side, party));
          return Failure(InvoiceNotFound);
        }
        if a.amount > Outstanding(t, a.invoice, FAR_FUTURE) {
          FoldRefused(0, allocations, i + 1, CheckAllocation(t, side, party));
          return Failure(OverAllocated);
        }
        settled := settled + a.amount;
      }
      assert allocations[..|allocations|] == allocations;
      return Success(settled);
    }
  }

  class SalesInvoiceService {
    const db: Database
    const average: Averaging

    constructor (db: Database, average: Averaging)
      ensures this.db == db && this.average == average
    {
      this.db, this.average := db, average;
    }

    method CreateInvoice(customer: nat, date: Day, due: Option<Day>, lines: seq<SalesInput>) returns (r: Outcome<Refusal>)
      modifies db
      ensures r.Pass? ==> CreateSale(average, old(db.tables), customer, date, due, lines) == Success(db.tables)
      ensures r.Fail? ==> db.tables == old(db.tables) && CreateSale(average, db.tables, customer, date, due, lines) == Failure(r.error)
    {
      var t := db.tables;
      if |lines| == 0 {
        return Fail(Empty);
      }
      var sold := TakeOut(t.stock, lines);
      if sold.Failure? {
        return Fail(sold.error);
      }
      var (stock, totalCost) := sold.value;
      var priced := PricedLines(lines);
      var totals := TotalsOf(priced);
      if Gross(totals) == 0 {
        return Fail(ZeroDocument);
      }
      var revenueByAccount := GroupByAccount(priced);
      var entry := DocumentEntry(Mapped(Receivable), Mapped(VatOutput), true, revenueByAccount, totals) + CostEntry(totalCost);
      var shape := ValidateShape(entry);
      if shape.Fail? {
        return Fail(EntryRejected);
      }
      var doc := Doc(Sales, Kind.Invoice, customer, None, date, Some(if due.Some? then due.value else date), Gross(totals));
      db.tables := t.(stock := stock, docs := t.docs + [doc], ledger := t.ledger + [Entry(date, entry)]);
      return Pass;
    }

    /** createCreditNote and createDebitNote; the customer is locked meanwhile (see SettlementLocks). */
    method CreateSalesNote(kind: Kind, original: nat, date: Day, lines: seq<PricedLine>) returns (r: Outcome<Refusal>)
      requires KindOf(Sales, kind)
      modifies db
      ensures r.Pass? ==> CreateNote(old(db.tables), Sales, kind, original, date, lines) == Success(db.tables)
      ensures r.Fail? ==> db.tables == old(db.tables) && CreateNote(db.tables, Sales, kind, original, date, lines) == Failure(r.error)
    {
      var t := db.tables;
      if |t.docs| <= original || t.docs[original].side != Sales {
        return Fail(InvoiceNotFound);
      }
      if t.docs[original].kind != Kind.Invoice {
        return Fail(NotAnInvoice);
      }
      if |lines| == 0 {
        return Fail(Empty);
      }
      var gross := Gross(TotalsOf(lines));
      if gross == 0 {
        return Fail(ZeroDocument);
      }
      var already := Noted(t.docs, original, kind, FAR_FUTURE);
      if already + gross > t.docs[original].gross {
        return Fail(NoteExceedsInvoice);
      }
      var byAccount := GroupByAccount(lines);
      var entry := DocumentEntry(Control(Sales), Vat(Sales), kind == DebitNote, byAccount, TotalsOf(lines));
      var shape := ValidateShape(entry);
      if shape.Fail? {
        return Fail(EntryRejected);
      }
      db.tables := t.(docs := t.docs + [NoteDoc(t, Sales, kind, original, date, gross)], ledger := t.ledger + [Entry(date, entry)]);
      return Pass;
    }

    /** Takes the goods out line by line, adding up their cost. */
    method TakeOut(before: Stock, lines: seq<SalesInput>) returns (r: Result<(Stock, int), Refusal>)
      ensures var s := SellLines(average, before, lines);
        r == if s.Failure? then Failure(s.error) else Success((s.value.stock, Cost(s.value)))
    {
      var stock, totalCost := before, 0;
      ghost var values: seq<nat> := [];
      for i := 0 to |lines|
        invariant SellLines(average, before, lines[..i]) == Success(Issuing(stock, values))
        invariant totalCost == SumBy(values, Same)
      {
        FoldStep(Issuing(before, []), lines, i, SellLine(average));
        var l := lines[i];
        if l.item.None? {
          continue;
        }
        if l.warehouse.None? {
          FoldRefused(Issuing(before, []), lines, i + 1, SellLine(average));
          return Failure(WarehouseRequired);
        }
        var slot := Slot(l.item.value, l.warehouse.value);
        var issued := ApplyIssue(average, RowOf(stock, slot), l.quantity);
        if issued.Failure? {
          FoldRefused(Issuing(before, []), lines, i + 1, SellLine(average));
          return Failure(if issued.error == InsufficientStock then InsufficientOnHand else BadLine(issued.error));
        }
        stock := stock[slot := issued.value.state];
        SumBySnoc(values, issued.value.value, Same);
        totalCost := totalCost + issued.value.value;
        values := values + [issued.value.value];
      }
      assert lines[..|lines|] == lines;
      return Success((stock, totalCost));
    }
  }
}
