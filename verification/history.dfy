/** Every document command, runs of them, and what every run keeps: sub-ledgers equal their control accounts. */
module History {
  import opened Wrappers
  import opened Sums
  import opened Journal
  import opened Rounding
  import opened WeightedAverage
  import opened Books
  import opened Invoicing
  import opened Inventory
  import opened Purchasing
  import opened SupplierInvoicing
  import opened Settlement
  import opened Statements

  datatype DirectLine = DirectLine(slot: Slot, quantity: nat, unitCost: nat)

  datatype Command =
    | DirectReceipt(date: Day, goods: seq<DirectLine>)
    | StockIssue(date: Day, issues: seq<IssueInput>)
    | CountRecorded(date: Day, counted: seq<CountInput>)
    | CountPosted(id: nat)
    | OrderPlaced(supplier: nat, ordered: seq<OrderInput>, needsApproval: bool)
    | OrderDecided(id: nat, approve: bool)
    | OrderCancelled(id: nat)
    | OrderReceipt(id: nat, date: Day, warehouse: nat, wants: seq<Want>)
    | GoodsReturn(id: nat, date: Day, warehouse: nat, wants: seq<Want>)
    | SupplierInvoice(supplier: nat, date: Day, due: Option<Day>, acceptVariance: bool, invoiced: seq<InvoiceInput>)
    | Sale(customer: nat, date: Day, due: Option<Day>, sold: seq<SalesInput>)
    | Note(side: Side, kind: Kind, original: nat, date: Day, priced: seq<PricedLine>)
    | Pay(side: Side, party: nat, date: Day, amount: nat, cash: Account, allocations: seq<Allocation>)

  function DirectInputs(goods: seq<DirectLine>): (r: seq<ReceiptInput>)
    ensures |r| == |goods|
  {
    seq(|goods|, i requires 0 <= i < |goods| => ReceiptInput(goods[i].slot, None, goods[i].quantity, goods[i].unitCost))
  }

  function Apply(average: Averaging, t: Tables, c: Command): Result<Tables, Refusal>
  {
    match c
    case DirectReceipt(date, goods) => CreateReceipt(t, date, DirectInputs(goods))
    case StockIssue(date, issues) => CreateIssue(average, t, date, issues)
    case CountRecorded(date, counted) => RecordCount(average, t, date, counted)
    case CountPosted(id) => PostCount(t, id)
    case OrderPlaced(supplier, ordered, needsApproval) => PlaceOrder(t, supplier, ordered, needsApproval)
    case OrderDecided(id, approve) => DecideOrder(t, id, approve)
    case OrderCancelled(id) => CancelOrder(t, id)
    case OrderReceipt(id, date, warehouse, wants) => ReceiveOrder(t, id, date, warehouse, wants)
    case GoodsReturn(id, date, warehouse, wants) => CreateReturn(average, t, id, date, warehouse, wants)
    case SupplierInvoice(supplier, date, due, accept, invoiced) => CreateInvoice(t, supplier, date, due, accept, invoiced)
    case Sale(customer, date, due, sold) => CreateSale(average, t, customer, date, due, sold)
    case Note(side, kind, original, date, priced) =>
      if KindOf(side, kind) then CreateNote(t, side, kind, original, date, priced) else Failure(NotAnInvoice)
    case Pay(side, party, date, amount, cash, allocations) => CreatePayment(t, side, party, date, amount, cash, allocations)
  }

  /** A refused command leaves everything as it was. */
  function After(average: Averaging, t: Tables, c: Command): Tables
  {
    var r := Apply(average, t, c);
    if r.Success? then r.value else t
  }

  function Run(average: Averaging, commands: seq<Command>): Tables
  {
    if commands == [] then EMPTY
    else After(average, Run(average, commands[..|commands| - 1]), commands[|commands| - 1])
  }

  /** The accounts a document names itself: expense, revenue, bank or cash. */
  function NamedBy(c: Command): set<Account>
  {
    match c
    case SupplierInvoice(_, _, _, _, invoiced) => set l | l in invoiced && l.ExpenseLine? :: l.priced.account
    case Sale(_, _, _, sold) => set l | l in sold && l.revenue.Some? :: l.revenue.value
    case Note(_, _, _, _, priced) => set l | l in priced :: l.account
    case Pay(_, _, _, _, cash, _) => {cash}
    case _ => {}
  }

  predicate Unnamed(commands: seq<Command>, a: Account)
  {
    forall i :: 0 <= i < |commands| ==> a !in NamedBy(commands[i])
  }

  function ExpenseOn(invoiced: seq<InvoiceInput>, a: Account): int
  {
    if invoiced == [] then 0
    else
      var l := invoiced[|invoiced| - 1];
      ExpenseOn(invoiced[..|invoiced| - 1], a) + if l.ExpenseLine? && l.priced.account == a then NetOf(l.priced) else 0
  }

  function RevenueOn(sold: seq<SalesInput>, a: Account): int
  {
    if sold == [] then 0
    else
      var l := sold[|sold| - 1];
      RevenueOn(sold[..|sold| - 1], a) + if l.revenue == Some(a) then NetOf(Priced(l)) else 0
  }

  /** What the lines in which a document names an account itself put on it, as a net debit. */
  function NamedNet(c: Command, a: Account): int
  {
    match c
    case SupplierInvoice(_, _, _, _, invoiced) => ExpenseOn(invoiced, a)
    case Sale(_, _, _, sold) => -RevenueOn(sold, a)
    case Note(_, kind, _, _, priced) => Signed(kind == DebitNote, -NamedOn(priced, a))
    case Pay(side, _, _, amount, cash, _) => if a == cash then Signed(side == Sales, amount) else 0
    case _ => 0
  }

  function DateOf(c: Command): Day
  {
    match c
    case SupplierInvoice(_, date, _, _, _) => date
    case Sale(_, date, _, _) => date
    case Note(_, _, _, date, _) => date
    case Pay(_, _, date, _, _, _) => date
    case _ => 0
  }

  /** Over a run: what accepted documents dated by a day put on an account by naming it. */
  function PutBy(average: Averaging, commands: seq<Command>, a: Account, day: Day): int
  {
    if commands == [] then 0
    else
      var before, c := commands[..|commands| - 1], commands[|commands| - 1];
      PutBy(average, before, a, day)
        + if Apply(average, Run(average, before), c).Success? && DateOf(c) <= day then NamedNet(c, a) else 0
  }

  /** Documents that do not name an account put nothing on it. */
  lemma {:induction false} UnnamedPutsNothing(average: Averaging, commands: seq<Command>, a: Account, day: Day)
    requires Unnamed(commands, a)
    ensures PutBy(average, commands, a, day) == 0
  {
    if commands != [] {
      var before, c := commands[..|commands| - 1], commands[|commands| - 1];
      assert forall i :: 0 <= i < |before| ==> before[i] == commands[i];
      UnnamedPutsNothing(average, before, a, day);
      assert a !in NamedBy(c);
      match c
      case SupplierInvoice(_, _, _, _, invoiced) => NoExpenseOn(invoiced, a);
      case Sale(_, _, _, sold) => NoRevenueOn(sold, a);
      case Note(_, _, _, _, priced) => NoneNamedOn(priced, a);
      case _ =>
    }
  }

  lemma {:induction false} NoExpenseOn(invoiced: seq<InvoiceInput>, a: Account)
    requires forall l :: l in invoiced && l.ExpenseLine? ==> l.priced.account != a
    ensures ExpenseOn(invoiced, a) == 0
  {
    if invoiced != [] {
      assert invoiced[|invoiced| - 1] in invoiced;
      NoExpenseOn(invoiced[..|invoiced| - 1], a);
    }
  }

  lemma {:induction false} NoRevenueOn(sold: seq<SalesInput>, a: Account)
    requires forall l :: l in sold && l.revenue.Some? ==> l.revenue.value != a
    ensures RevenueOn(sold, a) == 0
  {
    if sold != [] {
      assert sold[|sold| - 1] in sold;
      NoRevenueOn(sold[..|sold| - 1], a);
    }
  }

  lemma {:induction false} NoneNamedOn(priced: seq<PricedLine>, a: Account)
    requires forall l :: l in priced ==> l.account != a
    ensures NamedOn(priced, a) == 0
  {
    if priced != [] {
      assert priced[|priced| - 1] in priced;
      NoneNamedOn(priced[..|priced| - 1], a);
    }
  }

  // ---- the measures the ties are about ----

  /** How far the Inventory account stands above the stock sub-ledger. */
  ghost function InventoryGap(t: Tables): int
  {
    NetDebit(t.ledger, Mapped(Role.Inventory)) - StockValue(t.stock)
  }

  function DirectValue(l: ReceiptLine): int { if l.orderLine.None? then l.value else 0 }
  function ReceiptResidue(l: ReceiptLine): int { if l.orderLine.None? then 0 else SCALE * l.value - l.quantity * l.unitCost }

  /** What rounding has put on GRNI beyond quantity x price, in units of 10^-8. */
  function Drift(t: Tables): int
  {
    SumBy(t.receipts, ReceiptResidue) - SumBy(t.returned, ReturnResidue) - SumBy(t.matched, MatchResidue)
  }

  /** What GRNI should hold: direct receipts, plus what is received and not invoiced at the order price, plus
      the drift; in units of 10^-8. */
  function GrniDue(t: Tables): int
  {
    SCALE * SumBy(t.receipts, DirectValue) + OpenValue(t.orderLines) + Drift(t)
  }

  /** How far the GRNI credit stands from that. */
  function GrniGap(t: Tables): int
  {
    -SCALE * NetDebit(t.ledger, Mapped(Grni)) - GrniDue(t)
  }

  /** What a control account should hold on a day, as a net debit: what the party statements say is owed. */
  function Owed(t: Tables, side: Side, day: Day): int
  {
    if side == Sales then Balance(t, side, None, day) else -Balance(t, side, None, day)
  }

  function ControlGap(t: Tables, side: Side, day: Day): int
  {
    NetUpTo(t.ledger, Control(side), day) - Owed(t, side, day)
  }

  /** The value a count's zero floor adds to stock and the entry does not show. */
  function FloorIn(t: Tables, c: Command): nat
  {
    if c.CountPosted? && c.id < |t.counts| && !t.counts[c.id].posted then FloorOf(t.stock, t.counts[c.id].lines) else 0
  }

  function FloorAddedBy(average: Averaging, commands: seq<Command>): nat
  {
    if commands == [] then 0
    else
      var before := commands[..|commands| - 1];
      FloorAddedBy(average, before) + FloorIn(Run(average, before), commands[|commands| - 1])
  }

  /** What a document puts on the control accounts by naming them, and when. */
  datatype Named = Named(date: Day, inventory: int, grni: int, receivable: int, payable: int)

  const NONE_NAMED := Named(0, 0, 0, 0, 0)

  function NamedIn(c: Command): Named
  {
    Named(DateOf(c), NamedNet(c, Mapped(Role.Inventory)), NamedNet(c, Mapped(Grni)), NamedNet(c, Mapped(Receivable)), NamedNet(c, Mapped(Payable)))
  }

  function OnControl(n: Named, side: Side): int { if side == Sales then n.receivable else n.payable }

  /** One step moves each gap by exactly what the document put on the account by naming it, and Inventory's by what
      a floor in a count added. */
  ghost predicate Keeps(t: Tables, u: Tables, n: Named, floor: nat)
  {
    && InventoryGap(u) == InventoryGap(t) + n.inventory - floor
    && GrniGap(u) == GrniGap(t) - SCALE * n.grni
    && (forall side, day :: ControlGap(u, side, day) == ControlGap(t, side, day) + if n.date <= day then OnControl(n, side) else 0)
  }

  /** Besides that, the entry carries on each control account what the documents did to its sub-ledger. */
  ghost predicate Carries(t: Tables, u: Tables, n: Named, floor: nat, e: Entry)
  {
    && u.ledger == t.ledger + [e] && (n == NONE_NAMED || n.date == e.date)
    && Net(e.lines, Mapped(Role.Inventory)) == StockValue(u.stock) - StockValue(t.stock) - floor + n.inventory
    && -SCALE * (Net(e.lines, Mapped(Grni)) - n.grni) == GrniDue(u) - GrniDue(t)
    && (forall side, day: Day ::
          Owed(u, side, day) - Owed(t, side, day) == if e.date <= day then Net(e.lines, Control(side)) - OnControl(n, side) else 0)
  }

  lemma {:induction false} CarriesKeeps(t: Tables, u: Tables, n: Named, floor: nat, e: Entry)
    requires Carries(t, u, n, floor, e)
    ensures Keeps(t, u, n, floor)
  {
    NetUpToSnoc(t.ledger, e, Mapped(Role.Inventory), FAR_FUTURE);
    NetUpToSnoc(t.ledger, e, Mapped(Grni), FAR_FUTURE);
    forall side, day: Day
      ensures ControlGap(u, side, day) == ControlGap(t, side, day) + if n.date <= day then OnControl(n, side) else 0
    {
      NetUpToSnoc(t.ledger, e, Control(side), day);
    }
  }

  /** Nothing a party owes changes when no document and no payment is added. */
  lemma {:induction false} SameParties(t: Tables, u: Tables)
    requires u.docs == t.docs && u.payments == t.payments
    ensures forall side, day: Day :: Owed(u, side, day) == Owed(t, side, day)
  {
  }

  // ---- command by command ----

  lemma {:induction false} DirectRecords(goods: seq<DirectLine>, records: seq<ReceiptLine>)
    requires |records| == |goods|
    requires forall i :: 0 <= i < |goods| ==> records[i].orderLine.None?
    ensures SumBy(records, DirectValue) == SumBy(records, ReceiptValue)
    ensures SumBy(records, ReceiptResidue) == 0
  {
    if goods != [] {
      var n := |goods| - 1;
      DirectRecords(goods[..n], records[..n]);
    }
  }

  lemma {:induction false} DirectReceiptWorth(stock: Stock, goods: seq<DirectLine>)
    requires ReceiveLines(stock, DirectInputs(goods)).Success?
    ensures var r := ReceiveLines(stock, DirectInputs(goods)).value;
      && StockValue(r.stock) == StockValue(stock) + r.total
      && SumBy(r.records, DirectValue) == r.total && SumBy(r.records, ReceiptResidue) == 0
  {
    var lines := DirectInputs(goods);
    ReceiveLinesMove(stock, lines);
    var r := ReceiveLines(stock, lines).value;
    forall i | 0 <= i < |goods| ensures r.records[i].orderLine.None? {
      assert r.records[i].orderLine == lines[i].orderLine;
    }
    DirectRecords(goods, r.records);
  }

  lemma {:induction false} DirectReceiptKeeps(t: Tables, date: Day, goods: seq<DirectLine>)
    requires CreateReceipt(t, date, DirectInputs(goods)).Success?
    ensures Keeps(t, CreateReceipt(t, date, DirectInputs(goods)).value, NONE_NAMED, 0)
  {
    var lines := DirectInputs(goods);
    var u := CreateReceipt(t, date, lines).value;
    ReceiptDoes(t, date, lines);
    DirectReceiptWorth(t.stock, goods);
    var r := ReceiveLines(t.stock, lines).value;
    PairShape(Mapped(Role.Inventory), Mapped(Grni), r.total);
    SumByConcat(t.receipts, r.records, DirectValue);
    SumByConcat(t.receipts, r.records, ReceiptResidue);
    NoPartyKeeps(t, u, Entry(date, ReceiptEntry(r.total)));
  }

  lemma {:induction false} StockIssueKeeps(average: Averaging, t: Tables, date: Day, issues: seq<IssueInput>)
    requires CreateIssue(average, t, date, issues).Success?
    ensures Keeps(t, CreateIssue(average, t, date, issues).value, NONE_NAMED, 0)
  {
    var u := CreateIssue(average, t, date, issues).value;
    IssueLinesMove(average, t.stock, issues);
    var r := IssueLines(average, t.stock, issues).value;
    PairShape(Mapped(ProjectExpense), Mapped(Role.Inventory), Cost(r));
    NoPartyKeeps(t, u, Entry(date, [Dr(Mapped(ProjectExpense), Cost(r)), Cr(Mapped(Role.Inventory), Cost(r))]));
  }

  lemma {:induction false} CountPostedKeeps(t: Tables, id: nat)
    requires PostCount(t, id).Success?
    ensures Keeps(t, PostCount(t, id).value, NONE_NAMED, FloorOf(t.stock, t.counts[id].lines))
  {
    var u, count := PostCount(t, id).value, t.counts[id];
    CountLinesMove(t.stock, count.lines);
    var r := CountLines(t.stock, count.lines);
    CountKeeps(t, u, FloorOf(t.stock, count.lines), count.date, r.shortage, r.surplus);
  }

  lemma {:induction false} CountKeeps(t: Tables, u: Tables, floor: nat, date: Day, shortage: nat, surplus: nat)
    requires u.docs == t.docs && u.payments == t.payments && GrniDue(u) == GrniDue(t)
    requires StockValue(u.stock) == StockValue(t.stock) + surplus - shortage + floor
    requires u.ledger == if 0 < shortage || 0 < surplus then t.ledger + [Entry(date, CountEntry(shortage, surplus))] else t.ledger
    ensures Keeps(t, u, NONE_NAMED, floor)
  {
    CountEntryAccepted(shortage, surplus);
    if 0 < shortage || 0 < surplus {
      InventoryEntryKeeps(t, u, floor, Entry(date, CountEntry(shortage, surplus)), surplus - shortage);
    } else {
      SameParties(t, u);
    }
  }

  lemma {:induction false} InventoryEntryKeeps(t: Tables, u: Tables, floor: nat, e: Entry, amount: int)
    requires u.docs == t.docs && u.payments == t.payments && GrniDue(u) == GrniDue(t) && u.ledger == t.ledger + [e]
    requires StockValue(u.stock) == StockValue(t.stock) + amount + floor
    requires Net(e.lines, Mapped(Role.Inventory)) == amount && Net(e.lines, Mapped(Grni)) == 0
    requires Net(e.lines, Mapped(Receivable)) == 0 && Net(e.lines, Mapped(Payable)) == 0
    ensures Keeps(t, u, NONE_NAMED, floor)
  {
    SameParties(t, u);
    CarriesKeeps(t, u, NONE_NAMED, floor, e);
  }

  lemma {:induction false} OrderPlacedKeeps(t: Tables, supplier: nat, ordered: seq<OrderInput>, needsApproval: bool)
    requires PlaceOrder(t, supplier, ordered, needsApproval).Success?
    ensures Keeps(t, PlaceOrder(t, supplier, ordered, needsApproval).value, NONE_NAMED, 0)
  {
    SumByConcat(t.orderLines, NewLines(|t.orders|, ordered), OpenOf);
    NewLinesOpenNothing(|t.orders|, ordered);
    SameParties(t, PlaceOrder(t, supplier, ordered, needsApproval).value);
  }

  lemma {:induction false} NewLinesOpenNothing(order: nat, lines: seq<OrderInput>)
    ensures OpenValue(NewLines(order, lines)) == 0
  {
    if lines != [] {
      var n := |lines| - 1;
      NewLinesOpenNothing(order, lines[..n]);
      assert NewLines(order, lines)[..n] == NewLines(order, lines[..n]);
    }
  }

  lemma {:induction false} OrderRecords(lines: seq<OrderLine>, wants: seq<Want>, records: seq<ReceiptLine>)
    requires |records| == |wants|
    requires forall i :: 0 <= i < |wants| ==>
      && records[i].orderLine.Some? && records[i].quantity == wants[i].quantity && records[i].unitCost == LineAt(lines, wants[i].line).price
    ensures SumBy(records, DirectValue) == 0
    ensures SCALE * SumBy(records, ReceiptValue) == SumBy(wants, WantWeight(lines)) + SumBy(records, ReceiptResidue)
  {
    if wants != [] {
      var n := |wants| - 1;
      OrderRecords(lines, wants[..n], records[..n]);
      assert records[n].quantity == wants[n].quantity;
    }
  }

  lemma {:induction false} OrderReceiptWorth(stock: Stock, lines: seq<OrderLine>, warehouse: nat, wants: seq<Want>)
    requires ReceiveLines(stock, ReceiptInputs(lines, warehouse, wants)).Success?
    ensures var r := ReceiveLines(stock, ReceiptInputs(lines, warehouse, wants)).value;
      && StockValue(r.stock) == StockValue(stock) + r.total && r.total == SumBy(r.records, ReceiptValue)
      && SumBy(r.records, DirectValue) == 0
      && SCALE * r.total == SumBy(wants, WantWeight(lines)) + SumBy(r.records, ReceiptResidue)
  {
    var inputs := ReceiptInputs(lines, warehouse, wants);
    ReceiveLinesMove(stock, inputs);
    var records := ReceiveLines(stock, inputs).value.records;
    forall i | 0 <= i < |wants|
      ensures records[i].orderLine.Some? && records[i].quantity == wants[i].quantity && records[i].unitCost == LineAt(lines, wants[i].line).price
    {
      assert records[i].orderLine == inputs[i].orderLine;
    }
    OrderRecords(lines, wants, records);
  }

  lemma {:induction false} OrderReceiptKeeps(t: Tables, u: Tables, id: nat, date: Day, warehouse: nat, wants: seq<Want>)
    requires OrderRows(t) && ReceivedFrom(t, u, id, date, warehouse, wants)
    ensures Keeps(t, u, NONE_NAMED, 0)
  {
    OrderReceiptWorth(t.stock, t.orderLines, warehouse, wants);
    var r := ReceiveLines(t.stock, ReceiptInputs(t.orderLines, warehouse, wants)).value;
    OrderReceiptDue(t, u, t.orders[id], wants, r.records);
    ReceiptKeepsFrom(t, u, date, r.total);
  }

  lemma {:induction false} ReceiptKeepsFrom(t: Tables, u: Tables, date: Day, total: int)
    requires u.docs == t.docs && u.payments == t.payments && u.ledger == t.ledger + [Entry(date, ReceiptEntry(total))]
    requires StockValue(u.stock) == StockValue(t.stock) + total && GrniDue(u) - GrniDue(t) == SCALE * total
    ensures Keeps(t, u, NONE_NAMED, 0)
  {
    PairShape(Mapped(Role.Inventory), Mapped(Grni), total);
    NoPartyKeeps(t, u, Entry(date, ReceiptEntry(total)));
  }

  /** A step that adds no document and no payment, and whose entry stays off the party accounts. */
  lemma {:induction false} NoPartyKeeps(t: Tables, u: Tables, e: Entry)
    requires u.docs == t.docs && u.payments == t.payments && u.ledger == t.ledger + [e]
    requires Net(e.lines, Mapped(Receivable)) == 0 && Net(e.lines, Mapped(Payable)) == 0
    requires Net(e.lines, Mapped(Role.Inventory)) == StockValue(u.stock) - StockValue(t.stock)
    requires -SCALE * Net(e.lines, Mapped(Grni)) == GrniDue(u) - GrniDue(t)
    ensures Keeps(t, u, NONE_NAMED, 0)
  {
    SameParties(t, u);
    CarriesKeeps(t, u, NONE_NAMED, 0, e);
  }

  lemma {:induction false} OrderReceiptDue(t: Tables, u: Tables, o: Order, wants: seq<Want>, records: seq<ReceiptLine>)
    requires AllOn(o, wants) && o.first + o.count <= |t.orderLines|
    requires u.receipts == t.receipts + records && u.orderLines == Moved(t.orderLines, Requested(wants), Move.Receipt)
    requires u.returned == t.returned && u.matched == t.matched
    requires SumBy(records, DirectValue) == 0
    requires SCALE * SumBy(records, ReceiptValue) == SumBy(wants, WantWeight(t.orderLines)) + SumBy(records, ReceiptResidue)
    ensures GrniDue(u) - GrniDue(t) == SCALE * SumBy(records, ReceiptValue)
  {
    RequestedOnOrder(o, wants);
    MoveOpenValue(t.orderLines, Requested(wants), Move.Receipt);
    RequestedWeight(wants, t.orderLines);
    SumByConcat(t.receipts, records, DirectValue);
    SumByConcat(t.receipts, records, ReceiptResidue);
  }

  lemma {:induction false} ReturnDue(t: Tables, u: Tables, o: Order, wants: seq<Want>, values: seq<nat>)
    requires AllOn(o, wants) && o.first + o.count <= |t.orderLines|
    requires u.returned == t.returned + ReturnRecords(t.orderLines, SortByItem(t.orderLines, Requested(wants)), values)
    requires u.orderLines == Moved(t.orderLines, Requested(wants), Move.Return)
    requires u.receipts == t.receipts && u.matched == t.matched
    ensures GrniDue(u) - GrniDue(t) ==
      -SCALE * SumBy(ReturnRecords(t.orderLines, SortByItem(t.orderLines, Requested(wants)), values), OrderValueOf)
  {
    var entries := SortByItem(t.orderLines, Requested(wants));
    RecordsWeigh(t.orderLines, entries, values);
    SortSum(t.orderLines, Requested(wants), WeightOf(t.orderLines));
    RequestedOnOrder(o, wants);
    MoveOpenValue(t.orderLines, Requested(wants), Move.Return);
    SumByConcat(t.returned, ReturnRecords(t.orderLines, entries, values), ReturnResidue);
  }

  lemma {:induction false} GoodsReturnKeeps(average: Averaging, t: Tables, u: Tables, id: nat, date: Day, warehouse: nat, wants: seq<Want>)
    requires OrderRows(t) && ReturnedFrom(average, t, u, id, date, warehouse, wants)
    ensures Keeps(t, u, NONE_NAMED, 0)
  {
    var entries := SortByItem(t.orderLines, Requested(wants));
    var inputs := IssueInputs(t.orderLines, warehouse, entries);
    IssueLinesMove(average, t.stock, inputs);
    var r := IssueLines(average, t.stock, inputs).value;
    ReturnsWorth(average, t.stock, t.orderLines, warehouse, entries);
    var orderValue := SumBy(ReturnRecords(t.orderLines, entries, r.values), OrderValueOf);
    ReturnDue(t, u, t.orders[id], wants, r.values);
    ReturnEntryAccepted(orderValue, Cost(r));
    NoPartyKeeps(t, u, Entry(date, ReturnEntry(orderValue, Cost(r))));
  }

  /** Only positive quantities can be taken out, so a return's order value is not negative. */
  lemma {:induction false} ReturnsWorth(average: Averaging, stock: Stock, lines: seq<OrderLine>, warehouse: nat, entries: Tally<nat>)
    requires IssueLines(average, stock, IssueInputs(lines, warehouse, entries)).Success?
    ensures forall values :: 0 <= SumBy(ReturnRecords(lines, entries, values), OrderValueOf)
  {
    if entries != [] {
      var n := |entries| - 1;
      assert IssueInputs(lines, warehouse, entries)[..n] == IssueInputs(lines, warehouse, entries[..n]);
      ReturnsWorth(average, stock, lines, warehouse, entries[..n]);
      var p := IssueLines(average, stock, IssueInputs(lines, warehouse, entries[..n])).value;
      IssueConserves(average, RowOf(p.stock, Slot(LineAt(lines, entries[n].0).item, warehouse)), entries[n].1);
      forall values ensures 0 <= SumBy(ReturnRecords(lines, entries, values), OrderValueOf) {
        assert ReturnRecords(lines, entries, values)[..n] == ReturnRecords(lines, entries[..n], values);
      }
    }
  }

  /** A step that adds one document, booked on its side's control account by what it charges. */
  lemma {:induction false} DocumentKeeps(t: Tables, u: Tables, n: Named, e: Entry, d: Doc)
    requires u.docs == t.docs + [d] && u.payments == t.payments && u.ledger == t.ledger + [e] && e.date == d.date == n.date
    requires Net(e.lines, Mapped(Role.Inventory)) == StockValue(u.stock) - StockValue(t.stock) + n.inventory
    requires -SCALE * (Net(e.lines, Mapped(Grni)) - n.grni) == GrniDue(u) - GrniDue(t)
    requires Net(e.lines, Mapped(Receivable)) == n.receivable + if d.side == Sales then Charge(d) else 0
    requires Net(e.lines, Mapped(Payable)) == n.payable + if d.side == Supplier then -Charge(d) else 0
    ensures Keeps(t, u, n, 0)
  {
    assert u.docs[..|u.docs| - 1] == t.docs;
    CarriesKeeps(t, u, n, 0, e);
  }

  lemma {:induction false} SaleKeeps(average: Averaging, t: Tables, customer: nat, date: Day, due: Option<Day>, sold: seq<SalesInput>)
    requires CreateSale(average, t, customer, date, due, sold).Success?
    ensures Keeps(t, CreateSale(average, t, customer, date, due, sold).value, NamedIn(Sale(customer, date, due, sold)), 0)
  {
    var u, priced := CreateSale(average, t, customer, date, due, sold).value, PricedLines(sold);
    SellLinesMove(average, t.stock, sold);
    var cost := Cost(SellLines(average, t.stock, sold).value);
    SaleNetsEach(sold, cost);
    SaleNets(SalesEntry(priced, cost), Sale(customer, date, due, sold), Gross(TotalsOf(priced)), cost);
    SaleKeepsFrom(t, u, NamedIn(Sale(customer, date, due, sold)), Entry(date, SalesEntry(priced, cost)), u.docs[|t.docs|], cost);
  }

  /** An entry puts on the control accounts these amounts besides what the document names. */
  ghost predicate Posts(lines: seq<Line>, n: Named, inventory: int, grni: int, receivable: int, payable: int)
  {
    && Net(lines, Mapped(Role.Inventory)) == inventory + n.inventory && Net(lines, Mapped(Grni)) == grni + n.grni
    && Net(lines, Mapped(Receivable)) == receivable + n.receivable && Net(lines, Mapped(Payable)) == payable + n.payable
  }

  lemma {:induction false} SaleKeepsFrom(t: Tables, u: Tables, n: Named, e: Entry, d: Doc, cost: int)
    requires u.docs == t.docs + [d] && u.payments == t.payments && u.ledger == t.ledger + [e] && e.date == d.date == n.date
    requires d.side == Sales && d.kind == Kind.Invoice
    requires StockValue(u.stock) == StockValue(t.stock) - cost && GrniDue(u) == GrniDue(t)
    requires Posts(e.lines, n, 0 - cost, 0, d.gross, 0)
    ensures Keeps(t, u, n, 0)
  {
    DocumentKeeps(t, u, n, e, d);
  }

  predicate IsControl(a: Account)
  {
    a == Mapped(Receivable) || a == Mapped(Payable) || a == Mapped(Grni) || a == Mapped(Role.Inventory)
  }

  /** What an entry puts on the control accounts, account by account. */
  ghost predicate SaleNetsOn(lines: seq<Line>, sold: seq<SalesInput>, gross: int, cost: int)
  {
    forall a :: IsControl(a) ==>
      Net(lines, a) == (if a == Mapped(Receivable) then gross else 0) - RevenueOn(sold, a) - if a == Mapped(Role.Inventory) then cost else 0
  }

  lemma {:induction false} SaleNetsEach(sold: seq<SalesInput>, cost: nat)
    ensures SaleNetsOn(SalesEntry(PricedLines(sold), cost), sold, Gross(TotalsOf(PricedLines(sold))), cost)
  {
    SalesEntryAccepted(PricedLines(sold), cost);
    forall a | IsControl(a) ensures NamedOn(PricedLines(sold), a) == RevenueOn(sold, a) {
      RevenueNamed(sold, a);
    }
  }

  lemma {:induction false} SaleNets(lines: seq<Line>, c: Command, gross: int, cost: int)
    requires c.Sale? && SaleNetsOn(lines, c.sold, gross, cost)
    ensures Posts(lines, NamedIn(c), 0 - cost, 0, gross, 0)
  {
  }

  lemma {:induction false} RevenueNamed(sold: seq<SalesInput>, a: Account)
    requires a != Mapped(SalesRevenue)
    ensures NamedOn(PricedLines(sold), a) == RevenueOn(sold, a)
  {
    if sold != [] {
      var n := |sold| - 1;
      RevenueNamed(sold[..n], a);
      assert PricedLines(sold)[..n] == PricedLines(sold[..n]);
    }
  }

  lemma {:induction false} NoteKeeps(t: Tables, side: Side, kind: Kind, original: nat, date: Day, priced: seq<PricedLine>)
    requires KindOf(side, kind) && CreateNote(t, side, kind, original, date, priced).Success?
    ensures Keeps(t, CreateNote(t, side, kind, original, date, priced).value, NamedIn(Note(side, kind, original, date, priced)), 0)
  {
    NoteDoes(t, side, kind, original, date, priced);
    NoteNets(Note(side, kind, original, date, priced));
    NoteKeepsFrom(t, NamedIn(Note(side, kind, original, date, priced)), Entry(date, NoteEntry(side, kind, priced)),
                  NoteDoc(t, side, kind, original, date, Gross(TotalsOf(priced))));
  }

  lemma {:induction false} NoteDoes(t: Tables, side: Side, kind: Kind, original: nat, date: Day, priced: seq<PricedLine>)
    requires KindOf(side, kind) && CreateNote(t, side, kind, original, date, priced).Success?
    ensures original < |t.docs|
    ensures var (d, e) := (NoteDoc(t, side, kind, original, date, Gross(TotalsOf(priced))), Entry(date, NoteEntry(side, kind, priced)));
      CreateNote(t, side, kind, original, date, priced).value == t.(docs := t.docs + [d], ledger := t.ledger + [e])
  {
    var u := t.(docs := t.docs + [NoteDoc(t, side, kind, original, date, Gross(TotalsOf(priced)))]);
    assert CreateNote(t, side, kind, original, date, priced) == Post(u, date, NoteEntry(side, kind, priced));
  }

  /** What a note puts on its side's control account. */
  function NoteOn(side: Side, kind: Kind, gross: int, control: Side): int
  {
    if control == side then Signed(kind == DebitNote, gross) else 0
  }

  lemma {:induction false} NoteNetOn(side: Side, kind: Kind, priced: seq<PricedLine>, a: Account)
    requires KindOf(side, kind) && IsControl(a)
    ensures Net(NoteEntry(side, kind, priced), a)
         == Signed(kind == DebitNote, (if a == Control(side) then Gross(TotalsOf(priced)) else 0) - NamedOn(priced, a))
  {
    ByAccountGroups(priced);
    DocumentEntryNet(Control(side), Vat(side), kind == DebitNote, ByAccount(priced), TotalsOf(priced), a);
  }

  /** What a note puts on an account besides what its lines do by naming it. */
  function NoteAt(side: Side, kind: Kind, gross: int, a: Account): int
  {
    Signed(kind == DebitNote, if a == Control(side) then gross else 0)
  }

  lemma {:induction false} SignedSplits(positive: bool, x: int, y: int)
    ensures Signed(positive, x - y) == Signed(positive, x) + Signed(positive, -y)
  {
  }

  lemma {:induction false} NoteNames(c: Command, a: Account)
    requires c.Note?
    ensures NamedNet(c, a) == Signed(c.kind == DebitNote, -NamedOn(c.priced, a))
  {
  }

  lemma {:induction false} NoteNetNamed(c: Command, a: Account)
    requires c.Note? && KindOf(c.side, c.kind) && IsControl(a)
    ensures Net(NoteEntry(c.side, c.kind, c.priced), a) == NoteAt(c.side, c.kind, Gross(TotalsOf(c.priced)), a) + NamedNet(c, a)
  {
    NoteNetOn(c.side, c.kind, c.priced, a);
    NoteNames(c, a);
    SignedSplits(c.kind == DebitNote, if a == Control(c.side) then Gross(TotalsOf(c.priced)) else 0, NamedOn(c.priced, a));
  }

  lemma {:induction false} NotePosts(lines: seq<Line>, side: Side, kind: Kind, gross: int, n: Named)
    requires Net(lines, Mapped(Role.Inventory)) == NoteAt(side, kind, gross, Mapped(Role.Inventory)) + n.inventory
    requires Net(lines, Mapped(Grni)) == NoteAt(side, kind, gross, Mapped(Grni)) + n.grni
    requires Net(lines, Mapped(Receivable)) == NoteAt(side, kind, gross, Mapped(Receivable)) + n.receivable
    requires Net(lines, Mapped(Payable)) == NoteAt(side, kind, gross, Mapped(Payable)) + n.payable
    ensures Posts(lines, n, 0, 0, NoteOn(side, kind, gross, Sales), NoteOn(side, kind, gross, Supplier))
  {
  }

  lemma {:induction false} NoteNets(c: Command)
    requires c.Note? && KindOf(c.side, c.kind)
    ensures Posts(NoteEntry(c.side, c.kind, c.priced), NamedIn(c), 0, 0,
                  NoteOn(c.side, c.kind, Gross(TotalsOf(c.priced)), Sales), NoteOn(c.side, c.kind, Gross(TotalsOf(c.priced)), Supplier))
  {
    NoteNetNamed(c, Mapped(Role.Inventory));
    NoteNetNamed(c, Mapped(Grni));
    NoteNetNamed(c, Mapped(Receivable));
    NoteNetNamed(c, Mapped(Payable));
    NotePosts(NoteEntry(c.side, c.kind, c.priced), c.side, c.kind, Gross(TotalsOf(c.priced)), NamedIn(c));
  }

  lemma {:induction false} NoteKeepsFrom(t: Tables, n: Named, e: Entry, d: Doc)
    requires KindOf(d.side, d.kind) && e.date == d.date == n.date
    requires Posts(e.lines, n, 0, 0, NoteOn(d.side, d.kind, d.gross, Sales), NoteOn(d.side, d.kind, d.gross, Supplier))
    ensures Keeps(t, t.(docs := t.docs + [d], ledger := t.ledger + [e]), n, 0)
  {
    DocumentKeeps(t, t.(docs := t.docs + [d], ledger := t.ledger + [e]), n, e, d);
  }

  lemma {:induction false} PayKeeps(t: Tables, side: Side, party: nat, date: Day, amount: nat, cash: Account, allocations: seq<Allocation>)
    requires CreatePayment(t, side, party, date, amount, cash, allocations).Success?
    ensures Keeps(t, CreatePayment(t, side, party, date, amount, cash, allocations).value, NamedIn(Pay(side, party, date, amount, cash, allocations)), 0)
  {
    var u := CreatePayment(t, side, party, date, amount, cash, allocations).value;
    PayKeepsFrom(t, u, Payment(side, party, date, amount, allocations), cash, NamedIn(Pay(side, party, date, amount, cash, allocations)));
  }

  lemma {:induction false} PayKeepsFrom(t: Tables, u: Tables, p: Payment, cash: Account, n: Named)
    requires u.docs == t.docs && u.payments == t.payments + [p] && u.stock == t.stock && GrniDue(u) == GrniDue(t)
    requires u.ledger == t.ledger + [Entry(p.date, PaymentEntry(p.side, cash, p.amount))]
    requires n == NamedIn(Pay(p.side, p.party, p.date, p.amount, cash, p.allocations))
    ensures Keeps(t, u, n, 0)
  {
    PairShape(cash, Mapped(Receivable), p.amount);
    PairShape(Mapped(Payable), cash, p.amount);
    assert u.payments[..|u.payments| - 1] == t.payments;
    CarriesKeeps(t, u, n, 0, Entry(p.date, PaymentEntry(p.side, cash, p.amount)));
  }

  lemma {:induction false} SupplierInvoiceKeeps(t: Tables, u: Tables, c: Command)
    requires c.SupplierInvoice? && InvoicedFrom(t, u, c.supplier, c.date, c.due, c.invoiced)
    ensures Keeps(t, u, NamedIn(c), 0)
  {
    var e := Evaluate(t, c.supplier, c.invoiced).value;
    BillNets(t, c);
    InvoiceDue(t, u, c.supplier, c.invoiced);
    BillKeepsFrom(t, u, NamedIn(c), Entry(c.date, SupplierInvoiceEntry(e)), u.docs[|t.docs|], SumBy(e.matched, MatchedOrderValue));
  }

  lemma {:induction false} BillKeepsFrom(t: Tables, u: Tables, n: Named, e: Entry, d: Doc, orderValue: int)
    requires u.docs == t.docs + [d] && u.payments == t.payments && u.ledger == t.ledger + [e] && e.date == d.date == n.date
    requires d.side == Supplier && d.kind == Kind.Invoice && u.stock == t.stock && GrniDue(u) - GrniDue(t) == -SCALE * orderValue
    requires Posts(e.lines, n, 0, orderValue, 0, -d.gross)
    ensures Keeps(t, u, n, 0)
  {
    DocumentKeeps(t, u, n, e, d);
  }

  lemma {:induction false} BillNets(t: Tables, c: Command)
    requires c.SupplierInvoice? && Evaluate(t, c.supplier, c.invoiced).Success?
    ensures var e := Evaluate(t, c.supplier, c.invoiced).value;
      Posts(SupplierInvoiceEntry(e), NamedIn(c), 0, SumBy(e.matched, MatchedOrderValue), 0, -GrossOf(e))
  {
    var e := Evaluate(t, c.supplier, c.invoiced).value;
    PrefixCheckIsAggregate(t, c.supplier, c.invoiced);
    SupplierInvoiceEntryAccepted(e, |t.orderLines|);
    forall a ensures NamedOn(e.expenses, a) == ExpenseOn(c.invoiced, a) {
      ExpensesNamed(t, c.supplier, c.invoiced, a);
    }
  }

  lemma {:induction false} InvoiceDue(t: Tables, u: Tables, supplier: nat, invoiced: seq<InvoiceInput>)
    requires Evaluate(t, supplier, invoiced).Success?
    requires var e := Evaluate(t, supplier, invoiced).value;
      && u.orderLines == Moved(t.orderLines, e.claimed, Move.Invoicing) && u.matched == t.matched + MatchRecords(e.matched)
      && u.receipts == t.receipts && u.returned == t.returned
    ensures GrniDue(u) - GrniDue(t) == -SCALE * SumBy(Evaluate(t, supplier, invoiced).value.matched, MatchedOrderValue)
  {
    var e := Evaluate(t, supplier, invoiced).value;
    PrefixCheckIsAggregate(t, supplier, invoiced);
    MatchWeighs(t, supplier, invoiced);
    MoveOpenValue(t.orderLines, e.claimed, Move.Invoicing);
    SumByConcat(t.matched, MatchRecords(e.matched), MatchResidue);
  }

  lemma {:induction false} NextExpense(t: Tables, supplier: nat, invoiced: seq<InvoiceInput>)
    requires invoiced != [] && Evaluate(t, supplier, invoiced).Success?
    ensures var l := invoiced[|invoiced| - 1];
      && Evaluate(t, supplier, invoiced[..|invoiced| - 1]).Success?
      && Evaluate(t, supplier, invoiced).value.expenses
           == Evaluate(t, supplier, invoiced[..|invoiced| - 1]).value.expenses + if l.ExpenseLine? then [l.priced] else []
  {
  }

  lemma {:induction false} NamedOnSnoc(lines: seq<PricedLine>, l: PricedLine, a: Account)
    ensures NamedOn(lines + [l], a) == NamedOn(lines, a) + if l.account == a then NetOf(l) else 0
  {
    assert (lines + [l])[..|lines|] == lines;
  }

  lemma {:induction false} ExpensesNamed(t: Tables, supplier: nat, invoiced: seq<InvoiceInput>, a: Account)
    requires Evaluate(t, supplier, invoiced).Success?
    ensures NamedOn(Evaluate(t, supplier, invoiced).value.expenses, a) == ExpenseOn(invoiced, a)
  {
    if invoiced != [] {
      var l := invoiced[|invoiced| - 1];
      NextExpense(t, supplier, invoiced);
      ExpensesNamed(t, supplier, invoiced[..|invoiced| - 1], a);
      var before := Evaluate(t, supplier, invoiced[..|invoiced| - 1]).value.expenses;
      if l.ExpenseLine? {
        NamedOnSnoc(before, l.priced, a);
      } else {
        assert before + [] == before;
      }
    }
  }
}
