/** The reconciliations, over every run of every document command. */
module Reconciliation {
  import opened Wrappers
  import opened Journal
  import opened Rounding
  import opened WeightedAverage
  import opened Books
  import opened Invoicing
  import opened Inventory
  import opened Purchasing
  import opened SupplierInvoicing
  import opened Settlement
  import opened History
  import opened Invariants
  import opened PartyAccounts

  /** A count that is there and not posted always posts. */
  lemma {:induction false} CountAlwaysPosts(t: Tables, id: nat)
    ensures PostCount(t, id).Success? <==> id < |t.counts| && !t.counts[id].posted
  {
    if id < |t.counts| {
      CountLinesMove(t.stock, t.counts[id].lines);
      var c := CountLines(t.stock, t.counts[id].lines);
      CountEntryAccepted(c.shortage, c.surplus);
    }
  }

  /** No command moves a control account away from its sub-ledger, but by what the document puts on that account by
      naming it; a count's zero floor moves Inventory's gap by what it adds. */
  lemma {:induction false} StepKeeps(average: Averaging, t: Tables, c: Command)
    requires OrderRows(t)
    ensures Keeps(t, After(average, t, c), if Apply(average, t, c).Success? then NamedIn(c) else NONE_NAMED, FloorIn(t, c))
  {
    if Apply(average, t, c).Success? {
      if c.Sale? || c.Note? || c.Pay? || c.SupplierInvoice? {
        StepMoneyKeeps(average, t, c);
      } else {
        StepGoodsKeeps(average, t, c);
      }
    } else if c.CountPosted? {
      CountAlwaysPosts(t, c.id);
    }
  }

  lemma {:induction false} StepGoodsKeeps(average: Averaging, t: Tables, c: Command)
    requires OrderRows(t) && Apply(average, t, c).Success? && !(c.Sale? || c.Note? || c.Pay? || c.SupplierInvoice?)
    ensures Keeps(t, Apply(average, t, c).value, NamedIn(c), FloorIn(t, c))
  {
    if c.OrderReceipt? || c.GoodsReturn? {
      StepOrderGoodsKeeps(average, t, c);
    } else {
      match c
      case DirectReceipt(date, goods) => DirectReceiptKeeps(t, date, goods);
      case StockIssue(date, issues) => StockIssueKeeps(average, t, date, issues);
      case CountPosted(id) => CountPostedKeeps(t, id);
      case OrderPlaced(supplier, ordered, needsApproval) => OrderPlacedKeeps(t, supplier, ordered, needsApproval);
      case _ =>
    }
  }

  lemma {:induction false} StepOrderGoodsKeeps(average: Averaging, t: Tables, c: Command)
    requires OrderRows(t) && Apply(average, t, c).Success? && (c.OrderReceipt? || c.GoodsReturn?)
    ensures Keeps(t, Apply(average, t, c).value, NamedIn(c), FloorIn(t, c))
  {
    match c
    case OrderReceipt(id, date, warehouse, wants) =>
      ReceiveOrderDoes(t, id, date, warehouse, wants);
      OrderReceiptKeeps(t, Apply(average, t, c).value, id, date, warehouse, wants);
    case GoodsReturn(id, date, warehouse, wants) =>
      CreateReturnDoes(average, t, id, date, warehouse, wants);
      GoodsReturnKeeps(average, t, Apply(average, t, c).value, id, date, warehouse, wants);
  }

  lemma {:induction false} StepMoneyKeeps(average: Averaging, t: Tables, c: Command)
    requires Apply(average, t, c).Success? && (c.Sale? || c.Note? || c.Pay? || c.SupplierInvoice?)
    ensures Keeps(t, Apply(average, t, c).value, NamedIn(c), 0)
  {
    match c
    case SupplierInvoice(supplier, date, due, accept, invoiced) =>
      CreateInvoiceDoes(t, supplier, date, due, accept, invoiced);
      SupplierInvoiceKeeps(t, Apply(average, t, c).value, c);
    case Sale(customer, date, due, sold) => SaleKeeps(average, t, customer, date, due, sold);
    case Note(side, kind, original, date, priced) => NoteKeeps(t, side, kind, original, date, priced);
    case Pay(side, party, date, amount, cash, allocations) => PayKeeps(t, side, party, date, amount, cash, allocations);
  }

  lemma {:induction false} StepOrders(average: Averaging, t: Tables, c: Command)
    requires OrdersHold(t)
    ensures OrdersHold(After(average, t, c))
  {
    var u := After(average, t, c);
    if Apply(average, t, c).Success? {
      match c
      case OrderPlaced(supplier, ordered, needsApproval) => OrderPlacedHolds(t, supplier, ordered, needsApproval);
      case OrderDecided(id, approve) => StatusChangeHolds(t, id, if approve then Approved else Rejected);
      case OrderCancelled(id) => StatusChangeHolds(t, id, Cancelled);
      case OrderReceipt(_, _, _, _) => StepCounters(average, t, c);
      case GoodsReturn(_, _, _, _) => StepCounters(average, t, c);
      case SupplierInvoice(_, _, _, _, _) => StepCounters(average, t, c);
      case _ => SameOrders(t, u);
    }
  }

  lemma {:induction false} StepCounters(average: Averaging, t: Tables, c: Command)
    requires OrdersHold(t) && Apply(average, t, c).Success? && (c.OrderReceipt? || c.GoodsReturn? || c.SupplierInvoice?)
    ensures OrdersHold(Apply(average, t, c).value)
  {
    var u := Apply(average, t, c).value;
    match c
    case OrderReceipt(id, date, warehouse, wants) =>
      ReceiveOrderDoes(t, id, date, warehouse, wants);
      OrderReceiptHolds(t, u, id, date, warehouse, wants);
    case GoodsReturn(id, date, warehouse, wants) =>
      CreateReturnDoes(average, t, id, date, warehouse, wants);
      GoodsReturnHolds(average, t, u, id, date, warehouse, wants);
    case SupplierInvoice(supplier, date, due, accept, invoiced) =>
      CreateInvoiceDoes(t, supplier, date, due, accept, invoiced);
      SupplierInvoiceHolds(t, u, supplier, date, due, invoiced);
  }

  lemma {:induction false} SameOrders(t: Tables, u: Tables)
    requires OrdersHold(t) && u.orders == t.orders && u.orderLines == t.orderLines
    ensures OrdersHold(u)
  {
  }

  lemma {:induction false} SupplierInvoiceParties(t: Tables, u: Tables, supplier: nat, date: Day, due: Option<Day>, invoiced: seq<InvoiceInput>)
    requires PartiesHold(t) && InvoicedFrom(t, u, supplier, date, due, invoiced)
    ensures PartiesHold(u)
  {
    PrefixCheckIsAggregate(t, supplier, invoiced);
    SupplierInvoiceEntryAccepted(Evaluate(t, supplier, invoiced).value, |t.orderLines|);
    InvoiceHolds(t, u, u.docs[|t.docs|]);
  }

  lemma {:induction false} SaleParties(average: Averaging, t: Tables, customer: nat, date: Day, due: Option<Day>, sold: seq<SalesInput>)
    requires PartiesHold(t) && CreateSale(average, t, customer, date, due, sold).Success?
    ensures PartiesHold(CreateSale(average, t, customer, date, due, sold).value)
  {
    var u := CreateSale(average, t, customer, date, due, sold).value;
    SalesEntryAccepted(PricedLines(sold), 0);
    InvoiceHolds(t, u, u.docs[|t.docs|]);
  }

  lemma {:induction false} NoteParties(t: Tables, side: Side, kind: Kind, original: nat, date: Day, priced: seq<PricedLine>)
    requires PartiesHold(t) && KindOf(side, kind) && CreateNote(t, side, kind, original, date, priced).Success?
    ensures PartiesHold(CreateNote(t, side, kind, original, date, priced).value)
  {
    var u := CreateNote(t, side, kind, original, date, priced).value;
    ByAccountGroups(priced);
    NoteHolds(t, u, u.docs[|t.docs|], original);
  }

  lemma {:induction false} PayParties(t: Tables, side: Side, party: nat, date: Day, amount: nat, cash: Account, allocations: seq<Allocation>)
    requires PartiesHold(t) && CreatePayment(t, side, party, date, amount, cash, allocations).Success?
    ensures PartiesHold(CreatePayment(t, side, party, date, amount, cash, allocations).value)
  {
    var u := CreatePayment(t, side, party, date, amount, cash, allocations).value;
    AllocationsChecked(t, side, party, allocations);
    PaymentHolds(t, u, u.payments[|t.payments|]);
  }

  lemma {:induction false} StepParties(average: Averaging, t: Tables, c: Command)
    requires PartiesHold(t)
    ensures PartiesHold(After(average, t, c))
  {
    var u := After(average, t, c);
    if Apply(average, t, c).Success? {
      match c
      case SupplierInvoice(supplier, date, due, accept, invoiced) =>
        CreateInvoiceDoes(t, supplier, date, due, accept, invoiced);
        SupplierInvoiceParties(t, u, supplier, date, due, invoiced);
      case Sale(customer, date, due, sold) => SaleParties(average, t, customer, date, due, sold);
      case Note(side, kind, original, date, priced) => NoteParties(t, side, kind, original, date, priced);
      case Pay(side, party, date, amount, cash, allocations) => PayParties(t, side, party, date, amount, cash, allocations);
      case OrderReceipt(id, date, warehouse, wants) =>
        ReceiveOrderDoes(t, id, date, warehouse, wants);
        SameDocuments(t, u);
      case GoodsReturn(id, date, warehouse, wants) =>
        CreateReturnDoes(average, t, id, date, warehouse, wants);
        SameDocuments(t, u);
      case _ => SameDocuments(t, u);
    }
  }

  lemma {:induction false} SameDocuments(t: Tables, u: Tables)
    requires PartiesHold(t) && u.docs == t.docs && u.payments == t.payments
    ensures PartiesHold(u)
  {
    LinksStay(t, u);
    forall i | 0 <= i < |u.docs| && u.docs[i].kind == Kind.Invoice ensures Bounded(u, i) {
      assert Bounded(t, i);
    }
  }

  lemma {:induction false} StepLedger(average: Averaging, t: Tables, c: Command)
    requires Journal.Sound(t.ledger)
    ensures Journal.Sound(After(average, t, c).ledger) && t.ledger <= After(average, t, c).ledger
  {
    if c.OrderReceipt? || c.GoodsReturn? || c.SupplierInvoice? {
      PurchaseLedger(average, t, c);
    }
  }

  lemma {:induction false} PurchaseLedger(average: Averaging, t: Tables, c: Command)
    requires Journal.Sound(t.ledger) && (c.OrderReceipt? || c.GoodsReturn? || c.SupplierInvoice?)
    ensures Journal.Sound(After(average, t, c).ledger) && t.ledger <= After(average, t, c).ledger
  {
    if Apply(average, t, c).Success? {
      match c
      case OrderReceipt(id, date, warehouse, wants) => ReceiveOrderDoes(t, id, date, warehouse, wants);
      case GoodsReturn(id, date, warehouse, wants) => CreateReturnDoes(average, t, id, date, warehouse, wants);
      case SupplierInvoice(supplier, date, due, accept, invoiced) => CreateInvoiceDoes(t, supplier, date, due, accept, invoiced);
    }
  }

  /** Over every run: order counters and statuses are in step, settlements stay within bounds and links hold,
      and every entry in the ledger has two or more one-sided lines that balance. */
  lemma {:induction false} RunHolds(average: Averaging, commands: seq<Command>)
    ensures OrdersHold(Run(average, commands))
    ensures PartiesHold(Run(average, commands))
    ensures Journal.Sound(Run(average, commands).ledger)
  {
    if commands != [] {
      var before, c := commands[..|commands| - 1], commands[|commands| - 1];
      RunHolds(average, before);
      StepOrders(average, Run(average, before), c);
      StepParties(average, Run(average, before), c);
      StepLedger(average, Run(average, before), c);
    }
  }

  /** Over every run, and however the averages are rounded, the Inventory account is the stock sub-ledger less
      exactly what the zero floor of counts added, plus what documents put on it by naming it themselves. */
  lemma {:induction false} InventoryTies(average: Averaging, commands: seq<Command>)
    ensures NetDebit(Run(average, commands).ledger, Mapped(Role.Inventory))
         == StockValue(Run(average, commands).stock) - FloorAddedBy(average, commands) + PutBy(average, commands, Mapped(Role.Inventory), FAR_FUTURE)
  {
    if commands != [] {
      var before, c := commands[..|commands| - 1], commands[|commands| - 1];
      InventoryTies(average, before);
      RunHolds(average, before);
      StepKeeps(average, Run(average, before), c);
    }
  }

  /** So the two are equal when no floor ever binds and no document names the account. */
  lemma {:induction false} InventoryTiesUnnamed(average: Averaging, commands: seq<Command>)
    requires Unnamed(commands, Mapped(Role.Inventory))
    ensures NetDebit(Run(average, commands).ledger, Mapped(Role.Inventory))
         == StockValue(Run(average, commands).stock) - FloorAddedBy(average, commands)
  {
    InventoryTies(average, commands);
    UnnamedPutsNothing(average, commands, Mapped(Role.Inventory), FAR_FUTURE);
  }

  /** Over every run GRNI's credit is direct receipts plus what is received and not invoiced at the order
      price, plus exactly the rounding of the lines posted to it, less what documents put on it by naming it. */
  lemma {:induction false} GrniTies(average: Averaging, commands: seq<Command>)
    ensures GrniGap(Run(average, commands)) == -SCALE * PutBy(average, commands, Mapped(Grni), FAR_FUTURE)
  {
    if commands != [] {
      var before, c := commands[..|commands| - 1], commands[|commands| - 1];
      GrniTies(average, before);
      RunHolds(average, before);
      StepKeeps(average, Run(average, before), c);
    }
  }

  /** Over every run, on every day, each party control account is what the party statements say is owed, plus what
      documents put on it by naming it. */
  lemma {:induction false} ControlTies(average: Averaging, commands: seq<Command>, side: Side, day: Day)
    ensures ControlGap(Run(average, commands), side, day) == PutBy(average, commands, Control(side), day)
  {
    if commands != [] {
      var before, c := commands[..|commands| - 1], commands[|commands| - 1];
      ControlTies(average, before, side, day);
      RunHolds(average, before);
      StepKeepsControl(average, Run(average, before), c, side, day);
    }
  }

  lemma {:induction false} StepKeepsControl(average: Averaging, t: Tables, c: Command, side: Side, day: Day)
    requires OrderRows(t)
    ensures ControlGap(After(average, t, c), side, day)
         == ControlGap(t, side, day) + if Apply(average, t, c).Success? && DateOf(c) <= day then NamedNet(c, Control(side)) else 0
  {
    StepKeeps(average, t, c);
  }
}
