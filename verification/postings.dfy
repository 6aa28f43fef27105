/** The ledger of every run, account by account, from what its documents say. */
module Postings {
  import opened Sums
  import opened Journal
  import opened Rounding
  import opened WeightedAverage
  import opened Books
  import opened Purchasing
  import opened SupplierInvoicing
  import opened History
  import opened Reconciliation
  import opened StockEffects
  import opened DocumentEffects
  import opened GoodsEffects

  function DirectWorth(l: DirectLine): int { ValueOf(l.quantity, l.unitCost) }

  /** What an accepted command books on an account, from t to u. */
  ghost function Booked(t: Tables, u: Tables, c: Command, a: Account): int
  {
    match c
    case DirectReceipt(_, goods) => ReceiptOn(a, SumBy(goods, DirectWorth))
    case StockIssue(_, _) => ConsumedOn(a, StockValue(t.stock) - StockValue(u.stock))
    case CountPosted(id) =>
      if id < |t.counts| then
        var lines := t.counts[id].lines;
        CountOn(a, Lost(t.stock, lines, |lines|), Gained(t.stock, lines, |lines|))
      else 0
    case OrderReceipt(_, _, _, wants) => ReceiptOn(a, SumBy(wants, WantWorth(t.orderLines)))
    case GoodsReturn(_, _, _, wants) =>
      ReturnOn(a, ReturnedWorth(t.orderLines, wants, |t.orderLines|), StockValue(t.stock) - StockValue(u.stock))
    case SupplierInvoice(_, _, _, _, invoiced) => InvoiceOn(a, t.orderLines, invoiced)
    case Sale(_, _, _, sold) => SaleOn(a, sold, StockValue(t.stock) - StockValue(u.stock))
    case Note(side, kind, _, _, priced) => NoteBookedOn(a, side, kind, priced)
    case Pay(side, _, _, amount, cash, _) => PaymentOn(a, side, cash, amount)
    case _ => 0
  }

  /** The day it books it on: the document's, or the recorded count's. */
  function BookedOn(t: Tables, c: Command): Day
  {
    match c
    case DirectReceipt(date, _) => date
    case StockIssue(date, _) => date
    case CountPosted(id) => if id < |t.counts| then t.counts[id].date else 0
    case OrderReceipt(_, date, _, _) => date
    case GoodsReturn(_, date, _, _) => date
    case SupplierInvoice(_, date, _, _, _) => date
    case Sale(_, date, _, _) => date
    case Note(_, _, _, date, _) => date
    case Pay(_, _, date, _, _, _) => date
    case _ => 0
  }

  /** What the accepted commands of a run booked by a day. */
  ghost function EverBooked(average: Averaging, commands: seq<Command>, a: Account, day: Day): int
  {
    if commands == [] then 0
    else
      var before, c := commands[..|commands| - 1], commands[|commands| - 1];
      var t := Run(average, before);
      var r := Apply(average, t, c);
      EverBooked(average, before, a, day) + if r.Success? && BookedOn(t, c) <= day then Booked(t, r.value, c, a) else 0
  }

  /** The balance by a day moves by what is booked, if it is booked by then. */
  ghost predicate Moves(t: Tables, u: Tables, date: Day, booked: int, a: Account, day: Day)
  {
    NetUpTo(u.ledger, a, day) == NetUpTo(t.ledger, a, day) + if date <= day then booked else 0
  }

  lemma {:induction false} OneMoreMoves(t: Tables, u: Tables, date: Day, booked: int, a: Account, day: Day)
    requires OneMore(t.ledger, u.ledger, date) && Net(u.ledger[|t.ledger|].lines, a) == booked
    ensures Moves(t, u, date, booked, a, day)
  {
    NetUpToSnoc(t.ledger, u.ledger[|t.ledger|], a, day);
    assert u.ledger == t.ledger + [u.ledger[|t.ledger|]];
  }

  lemma {:induction false} DirectWorths(goods: seq<DirectLine>)
    ensures SumBy(DirectInputs(goods), ReceiptWorth) == SumBy(goods, DirectWorth)
  {
    if goods != [] {
      var n := |goods| - 1;
      DirectWorths(goods[..n]);
      assert DirectInputs(goods)[..n] == DirectInputs(goods[..n]);
    }
  }

  lemma {:induction false} GoodsMove(average: Averaging, t: Tables, c: Command, a: Account, day: Day)
    requires (c.DirectReceipt? || c.StockIssue? || c.CountPosted?) && Apply(average, t, c).Success?
    ensures Moves(t, Apply(average, t, c).value, BookedOn(t, c), Booked(t, Apply(average, t, c).value, c, a), a, day)
  {
    var u := Apply(average, t, c).value;
    match c
    case DirectReceipt(date, goods) =>
      ReceiptBooks(t, date, DirectInputs(goods), a);
      DirectWorths(goods);
      OneMoreMoves(t, u, date, ReceiptOn(a, SumBy(goods, DirectWorth)), a, day);
    case StockIssue(date, issues) =>
      IssueBooks(average, t, date, issues, a);
      OneMoreMoves(t, u, date, ConsumedOn(a, StockValue(t.stock) - StockValue(u.stock)), a, day);
    case CountPosted(id) =>
      var lines := t.counts[id].lines;
      var lost, gained := Lost(t.stock, lines, |lines|), Gained(t.stock, lines, |lines|);
      CountBooks(t, id, a);
      if lost != 0 || gained != 0 {
        OneMoreMoves(t, u, t.counts[id].date, CountOn(a, lost, gained), a, day);
      }
  }

  lemma {:induction false} OrderMoves(average: Averaging, t: Tables, c: Command, a: Account, day: Day)
    requires OrderRows(t) && (c.OrderReceipt? || c.GoodsReturn?) && Apply(average, t, c).Success?
    ensures Moves(t, Apply(average, t, c).value, BookedOn(t, c), Booked(t, Apply(average, t, c).value, c, a), a, day)
  {
    var u := Apply(average, t, c).value;
    match c
    case OrderReceipt(id, date, warehouse, wants) =>
      ReceiveOrderDoes(t, id, date, warehouse, wants);
      OrderReceiptBooks(t, u, id, date, warehouse, wants, a);
      OneMoreMoves(t, u, date, ReceiptOn(a, SumBy(wants, WantWorth(t.orderLines))), a, day);
    case GoodsReturn(id, date, warehouse, wants) =>
      CreateReturnDoes(average, t, id, date, warehouse, wants);
      ReturnBooks(average, t, u, id, date, warehouse, wants, a);
      OneMoreMoves(t, u, date, ReturnOn(a, ReturnedWorth(t.orderLines, wants, |t.orderLines|), StockValue(t.stock) - StockValue(u.stock)), a, day);
  }

  lemma {:induction false} InvoiceMoves(average: Averaging, t: Tables, c: Command, a: Account, day: Day)
    requires c.SupplierInvoice? && Apply(average, t, c).Success?
    ensures Moves(t, Apply(average, t, c).value, BookedOn(t, c), Booked(t, Apply(average, t, c).value, c, a), a, day)
  {
    var u := Apply(average, t, c).value;
    CreateInvoiceDoes(t, c.supplier, c.date, c.due, c.acceptVariance, c.invoiced);
    InvoiceBooks(t, u, c.supplier, c.date, c.due, c.invoiced, a);
    OneMoreMoves(t, u, c.date, InvoiceOn(a, t.orderLines, c.invoiced), a, day);
  }

  lemma {:induction false} PartyMoves(average: Averaging, t: Tables, c: Command, a: Account, day: Day)
    requires (c.Sale? || c.Note? || c.Pay?) && Apply(average, t, c).Success?
    ensures Moves(t, Apply(average, t, c).value, BookedOn(t, c), Booked(t, Apply(average, t, c).value, c, a), a, day)
  {
    var u := Apply(average, t, c).value;
    match c
    case Sale(customer, date, due, sold) =>
      SaleBooks(average, t, customer, date, due, sold, a);
      OneMoreMoves(t, u, date, SaleOn(a, sold, StockValue(t.stock) - StockValue(u.stock)), a, day);
    case Note(side, kind, original, date, priced) =>
      NoteBooks(t, side, kind, original, date, priced, a);
      OneMoreMoves(t, u, date, NoteBookedOn(a, side, kind, priced), a, day);
    case Pay(side, party, date, amount, cash, allocations) =>
      PaymentBooks(t, side, party, date, amount, cash, allocations, a);
      OneMoreMoves(t, u, date, PaymentOn(a, side, cash, amount), a, day);
  }

  lemma {:induction false} StepMoves(average: Averaging, t: Tables, c: Command, a: Account, day: Day)
    requires OrderRows(t) && Apply(average, t, c).Success?
    ensures Moves(t, Apply(average, t, c).value, BookedOn(t, c), Booked(t, Apply(average, t, c).value, c, a), a, day)
  {
    if c.DirectReceipt? || c.StockIssue? || c.CountPosted? {
      GoodsMove(average, t, c, a, day);
    } else if c.OrderReceipt? || c.GoodsReturn? {
      OrderMoves(average, t, c, a, day);
    } else if c.SupplierInvoice? {
      InvoiceMoves(average, t, c, a, day);
    } else if c.Sale? || c.Note? || c.Pay? {
      PartyMoves(average, t, c, a, day);
    }
  }

  /** On every run, for every account and on every day, the ledger's balance is exactly what the accepted documents dated
      by then say. */
  lemma {:induction false} LedgerIsBooked(average: Averaging, commands: seq<Command>, a: Account, day: Day)
    ensures NetUpTo(Run(average, commands).ledger, a, day) == EverBooked(average, commands, a, day)
  {
    if commands != [] {
      var before, c := commands[..|commands| - 1], commands[|commands| - 1];
      LedgerIsBooked(average, before, a, day);
      RunHolds(average, before);
      if Apply(average, Run(average, before), c).Success? {
        StepMoves(average, Run(average, before), c, a, day);
      }
    }
  }
}
