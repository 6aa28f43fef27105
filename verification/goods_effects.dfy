/** What receipts, issues, counts and returns book on every account, what they count on an order's lines, and when
    they are accepted, read off their input; and the orders themselves. */
module GoodsEffects {
  import opened Sums
  import opened Journal
  import opened Rounding
  import opened WeightedAverage
  import opened Books
  import opened Invoicing
  import opened Inventory
  import opened Purchasing
  import opened StockEffects
  import opened DocumentEffects

  // ---- orders ----

  /** A placed order keeps its lines as they were asked for, nothing received or invoiced, and waits or not as asked. */
  lemma {:induction false} OrderPlaces(t: Tables, supplier: nat, lines: seq<OrderInput>, needsApproval: bool)
    ensures PlaceOrder(t, supplier, lines, needsApproval).Success? <==> lines != [] && forall i :: 0 <= i < |lines| ==> 0 < lines[i].quantity
    ensures PlaceOrder(t, supplier, lines, needsApproval).Success? ==>
      var u, n := PlaceOrder(t, supplier, lines, needsApproval).value, |t.orderLines|;
      && u == t.(orders := u.orders, orderLines := u.orderLines)
      && |u.orders| == |t.orders| + 1 && u.orders[..|t.orders|] == t.orders
      && |u.orderLines| == n + |lines| && u.orderLines[..n] == t.orderLines
      && var o := u.orders[|t.orders|];
         && o.supplier == supplier && o.first == n && o.count == |lines|
         && (if needsApproval then o.status == PendingApproval else o.status == Approved)
         && forall i :: 0 <= i < |lines| ==>
              var l := u.orderLines[n + i];
              && l.item == lines[i].item && l.ordered == lines[i].quantity && l.price == lines[i].price
              && l.order == |t.orders| && l.received == 0 && l.invoiced == 0
  {
  }

  /** Only that order's status changes, to what was decided. */
  ghost predicate StatusSet(t: Tables, u: Tables, id: nat, status: OrderStatus)
  {
    && id < |t.orders| && u == t.(orders := u.orders) && |u.orders| == |t.orders|
    && forall i :: 0 <= i < |t.orders| ==> u.orders[i] == if i == id then t.orders[i].(status := status) else t.orders[i]
  }

  /** A pending order, and no other, can be decided on: approving approves it, anything else rejects it. */
  lemma {:induction false} OrderDecides(t: Tables, id: nat, approve: bool)
    ensures DecideOrder(t, id, approve).Success? <==> id < |t.orders| && t.orders[id].status == PendingApproval
    ensures DecideOrder(t, id, true).Success? ==> StatusSet(t, DecideOrder(t, id, true).value, id, Approved)
    ensures DecideOrder(t, id, false).Success? ==> StatusSet(t, DecideOrder(t, id, false).value, id, Rejected)
  {
  }

  /** An order that is pending or approved, and no other, can be cancelled. */
  lemma {:induction false} OrderCancels(t: Tables, id: nat)
    ensures CancelOrder(t, id).Success? <==> id < |t.orders| && (t.orders[id].status == PendingApproval || t.orders[id].status == Approved)
    ensures CancelOrder(t, id).Success? ==> StatusSet(t, CancelOrder(t, id).value, id, Cancelled)
  {
  }

  // ---- receipts ----

  function ReceiptOn(a: Account, worth: int): int { On(a, Mapped(Role.Inventory), worth) - On(a, Mapped(Grni), worth) }

  /** A receipt books its goods' worth on Inventory, owed to GRNI, and keeps a row of each line. */
  lemma {:induction false} ReceiptBooks(t: Tables, date: Day, lines: seq<ReceiptInput>, a: Account)
    requires CreateReceipt(t, date, lines).Success?
    ensures var u, worth := CreateReceipt(t, date, lines).value, SumBy(lines, ReceiptWorth);
      && OneMore(t.ledger, u.ledger, date)
      && Net(u.ledger[|t.ledger|].lines, a) == ReceiptOn(a, worth)
      && u == t.(stock := u.stock, receipts := u.receipts, ledger := u.ledger)
      && |u.receipts| == |t.receipts| + |lines| && u.receipts[..|t.receipts|] == t.receipts
      && forall i :: 0 <= i < |lines| ==>
           u.receipts[|t.receipts| + i]
             == ReceiptLine(lines[i].slot, lines[i].orderLine, lines[i].quantity, lines[i].unitCost, ValueOf(lines[i].quantity, lines[i].unitCost))
  {
    ReceiptDoes(t, date, lines);
    ReceiptLinesAccept(t.stock, lines);
    ReceiveLinesMove(t.stock, lines);
    PairShape(Mapped(Role.Inventory), Mapped(Grni), SumBy(lines, ReceiptWorth));
  }

  function AskedOf(i: nat): Want -> int { (w: Want) => if w.line == i then w.quantity else 0 }

  lemma {:induction false} RequestedIs(wants: seq<Want>, i: nat)
    ensures Distinct(Requested(wants)) && Get(Requested(wants), i) == SumBy(wants, AskedOf(i))
  {
    if wants != [] {
      var n := |wants| - 1;
      RequestedIs(wants[..n], i);
      AddEffect(Requested(wants[..n]), wants[n].line, wants[n].quantity);
    }
  }

  /** A receipt against an order books its goods at the order's prices. */
  lemma {:induction false} OrderReceiptBooks(t: Tables, u: Tables, id: nat, date: Day, warehouse: nat, wants: seq<Want>, a: Account)
    requires ReceivedFrom(t, u, id, date, warehouse, wants)
    ensures var worth := SumBy(wants, WantWorth(t.orderLines));
      && OneMore(t.ledger, u.ledger, date)
      && Net(u.ledger[|t.ledger|].lines, a) == ReceiptOn(a, worth)
  {
    var inputs := ReceiptInputs(t.orderLines, warehouse, wants);
    OrderInputSums(t.orderLines, warehouse, wants, Slot(0, 0));
    ReceiptLinesAccept(t.stock, inputs);
    PairShape(Mapped(Role.Inventory), Mapped(Grni), SumBy(inputs, ReceiptWorth));
  }

  /** It counts as received, line by line, what was asked for. */
  lemma {:induction false} OrderReceiptCounts(t: Tables, u: Tables, id: nat, date: Day, warehouse: nat, wants: seq<Want>, i: nat)
    requires ReceivedFrom(t, u, id, date, warehouse, wants) && i < |t.orderLines|
    ensures |u.orderLines| == |t.orderLines|
    ensures u.orderLines[i] == t.orderLines[i].(received := t.orderLines[i].received + SumBy(wants, AskedOf(i)))
  {
    RequestedIs(wants, i);
    MovedLine(t.orderLines, Requested(wants), Move.Receipt, i);
  }

  predicate Asks(wants: seq<Want>, i: nat) { exists j :: 0 <= j < |wants| && wants[j].line == i }

  lemma {:induction false} AsksLast(wants: seq<Want>, i: nat)
    requires wants != []
    ensures Asks(wants, i) <==> Asks(wants[..|wants| - 1], i) || wants[|wants| - 1].line == i
  {
    var before := wants[..|wants| - 1];
    if Asks(wants, i) && wants[|wants| - 1].line != i {
      var j :| 0 <= j < |wants| && wants[j].line == i;
      assert before[j].line == i;
    }
    if Asks(before, i) {
      var j :| 0 <= j < |before| && before[j].line == i;
      assert wants[j].line == i;
    }
  }

  lemma {:induction false} RequestedNames(wants: seq<Want>, i: nat)
    ensures Distinct(Requested(wants)) && (Keeps(Requested(wants), i) <==> Asks(wants, i))
  {
    if wants != [] {
      var n := |wants| - 1;
      RequestedNames(wants[..n], i);
      AsksLast(wants, i);
      AddKeeps(Requested(wants[..n]), wants[n].line, wants[n].quantity, i);
      AddEffect(Requested(wants[..n]), wants[n].line, wants[n].quantity);
    }
  }

  /** What is asked of each line, added up, is within what it has left. */
  predicate WithinLeft(lines: seq<OrderLine>, wants: seq<Want>, left: OrderLine -> int)
  {
    forall i :: 0 <= i < |lines| && Asks(wants, i) ==> SumBy(wants, AskedOf(i)) <= left(lines[i])
  }

  lemma {:induction false} FitsIsLeft(o: Order, lines: seq<OrderLine>, wants: seq<Want>, left: OrderLine -> int)
    requires AllOn(o, wants) && o.first + o.count <= |lines|
    ensures Fits(Requested(wants), lines, left) <==> WithinLeft(lines, wants, left)
  {
    var t := Requested(wants);
    RequestedOnOrder(o, wants);
    if Fits(t, lines, left) {
      forall i | 0 <= i < |lines| && Asks(wants, i) ensures SumBy(wants, AskedOf(i)) <= left(lines[i]) {
        RequestedNames(wants, i);
        RequestedIs(wants, i);
        assert t[IndexOf(t, i)].0 == i;
      }
    }
    if WithinLeft(lines, wants, left) {
      forall j | 0 <= j < |t| ensures t[j].1 <= left(LineAt(lines, t[j].0)) {
        RequestedNames(wants, t[j].0);
        RequestedIs(wants, t[j].0);
        IndexOfFound(t, j);
      }
    }
  }

  function Unreceived(l: OrderLine): int { l.ordered - l.received }
  function Uninvoiced(l: OrderLine): int { l.received - l.invoiced }

  predicate OnLines(o: Order, wants: seq<Want>)
  {
    forall i :: 0 <= i < |wants| ==> o.first <= wants[i].line < o.first + o.count
  }

  /** The left-over functions of the services are these. */
  lemma {:induction false} LeftIs(t: Tally<nat>, lines: seq<OrderLine>)
    ensures Fits(t, lines, LeftToReceive) <==> Fits(t, lines, Unreceived)
    ensures Fits(t, lines, LeftToInvoice) <==> Fits(t, lines, Uninvoiced)
  {
    forall i | 0 <= i < |t|
      ensures LeftToReceive(LineAt(lines, t[i].0)) == Unreceived(LineAt(lines, t[i].0))
      ensures LeftToInvoice(LineAt(lines, t[i].0)) == Uninvoiced(LineAt(lines, t[i].0)) {}
  }

  /** A receipt against an order is accepted exactly when the order is approved or partly received, the lines are its own,
      what is asked of each, added up, was ordered and not yet received, every quantity is positive and the goods are
      worth something. */
  lemma {:induction false} OrderReceiptAccepted(t: Tables, id: nat, date: Day, warehouse: nat, wants: seq<Want>)
    requires OrderRows(t)
    ensures ReceiveOrder(t, id, date, warehouse, wants).Success? <==>
      && id < |t.orders| && (t.orders[id].status == Approved || t.orders[id].status == PartiallyReceived)
      && OnLines(t.orders[id], wants) && WithinLeft(t.orderLines, wants, Unreceived)
      && (forall i :: 0 <= i < |wants| ==> 0 < wants[i].quantity) && 0 < SumBy(wants, WantWorth(t.orderLines))
  {
    var inputs := ReceiptInputs(t.orderLines, warehouse, wants);
    ReceiptAccepts(t, date, inputs);
    OrderInputSums(t.orderLines, warehouse, wants, Slot(0, 0));
    assert forall i :: 0 <= i < |wants| ==> inputs[i].quantity == wants[i].quantity;
    if id < |t.orders| && OnLines(t.orders[id], wants) {
      LeftIs(Requested(wants), t.orderLines);
      FitsIsLeft(t.orders[id], t.orderLines, wants, Unreceived);
    }
  }

  // ---- issues ----

  function ConsumedOn(a: Account, cost: int): int { On(a, Mapped(ProjectExpense), cost) - On(a, Mapped(Role.Inventory), cost) }

  /** An issue moves the cost of what left stock from Inventory to the project. */
  lemma {:induction false} IssueBooks(average: Averaging, t: Tables, date: Day, lines: seq<IssueInput>, a: Account)
    requires CreateIssue(average, t, date, lines).Success?
    ensures var u := CreateIssue(average, t, date, lines).value;
      var cost := StockValue(t.stock) - StockValue(u.stock);
      && OneMore(t.ledger, u.ledger, date) && u == t.(stock := u.stock, ledger := u.ledger)
      && Net(u.ledger[|t.ledger|].lines, a) == ConsumedOn(a, cost)
  {
    IssueLinesMove(average, t.stock, lines);
    PairShape(Mapped(ProjectExpense), Mapped(Role.Inventory), Cost(IssueLines(average, t.stock, lines).value));
  }

  function StockAfter(average: Averaging, stock: Stock, lines: seq<IssueInput>): Stock
  {
    var r := IssueLines(average, stock, lines);
    if r.Success? then r.value.stock else stock
  }

  /** An issue is accepted exactly when every quantity is positive, every row has what is asked of it, and what leaves is
      worth something. */
  lemma {:induction false} IssueAccepted(average: Averaging, t: Tables, date: Day, lines: seq<IssueInput>)
    ensures CreateIssue(average, t, date, lines).Success? <==>
      && AllPositive(lines) && OnHand(t.stock, lines)
      && StockValue(StockAfter(average, t.stock, lines)) < StockValue(t.stock)
  {
    IssueAccepts(average, t.stock, lines);
    if IssueLines(average, t.stock, lines).Success? {
      IssueLinesMove(average, t.stock, lines);
      PairShape(Mapped(ProjectExpense), Mapped(Role.Inventory), Cost(IssueLines(average, t.stock, lines).value));
    }
  }

  // ---- counts ----

  function CountOn(a: Account, lost: int, gained: int): int
  {
    On(a, Mapped(CountLoss), lost) - On(a, Mapped(CountGain), gained) + On(a, Mapped(Role.Inventory), gained - lost)
  }

  lemma {:induction false} CountNet(shortage: int, surplus: int, a: Account)
    ensures Net(CountEntry(shortage, surplus), a) == CountOn(a, shortage, surplus)
  {
    NetConcat(DrIf(Mapped(CountLoss), shortage), CrIf(Mapped(CountGain), surplus), a);
    NetConcat(DrIf(Mapped(CountLoss), shortage) + CrIf(Mapped(CountGain), surplus), DrSigned(Mapped(Role.Inventory), surplus - shortage), a);
  }

  lemma {:induction false} GainsAndLosses(stock: Stock, lines: seq<CountLine>, n: nat)
    requires n <= |lines|
    ensures 0 <= Gained(stock, lines, n) && 0 <= Lost(stock, lines, n)
  {
    if n > 0 {
      GainsAndLosses(stock, lines, n - 1);
    }
  }

  /** Posting a recorded count books what its rows lost on the loss account, what they gained on the gain account and the
      difference on Inventory, on the day of the count; a count that found no difference in value books nothing. */
  lemma {:induction false} CountBooks(t: Tables, id: nat, a: Account)
    requires PostCount(t, id).Success?
    ensures var u, count := PostCount(t, id).value, t.counts[id];
      var (lost, gained) := (Lost(t.stock, count.lines, |count.lines|), Gained(t.stock, count.lines, |count.lines|));
      && u == t.(stock := u.stock, counts := t.counts[id := count.(posted := true)], ledger := u.ledger)
      && if lost == 0 && gained == 0 then u.ledger == t.ledger
         else
           && OneMore(t.ledger, u.ledger, count.date)
           && Net(u.ledger[|t.ledger|].lines, a) == CountOn(a, lost, gained)
  {
    var lines := t.counts[id].lines;
    CountReports(t.stock, lines);
    GainsAndLosses(t.stock, lines, |lines|);
    CountNet(Lost(t.stock, lines, |lines|), Gained(t.stock, lines, |lines|), a);
  }

  // ---- returns ----

  /** What is given back of the first n order lines, at the order's prices: each line's own total is rounded once. */
  function ReturnedWorth(orderLines: seq<OrderLine>, wants: seq<Want>, n: nat): int
    requires n <= |orderLines|
  {
    if n == 0 then 0
    else ReturnedWorth(orderLines, wants, n - 1) + ValueOf(SumBy(wants, AskedOf(n - 1)), orderLines[n - 1].price)
  }

  function EntryWorth(orderLines: seq<OrderLine>): ((nat, int)) -> int { (e: (nat, int)) => ValueOf(e.1, PriceOn(orderLines, e.0)) }

  lemma {:induction false} NothingWorth(price: int)
    ensures ValueOf(0, price) == 0
  {
    RoundDivExact(0, SCALE);
  }

  /** A function of the keys below n and their totals, added up. */
  function OverKeys(t: Tally<nat>, f: ((nat, int)) -> int, n: nat): int
  {
    if n == 0 then 0 else OverKeys(t, f, n - 1) + f((n - 1, Get(t, n - 1)))
  }

  function Below(e: (nat, int), f: ((nat, int)) -> int, n: nat): int { if e.0 < n then f(e) else 0 }

  lemma {:induction false} OneLess(t: Tally<nat>, f: ((nat, int)) -> int, n: nat)
    requires t != [] && Distinct(t) && forall i: nat :: f((i, 0)) == 0
    ensures OverKeys(t, f, n) == OverKeys(t[..|t| - 1], f, n) + Below(t[|t| - 1], f, n)
  {
    if n > 0 {
      OneLess(t, f, n - 1);
      LastEntry(t, n - 1);
      assert f((n - 1, 0)) == 0;
    }
  }

  lemma {:induction false} NoKeys(f: ((nat, int)) -> int, n: nat)
    requires forall i: nat :: f((i, 0)) == 0
    ensures OverKeys([], f, n) == 0
  {
    if n > 0 {
      NoKeys(f, n - 1);
      assert f((n - 1, 0)) == 0;
    }
  }

  /** Summing over the entries of a tally is summing over the keys. */
  lemma {:induction false} EntriesAreKeys(t: Tally<nat>, f: ((nat, int)) -> int, n: nat)
    requires Counted(t, n) && forall i: nat :: f((i, 0)) == 0
    ensures SumBy(t, f) == OverKeys(t, f, n)
  {
    if t == [] {
      NoKeys(f, n);
    } else {
      var before := t[..|t| - 1];
      assert forall i :: 0 <= i < |before| ==> before[i] == t[i];
      EntriesAreKeys(before, f, n);
      OneLess(t, f, n);
      assert t[|t| - 1].0 < n;
    }
  }

  lemma {:induction false} RequestedWorth(orderLines: seq<OrderLine>, wants: seq<Want>, n: nat)
    requires n <= |orderLines|
    ensures OverKeys(Requested(wants), EntryWorth(orderLines), n) == ReturnedWorth(orderLines, wants, n)
  {
    if n > 0 {
      RequestedWorth(orderLines, wants, n - 1);
      RequestedIs(wants, n - 1);
      assert EntryWorth(orderLines)((n - 1, Get(Requested(wants), n - 1))) == ValueOf(SumBy(wants, AskedOf(n - 1)), orderLines[n - 1].price);
    }
  }

  lemma {:induction false} RecordsWorth(orderLines: seq<OrderLine>, entries: Tally<nat>, values: seq<nat>)
    ensures SumBy(ReturnRecords(orderLines, entries, values), OrderValueOf) == SumBy(entries, EntryWorth(orderLines))
  {
    var r := ReturnRecords(orderLines, entries, values);
    if entries != [] {
      var n := |entries| - 1;
      RecordsWorth(orderLines, entries[..n], values);
      assert r[..n] == ReturnRecords(orderLines, entries[..n], values);
      assert r[n] == ReturnRecord(orderLines, entries[n], if n < |values| then values[n] else 0);
    }
  }

  lemma {:induction false} KeysFit(t: Tally<nat>, m: nat, n: nat)
    requires Counted(t, m) && m <= n
    ensures Counted(t, n)
  {
  }

  lemma {:induction false} ReturnWorth(orderLines: seq<OrderLine>, o: Order, wants: seq<Want>, values: seq<nat>)
    requires AllOn(o, wants) && o.first + o.count <= |orderLines|
    ensures SumBy(ReturnRecords(orderLines, SortByItem(orderLines, Requested(wants)), values), OrderValueOf)
         == ReturnedWorth(orderLines, wants, |orderLines|)
  {
    var entries := Requested(wants);
    RequestedOnOrder(o, wants);
    RecordsWorth(orderLines, SortByItem(orderLines, entries), values);
    SortSum(orderLines, entries, EntryWorth(orderLines));
    forall i: nat ensures EntryWorth(orderLines)((i, 0)) == 0 {
      NothingWorth(PriceOn(orderLines, i));
    }
    KeysFit(entries, o.first + o.count, |orderLines|);
    EntriesAreKeys(entries, EntryWorth(orderLines), |orderLines|);
    RequestedWorth(orderLines, wants, |orderLines|);
  }

  function ReturnOn(a: Account, worth: int, cost: int): int
  {
    On(a, Mapped(Grni), worth) - On(a, Mapped(Role.Inventory), cost) + On(a, Mapped(PriceVariance), cost - worth)
  }

  lemma {:induction false} ReturnNet(orderValue: int, value: int, a: Account)
    ensures Net(ReturnEntry(orderValue, value), a) == ReturnOn(a, orderValue, value)
  {
    NetConcat(DrIf(Mapped(Grni), orderValue), CrIf(Mapped(Role.Inventory), value), a);
    NetConcat(DrIf(Mapped(Grni), orderValue) + CrIf(Mapped(Role.Inventory), value), DrSigned(Mapped(PriceVariance), value - orderValue), a);
  }

  /** The worth of the records a return keeps. */
  function RecordedWorth(orderLines: seq<OrderLine>, wants: seq<Want>, values: seq<nat>): int
  {
    SumBy(ReturnRecords(orderLines, SortByItem(orderLines, Requested(wants)), values), OrderValueOf)
  }

  lemma {:induction false} ReturnPosts(average: Averaging, t: Tables, u: Tables, id: nat, date: Day, warehouse: nat, wants: seq<Want>)
    requires ReturnedFrom(average, t, u, id, date, warehouse, wants)
    ensures var r := IssueLines(average, t.stock, ReturnInputs(t.orderLines, warehouse, wants));
      && r.Success? && u.stock == r.value.stock
      && u.ledger == t.ledger + [Entry(date, ReturnEntry(RecordedWorth(t.orderLines, wants, r.value.values), Cost(r.value)))]
  {
  }

  lemma {:induction false} ReturnPosted(before: Ledger, after: Ledger, date: Day, orderValue: int, value: int, worth: int, cost: int, a: Account)
    requires after == before + [Entry(date, ReturnEntry(orderValue, value))] && orderValue == worth && value == cost
    ensures OneMore(before, after, date)
    ensures Net(after[|before|].lines, a) == ReturnOn(a, worth, cost)
  {
    ReturnNet(orderValue, value, a);
  }

  lemma {:induction false} ReturnCost(average: Averaging, t: Tables, u: Tables, id: nat, date: Day, warehouse: nat, wants: seq<Want>)
    requires ReturnedFrom(average, t, u, id, date, warehouse, wants)
    ensures Cost(IssueLines(average, t.stock, ReturnInputs(t.orderLines, warehouse, wants)).value) == StockValue(t.stock) - StockValue(u.stock)
  {
    IssueLinesMove(average, t.stock, ReturnInputs(t.orderLines, warehouse, wants));
  }

  /** A return gives GRNI back its goods at the order's prices, takes their cost out of Inventory, and puts the difference
      on the variance account. */
  lemma {:induction false} ReturnBooks(average: Averaging, t: Tables, u: Tables, id: nat, date: Day, warehouse: nat, wants: seq<Want>, a: Account)
    requires OrderRows(t) && ReturnedFrom(average, t, u, id, date, warehouse, wants)
    ensures OneMore(t.ledger, u.ledger, date)
    ensures Net(u.ledger[|t.ledger|].lines, a)
         == ReturnOn(a, ReturnedWorth(t.orderLines, wants, |t.orderLines|), StockValue(t.stock) - StockValue(u.stock))
  {
    var r := IssueLines(average, t.stock, ReturnInputs(t.orderLines, warehouse, wants)).value;
    ReturnPosts(average, t, u, id, date, warehouse, wants);
    ReturnCost(average, t, u, id, date, warehouse, wants);
    ReturnWorth(t.orderLines, t.orders[id], wants, r.values);
    ReturnPosted(t.ledger, u.ledger, date, RecordedWorth(t.orderLines, wants, r.values), Cost(r),
                 ReturnedWorth(t.orderLines, wants, |t.orderLines|), StockValue(t.stock) - StockValue(u.stock), a);
  }

  /** It counts as no longer received, line by line, what was given back. */
  lemma {:induction false} ReturnCounts(average: Averaging, t: Tables, u: Tables, id: nat, date: Day, warehouse: nat, wants: seq<Want>, i: nat)
    requires ReturnedFrom(average, t, u, id, date, warehouse, wants) && i < |t.orderLines|
    ensures |u.orderLines| == |t.orderLines|
    ensures u.orderLines[i] == t.orderLines[i].(received := t.orderLines[i].received - SumBy(wants, AskedOf(i)))
  {
    RequestedIs(wants, i);
    MovedLine(t.orderLines, Requested(wants), Move.Return, i);
  }

  predicate EntriesPositive(t: Tally<nat>) { forall j :: 0 <= j < |t| ==> 0 < t[j].1 }

  predicate EachPositive(wants: seq<Want>)
  {
    forall i :: 0 <= i < |wants| ==> 0 < SumBy(wants, AskedOf(wants[i].line))
  }

  lemma {:induction false} RequestedPositive(wants: seq<Want>)
    ensures EntriesPositive(Requested(wants)) <==> EachPositive(wants)
  {
    var t := Requested(wants);
    if EntriesPositive(t) {
      forall i | 0 <= i < |wants| ensures 0 < SumBy(wants, AskedOf(wants[i].line)) {
        RequestedNames(wants, wants[i].line);
        RequestedIs(wants, wants[i].line);
        assert Asks(wants, wants[i].line);
        assert 0 < t[IndexOf(t, wants[i].line)].1;
      }
    }
    if EachPositive(wants) {
      forall j | 0 <= j < |t| ensures 0 < t[j].1 {
        RequestedNames(wants, t[j].0);
        RequestedIs(wants, t[j].0);
        IndexOfFound(t, j);
        var i :| 0 <= i < |wants| && wants[i].line == t[j].0;
      }
    }
  }

  lemma {:induction false} InsertPositive(lines: seq<OrderLine>, e: (nat, int), s: Tally<nat>)
    ensures EntriesPositive(Insert(lines, e, s)) <==> 0 < e.1 && EntriesPositive(s)
  {
    if s == [] {
      assert Insert(lines, e, s)[0] == e;
    } else {
      var before, last := s[..|s| - 1], s[|s| - 1];
      PositiveSnoc(before, last);
      assert before + [last] == s;
      if LineAt(lines, last.0).item <= LineAt(lines, e.0).item {
        PositiveSnoc(s, e);
      } else {
        InsertPositive(lines, e, before);
        PositiveSnoc(Insert(lines, e, before), last);
      }
    }
  }

  lemma {:induction false} PositiveSnoc(s: Tally<nat>, e: (nat, int))
    ensures EntriesPositive(s + [e]) <==> EntriesPositive(s) && 0 < e.1
  {
    var u := s + [e];
    if EntriesPositive(u) {
      assert forall j :: 0 <= j < |s| ==> s[j] == u[j];
      assert 0 < u[|s|].1;
    }
  }

  lemma {:induction false} SortPositive(lines: seq<OrderLine>, s: Tally<nat>)
    ensures EntriesPositive(SortByItem(lines, s)) <==> EntriesPositive(s)
  {
    if s != [] {
      var before, last := s[..|s| - 1], s[|s| - 1];
      SortPositive(lines, before);
      InsertPositive(lines, last, SortByItem(lines, before));
      PositiveSnoc(before, last);
      assert before + [last] == s;
    }
  }

  lemma {:induction false} ReturnInputsPositive(lines: seq<OrderLine>, warehouse: nat, wants: seq<Want>)
    ensures AllPositive(ReturnInputs(lines, warehouse, wants)) <==> EachPositive(wants)
  {
    var entries, inputs := SortByItem(lines, Requested(wants)), ReturnInputs(lines, warehouse, wants);
    RequestedPositive(wants);
    SortPositive(lines, Requested(wants));
    assert forall i :: 0 <= i < |entries| ==> inputs[i].quantity == entries[i].1;
    if AllPositive(inputs) {
      assert forall i :: 0 <= i < |entries| ==> 0 < entries[i].1;
    }
  }

  /** The goods of a return can leave exactly when something positive is asked of each line and every row holds what is
      asked of it. */
  lemma {:induction false} ReturnGoodsAccepted(average: Averaging, stock: Stock, lines: seq<OrderLine>, warehouse: nat, wants: seq<Want>)
    ensures IssueLines(average, stock, ReturnInputs(lines, warehouse, wants)).Success? <==>
      EachPositive(wants) && forall k: Slot :: SumBy(wants, AskedInto(lines, warehouse, k)) <= RowOf(stock, k).quantity
  {
    var inputs := ReturnInputs(lines, warehouse, wants);
    ReturnInputsPositive(lines, warehouse, wants);
    IssueAccepts(average, stock, inputs);
    forall k: Slot ensures SumBy(inputs, Issued(k)) == SumBy(wants, AskedInto(lines, warehouse, k)) {
      ReturnInputSums(lines, warehouse, wants, k);
    }
  }

  lemma {:induction false} ReturnShape(worth: int, cost: int)
    requires 0 <= worth && 0 <= cost
    ensures ValidShape(ReturnEntry(worth, cost)) <==> 0 < worth || 0 < cost
  {
    ReturnEntryAccepted(worth, cost);
  }

  lemma {:induction false} ReturnedNonNegative(orderLines: seq<OrderLine>, wants: seq<Want>, n: nat)
    requires n <= |orderLines|
    ensures 0 <= ReturnedWorth(orderLines, wants, n)
  {
    if n > 0 {
      ReturnedNonNegative(orderLines, wants, n - 1);
      AskedNonNegative(wants, n - 1);
    }
  }

  lemma {:induction false} AskedNonNegative(wants: seq<Want>, i: nat)
    ensures 0 <= SumBy(wants, AskedOf(i))
  {
    if wants != [] {
      AskedNonNegative(wants[..|wants| - 1], i);
    }
  }

  /** A return is accepted exactly when the order is received in part or whole, the lines are its own, what is asked of each,
      added up, is received and not yet invoiced, the goods can leave, and they are worth something to the order or to
      stock. */
  lemma {:induction false} ReturnAccepted(average: Averaging, t: Tables, id: nat, date: Day, warehouse: nat, wants: seq<Want>)
    requires OrderRows(t)
    ensures CreateReturn(average, t, id, date, warehouse, wants).Success? <==>
      && wants != [] && id < |t.orders|
      && (t.orders[id].status == PartiallyReceived || t.orders[id].status == OrderStatus.Received)
      && OnLines(t.orders[id], wants) && WithinLeft(t.orderLines, wants, Uninvoiced)
      && EachPositive(wants) && (forall k: Slot :: SumBy(wants, AskedInto(t.orderLines, warehouse, k)) <= RowOf(t.stock, k).quantity)
      && (0 < ReturnedWorth(t.orderLines, wants, |t.orderLines|)
          || StockValue(StockAfter(average, t.stock, ReturnInputs(t.orderLines, warehouse, wants))) < StockValue(t.stock))
  {
    ReturnGoodsAccepted(average, t.stock, t.orderLines, warehouse, wants);
    if id < |t.orders| && OnLines(t.orders[id], wants) {
      LeftIs(Requested(wants), t.orderLines);
      FitsIsLeft(t.orders[id], t.orderLines, wants, Uninvoiced);
      var r := IssueLines(average, t.stock, ReturnInputs(t.orderLines, warehouse, wants));
      if r.Success? {
        IssueLinesMove(average, t.stock, ReturnInputs(t.orderLines, warehouse, wants));
        ReturnWorth(t.orderLines, t.orders[id], wants, r.value.values);
        ReturnedNonNegative(t.orderLines, wants, |t.orderLines|);
        ReturnShape(ReturnedWorth(t.orderLines, wants, |t.orderLines|), Cost(r.value));
      }
    }
  }
}
