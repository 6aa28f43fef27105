/** Purchase orders, the receipts booked against them, and returns to the supplier. */
module Purchasing {
  import opened Wrappers
  import opened Sums
  import opened Journal
  import opened Rounding
  import opened WeightedAverage
  import opened Books
  import opened Invoicing
  import opened Inventory

  // ---- the order state machine ----

  datatype OrderInput = OrderInput(item: nat, quantity: nat, price: nat)

  function NewLines(order: nat, lines: seq<OrderInput>): (r: seq<OrderLine>)
    ensures |r| == |lines|
  {
    seq(|lines|, i requires 0 <= i < |lines| => OrderLine(order, lines[i].item, lines[i].quantity, lines[i].price, 0, 0))
  }

  function PlaceOrder(t: Tables, supplier: nat, lines: seq<OrderInput>, needsApproval: bool): Result<Tables, Refusal>
  {
    if lines == [] then Failure(Empty)
    else if exists i :: 0 <= i < |lines| && lines[i].quantity == 0 then Failure(BadLine(BadQuantity))
    else
      var order := Order(supplier, if needsApproval then PendingApproval else Approved, |t.orderLines|, |lines|);
      Success(t.(orders := t.orders + [order], orderLines := t.orderLines + NewLines(|t.orders|, lines)))
  }

  function WithStatus(orders: seq<Order>, id: nat, status: OrderStatus): seq<Order>
    requires id < |orders|
  {
    orders[id := orders[id].(status := status)]
  }

  function DecideOrder(t: Tables, id: nat, approve: bool): Result<Tables, Refusal>
  {
    if |t.orders| <= id then Failure(OrderNotFound)
    else if t.orders[id].status != PendingApproval then Failure(NotPendingApproval)
    else Success(t.(orders := WithStatus(t.orders, id, if approve then Approved else Rejected)))
  }

  function CancelOrder(t: Tables, id: nat): Result<Tables, Refusal>
  {
    if |t.orders| <= id then Failure(OrderNotFound)
    else if t.orders[id].status !in {PendingApproval, Approved} then Failure(NotCancellable)
    else Success(t.(orders := WithStatus(t.orders, id, Cancelled)))
  }

  function LineAt(lines: seq<OrderLine>, i: nat): OrderLine
  {
    if i < |lines| then lines[i] else OrderLine(0, 0, 0, 0, 0, 0)
  }

  predicate OnOrder(o: Order, line: nat)
  {
    o.first <= line < o.first + o.count
  }

  // ---- quantities asked for, per order line ----

  datatype Want = Want(line: nat, quantity: nat)

  /** The map `requested`: the same line may be named twice, the bound is on the sum. */
  function Requested(wants: seq<Want>): Tally<nat>
  {
    if wants == [] then []
    else
      var w := wants[|wants| - 1];
      Add(Requested(wants[..|wants| - 1]), w.line, w.quantity)
  }

  /** Each key once, on one of the first n rows, with a non-negative amount. */
  predicate Counted(t: Tally<nat>, n: nat)
  {
    Distinct(t) && forall i :: 0 <= i < |t| ==> t[i].0 < n && 0 <= t[i].1
  }

  lemma {:induction false} AddCounted(t: Tally<nat>, k: nat, v: nat, n: nat)
    requires Counted(t, n) && k < n
    ensures Counted(Add(t, k, v), n)
  {
    AddEffect(t, k, v);
  }

  predicate AllOn(o: Order, wants: seq<Want>)
  {
    forall i :: 0 <= i < |wants| ==> OnOrder(o, wants[i].line)
  }

  lemma {:induction false} RequestedOnOrder(o: Order, wants: seq<Want>)
    requires AllOn(o, wants)
    ensures Counted(Requested(wants), o.first + o.count)
    ensures forall i :: 0 <= i < |Requested(wants)| ==> OnOrder(o, Requested(wants)[i].0)
    ensures forall k :: !OnOrder(o, k) ==> Get(Requested(wants), k) == 0
  {
    if wants != [] {
      var n := |wants| - 1;
      RequestedOnOrder(o, wants[..n]);
      AddEffect(Requested(wants[..n]), wants[n].line, wants[n].quantity);
      AddCounted(Requested(wants[..n]), wants[n].line, wants[n].quantity, o.first + o.count);
    }
  }

  /** The running per-line sum, built and checked as the services do. */
  method SumRequested(o: Order, wants: seq<Want>) returns (r: Result<Tally<nat>, Refusal>)
    ensures r.Success? <==> AllOn(o, wants)
    ensures r.Success? ==> r.value == Requested(wants)
    ensures r.Failure? ==> r.error == LineNotOnOrder
  {
    var requested := [];
    for i := 0 to |wants|
      invariant forall j :: 0 <= j < i ==> OnOrder(o, wants[j].line)
      invariant requested == Requested(wants[..i])
    {
      if !OnOrder(o, wants[i].line) {
        return Failure(LineNotOnOrder);
      }
      assert wants[..i + 1][..i] == wants[..i];
      requested := Add(requested, wants[i].line, wants[i].quantity);
    }
    assert wants[..|wants|] == wants;
    return Success(requested);
  }

  datatype Move = Receipt | Return | Invoicing

  function MoveOne(l: OrderLine, move: Move, quantity: int): OrderLine
  {
    match move
    case Receipt => l.(received := l.received + quantity)
    case Return => l.(received := l.received - quantity)
    case Invoicing => l.(invoiced := l.invoiced + quantity)
  }

  function MoveAt(lines: seq<OrderLine>, t: Tally<nat>, move: Move, i: nat): OrderLine
    requires i < |lines|
  {
    MoveOne(lines[i], move, Get(t, i))
  }

  /** Every order line's counter moved by what the tally holds for it. */
  function Moved(lines: seq<OrderLine>, t: Tally<nat>, move: Move): (r: seq<OrderLine>)
    ensures |r| == |lines|
  {
    seq(|lines|, i requires 0 <= i < |lines| => MoveAt(lines, t, move, i))
  }

  lemma {:induction false} MovedLine(lines: seq<OrderLine>, t: Tally<nat>, move: Move, i: nat)
    requires i < |lines|
    ensures Moved(lines, t, move)[i] == MoveAt(lines, t, move, i)
  {
  }

  predicate AllReceived(lines: seq<OrderLine>, o: Order)
  {
    forall i :: o.first <= i < o.first + o.count && i < |lines| ==> lines[i].ordered <= lines[i].received
  }

  predicate AnyReceived(lines: seq<OrderLine>, o: Order)
  {
    exists i :: o.first <= i < o.first + o.count && i < |lines| && 0 < lines[i].received
  }

  function LeftToReceive(l: OrderLine): int { l.ordered - l.received }
  function LeftToInvoice(l: OrderLine): int { l.received - l.invoiced }

  /** Every requested sum fits what its line has left. */
  predicate Fits(t: Tally<nat>, lines: seq<OrderLine>, left: OrderLine -> int)
  {
    forall i :: 0 <= i < |t| ==> t[i].1 <= left(LineAt(lines, t[i].0))
  }

  // ---- receiving against an order ----

  function ReceiptInputs(lines: seq<OrderLine>, warehouse: nat, wants: seq<Want>): (r: seq<ReceiptInput>)
    ensures |r| == |wants|
  {
    seq(|wants|, i requires 0 <= i < |wants| =>
      ReceiptInput(Slot(LineAt(lines, wants[i].line).item, warehouse), Some(wants[i].line), wants[i].quantity, LineAt(lines, wants[i].line).price))
  }

  function ReceiveOrder(t: Tables, id: nat, date: Day, warehouse: nat, wants: seq<Want>): Result<Tables, Refusal>
  {
    if wants == [] then Failure(Empty)
    else if |t.orders| <= id then Failure(OrderNotFound)
    else
      var o := t.orders[id];
      if o.status !in {Approved, PartiallyReceived} then Failure(OrderNotReceivable)
      else if !AllOn(o, wants) then Failure(LineNotOnOrder)
      else if !Fits(Requested(wants), t.orderLines, LeftToReceive) then Failure(OverReceipt)
      else
        var r :- CreateReceipt(t, date, ReceiptInputs(t.orderLines, warehouse, wants));
        var lines := Moved(t.orderLines, Requested(wants), Move.Receipt);
        Success(r.(orderLines := lines,
                   orders := WithStatus(t.orders, id, StatusAfterReceipt(lines, o))))
  }

  function StatusAfterReceipt(lines: seq<OrderLine>, o: Order): OrderStatus
  {
    if AllReceived(lines, o) then OrderStatus.Received else PartiallyReceived
  }

  /** What an accepted receipt against an order has done to the tables. */
  ghost predicate ReceivedFrom(t: Tables, u: Tables, id: nat, date: Day, warehouse: nat, wants: seq<Want>)
  {
    var r := ReceiveLines(t.stock, ReceiptInputs(t.orderLines, warehouse, wants));
    && id < |t.orders| && t.orders[id].status in {Approved, PartiallyReceived}
    && AllOn(t.orders[id], wants) && Fits(Requested(wants), t.orderLines, LeftToReceive)
    && r.Success? && ValidShape(ReceiptEntry(r.value.total))
    && u.stock == r.value.stock && u.receipts == t.receipts + r.value.records
    && u.ledger == t.ledger + [Entry(date, ReceiptEntry(r.value.total))]
    && u.orderLines == Moved(t.orderLines, Requested(wants), Move.Receipt)
    && u.orders == WithStatus(t.orders, id, StatusAfterReceipt(u.orderLines, t.orders[id]))
    && u.counts == t.counts && u.returned == t.returned && u.matched == t.matched && u.docs == t.docs && u.payments == t.payments
  }

  lemma {:induction false} ReceiveOrderDoes(t: Tables, id: nat, date: Day, warehouse: nat, wants: seq<Want>)
    requires ReceiveOrder(t, id, date, warehouse, wants).Success?
    ensures ReceivedFrom(t, ReceiveOrder(t, id, date, warehouse, wants).value, id, date, warehouse, wants)
  {
    ReceiptDoes(t, date, ReceiptInputs(t.orderLines, warehouse, wants));
  }

  // ---- returning to the supplier ----

  /** The entries of `requested` sorted by item, stable, so that two returns lock stock rows in one order. */
  function Insert(lines: seq<OrderLine>, e: (nat, int), s: Tally<nat>): Tally<nat>
  {
    if s == [] then [e]
    else
      var last := s[|s| - 1];
      if LineAt(lines, last.0).item <= LineAt(lines, e.0).item then s + [e]
      else Insert(lines, e, s[..|s| - 1]) + [last]
  }

  function SortByItem(lines: seq<OrderLine>, s: Tally<nat>): Tally<nat>
  {
    if s == [] then [] else Insert(lines, s[|s| - 1], SortByItem(lines, s[..|s| - 1]))
  }

  function IssueInputs(lines: seq<OrderLine>, warehouse: nat, entries: Tally<nat>): (r: seq<IssueInput>)
    ensures |r| == |entries|
  {
    seq(|entries|, i requires 0 <= i < |entries| => IssueInput(Slot(LineAt(lines, entries[i].0).item, warehouse), entries[i].1))
  }

  function ReturnRecord(lines: seq<OrderLine>, e: (nat, int), value: nat): ReturnLine
  {
    var price := LineAt(lines, e.0).price;
    ReturnLine(e.0, price, e.1, value, ValueOf(e.1, price))
  }

  function ReturnRecords(lines: seq<OrderLine>, entries: Tally<nat>, values: seq<nat>): (r: seq<ReturnLine>)
    ensures |r| == |entries|
  {
    seq(|entries|, i requires 0 <= i < |entries| => ReturnRecord(lines, entries[i], if i < |values| then values[i] else 0))
  }

  lemma {:induction false} OneMoreRecord(lines: seq<OrderLine>, entries: Tally<nat>, i: nat, values: seq<nat>, v: nat)
    requires i < |entries| && |values| == i
    ensures ReturnRecords(lines, entries[..i + 1], values + [v]) == ReturnRecords(lines, entries[..i], values) + [ReturnRecord(lines, entries[i], v)]
  {
  }

  function OrderValueOf(l: ReturnLine): int { l.orderValue }

  /** GRNI gives back the order value, Inventory the average cost; the variance account takes the difference. */
  function ReturnEntry(orderValue: int, value: int): seq<Line>
  {
    DrIf(Mapped(Grni), orderValue) + CrIf(Mapped(Role.Inventory), value) + DrSigned(Mapped(PriceVariance), value - orderValue)
  }

  function StatusAfterReturn(lines: seq<OrderLine>, o: Order): OrderStatus
  {
    if AllReceived(lines, o) then OrderStatus.Received else if AnyReceived(lines, o) then PartiallyReceived else Approved
  }

  function CreateReturn(average: Averaging, t: Tables, id: nat, date: Day, warehouse: nat, wants: seq<Want>): Result<Tables, Refusal>
  {
    if wants == [] then Failure(Empty)
    else if |t.orders| <= id then Failure(OrderNotFound)
    else
      var o := t.orders[id];
      if o.status !in {PartiallyReceived, OrderStatus.Received} then Failure(OrderNotReturnable)
      else if !AllOn(o, wants) then Failure(LineNotOnOrder)
      else if !Fits(Requested(wants), t.orderLines, LeftToInvoice) then Failure(OverReturn)
      else
        var entries := SortByItem(t.orderLines, Requested(wants));
        var issued :- IssueLines(average, t.stock, IssueInputs(t.orderLines, warehouse, entries));
        var records := ReturnRecords(t.orderLines, entries, issued.values);
        var lines := Moved(t.orderLines, Requested(wants), Move.Return);
        Books.Post(t.(stock := issued.stock, returned := t.returned + records, orderLines := lines,
                      orders := WithStatus(t.orders, id, StatusAfterReturn(lines, o))),
                   date, ReturnEntry(SumBy(records, OrderValueOf), Cost(issued)))
  }

  /** What an accepted return has done to the tables. */
  ghost predicate ReturnedFrom(average: Averaging, t: Tables, u: Tables, id: nat, date: Day, warehouse: nat, wants: seq<Want>)
  {
    var entries := SortByItem(t.orderLines, Requested(wants));
    var r := IssueLines(average, t.stock, IssueInputs(t.orderLines, warehouse, entries));
    && id < |t.orders| && t.orders[id].status in {PartiallyReceived, OrderStatus.Received}
    && AllOn(t.orders[id], wants) && Fits(Requested(wants), t.orderLines, LeftToInvoice)
    && r.Success?
    && var records := ReturnRecords(t.orderLines, entries, r.value.values);
       var entry := ReturnEntry(SumBy(records, OrderValueOf), Cost(r.value));
    && ValidShape(entry)
    && u.stock == r.value.stock && u.returned == t.returned + records && u.ledger == t.ledger + [Entry(date, entry)]
    && u.orderLines == Moved(t.orderLines, Requested(wants), Move.Return)
    && u.orders == WithStatus(t.orders, id, StatusAfterReturn(u.orderLines, t.orders[id]))
    && u.counts == t.counts && u.receipts == t.receipts && u.matched == t.matched && u.docs == t.docs && u.payments == t.payments
  }

  lemma {:induction false} CreateReturnDoes(average: Averaging, t: Tables, id: nat, date: Day, warehouse: nat, wants: seq<Want>)
    requires CreateReturn(average, t, id, date, warehouse, wants).Success?
    ensures ReturnedFrom(average, t, CreateReturn(average, t, id, date, warehouse, wants).value, id, date, warehouse, wants)
  {
  }

  /** A return posts unless both values are zero; it clears GRNI by the order value and takes the average
      cost out of Inventory. */
  lemma {:induction false} ReturnEntryAccepted(orderValue: nat, value: nat)
    ensures ValidShape(ReturnEntry(orderValue, value)) <==> 0 < orderValue || 0 < value
    ensures Net(ReturnEntry(orderValue, value), Mapped(Grni)) == orderValue
    ensures Net(ReturnEntry(orderValue, value), Mapped(Role.Inventory)) + value == 0
    ensures forall a :: a !in {Mapped(Grni), Mapped(Role.Inventory), Mapped(PriceVariance)} ==> Net(ReturnEntry(orderValue, value), a) == 0
  {
    PieceSums(Mapped(Grni), orderValue);
    PieceSums(Mapped(Role.Inventory), value);
    SignedPieceSums(Mapped(PriceVariance), value - orderValue);
    Join(DrIf(Mapped(Grni), orderValue), CrIf(Mapped(Role.Inventory), value), DrSigned(Mapped(PriceVariance), value - orderValue));
  }

  // ---- counters ----

  predicate InOrder(l: OrderLine)
  {
    0 <= l.invoiced <= l.received <= l.ordered
  }

  /** The database CHECK on every order line. */
  predicate CountersHold(lines: seq<OrderLine>)
  {
    forall i :: 0 <= i < |lines| ==> InOrder(lines[i])
  }

  lemma {:induction false} GetWithin(t: Tally<nat>, lines: seq<OrderLine>, left: OrderLine -> int, i: nat)
    requires Counted(t, |lines|) && Fits(t, lines, left) && i < |lines|
    ensures 0 <= Get(t, i)
    ensures Get(t, i) == 0 || Get(t, i) <= left(lines[i])
  {
    var j := IndexOf(t, i);
  }

  lemma {:induction false} FitsIsNeeded(lines: seq<OrderLine>, t: Tally<nat>, left: OrderLine -> int)
    requires Counted(t, |lines|) && !Fits(t, lines, left)
    ensures exists i :: 0 <= i < |lines| && left(lines[i]) < Get(t, i)
  {
    var j :| 0 <= j < |t| && t[j].1 > left(LineAt(lines, t[j].0));
    IndexOfFound(t, j);
    assert left(lines[t[j].0]) < Get(t, t[j].0);
  }

  /** The application bounds are exactly what keeps the counters in order, serially: no operation relies on the CHECK. */
  lemma {:induction false} BoundsKeepCounters(lines: seq<OrderLine>, t: Tally<nat>)
    requires CountersHold(lines) && Counted(t, |lines|)
    ensures Fits(t, lines, LeftToReceive) <==> CountersHold(Moved(lines, t, Move.Receipt))
    ensures Fits(t, lines, LeftToInvoice) <==> CountersHold(Moved(lines, t, Move.Return))
    ensures Fits(t, lines, LeftToInvoice) <==> CountersHold(Moved(lines, t, Move.Invoicing))
  {
    BoundKeeps(lines, t, LeftToReceive, Move.Receipt);
    BoundKeeps(lines, t, LeftToInvoice, Move.Return);
    BoundKeeps(lines, t, LeftToInvoice, Move.Invoicing);
  }

  lemma {:induction false} BoundKeeps(lines: seq<OrderLine>, t: Tally<nat>, left: OrderLine -> int, move: Move)
    requires CountersHold(lines) && Counted(t, |lines|)
    requires forall l :: left(l) == if move == Move.Receipt then LeftToReceive(l) else LeftToInvoice(l)
    ensures Fits(t, lines, left) <==> CountersHold(Moved(lines, t, move))
  {
    if Fits(t, lines, left) {
      forall i | 0 <= i < |lines| ensures InOrder(Moved(lines, t, move)[i]) {
        GetWithin(t, lines, left, i);
      }
    } else {
      FitsIsNeeded(lines, t, left);
      var i :| 0 <= i < |lines| && left(lines[i]) < Get(t, i);
      assert !InOrder(Moved(lines, t, move)[i]);
    }
  }

  // ---- value received and not yet invoiced ----

  /** (received - invoiced) x order price, in units of 10^-8. */
  function OpenOf(l: OrderLine): int { (l.received - l.invoiced) * l.price }

  function OpenValue(lines: seq<OrderLine>): int { SumBy(lines, OpenOf) }

  function WeightOf(lines: seq<OrderLine>): ((nat, int)) -> int
  {
    (e: (nat, int)) => e.1 * LineAt(lines, e.0).price
  }

  /** quantity x order price over a tally. */
  function Weight(t: Tally<nat>, lines: seq<OrderLine>): int { SumBy(t, WeightOf(lines)) }

  lemma {:induction false} AddWeight(t: Tally<nat>, k: nat, v: int, lines: seq<OrderLine>)
    ensures Weight(Add(t, k, v), lines) == Weight(t, lines) + v * LineAt(lines, k).price
  {
    var i := IndexOf(t, k);
    if i < |t| {
      SumByUpdate(t, i, (k, t[i].1 + v), WeightOf(lines));
      Distribute(t[i].1, v, LineAt(lines, k).price);
    } else {
      SumBySnoc(t, (k, v), WeightOf(lines));
    }
  }

  lemma {:induction false} Distribute(a: int, b: int, c: int)
    ensures (a + b) * c == a * c + b * c
  {
  }

  lemma {:induction false} MovedLast(lines: seq<OrderLine>, t: Tally<nat>, move: Move)
    requires Counted(t, |lines|) && t != []
    ensures var e, m := t[|t| - 1], Moved(lines, t[..|t| - 1], move);
      && m[e.0] == lines[e.0]
      && Moved(lines, t, move) == m[e.0 := MoveOne(m[e.0], move, e.1)]
  {
    var e, m := t[|t| - 1], Moved(lines, t[..|t| - 1], move);
    LastEntry(t, e.0);
    forall i | 0 <= i < |lines|
      ensures Moved(lines, t, move)[i] == m[e.0 := MoveOne(m[e.0], move, e.1)][i]
    {
      LastEntry(t, i);
    }
  }

  function Opened(move: Move, weight: int): int
  {
    if move == Move.Receipt then weight else -weight
  }

  /** Moving the counters by a tally moves the open value by the tally's weight. */
  lemma {:induction false} MoveOpenValue(lines: seq<OrderLine>, t: Tally<nat>, move: Move)
    requires Counted(t, |lines|)
    ensures OpenValue(Moved(lines, t, move)) == OpenValue(lines) + Opened(move, Weight(t, lines))
  {
    if t == [] {
      assert Moved(lines, t, move) == lines;
    } else {
      MoveOpenValue(lines, t[..|t| - 1], move);
      MovedLast(lines, t, move);
      MoveOpenLast(Moved(lines, t[..|t| - 1], move), lines, t, move);
    }
  }

  lemma {:induction false} MoveOpenLast(m: seq<OrderLine>, lines: seq<OrderLine>, t: Tally<nat>, move: Move)
    requires t != [] && t[|t| - 1].0 < |m| == |lines| && m[t[|t| - 1].0] == lines[t[|t| - 1].0]
    requires OpenValue(m) == OpenValue(lines) + Opened(move, Weight(t[..|t| - 1], lines))
    ensures var e := t[|t| - 1];
      OpenValue(m[e.0 := MoveOne(m[e.0], move, e.1)]) == OpenValue(lines) + Opened(move, Weight(t, lines))
  {
    var e := t[|t| - 1];
    var l := m[e.0];
    SumByUpdate(m, e.0, MoveOne(l, move, e.1), OpenOf);
    Distribute(l.received - l.invoiced, e.1, l.price);
    Distribute(l.received - l.invoiced, -e.1, l.price);
    assert -e.1 * l.price == -(e.1 * l.price);
  }

  function WantWeight(lines: seq<OrderLine>): Want -> int
  {
    (w: Want) => w.quantity * LineAt(lines, w.line).price
  }

  lemma {:induction false} RequestedWeight(wants: seq<Want>, lines: seq<OrderLine>)
    ensures Weight(Requested(wants), lines) == SumBy(wants, WantWeight(lines))
  {
    if wants != [] {
      var n := |wants| - 1;
      RequestedWeight(wants[..n], lines);
      AddWeight(Requested(wants[..n]), wants[n].line, wants[n].quantity, lines);
    }
  }

  /** Sorting the entries changes no sum over them. */
  lemma {:induction false} InsertSum(lines: seq<OrderLine>, e: (nat, int), s: Tally<nat>, f: ((nat, int)) -> int)
    ensures SumBy(Insert(lines, e, s), f) == SumBy(s, f) + f(e)
    ensures |Insert(lines, e, s)| == |s| + 1
  {
    if s != [] {
      InsertSum(lines, e, s[..|s| - 1], f);
      SumBySnoc(Insert(lines, e, s[..|s| - 1]), s[|s| - 1], f);
      SumBySnoc(s, e, f);
    }
  }

  lemma {:induction false} SortSum(lines: seq<OrderLine>, s: Tally<nat>, f: ((nat, int)) -> int)
    ensures SumBy(SortByItem(lines, s), f) == SumBy(s, f)
    ensures |SortByItem(lines, s)| == |s|
  {
    if s != [] {
      SortSum(lines, s[..|s| - 1], f);
      InsertSum(lines, s[|s| - 1], SortByItem(lines, s[..|s| - 1]), f);
    }
  }

  /** What rounding added to the order values of a return, over and above quantity x order price. */
  function ReturnResidue(l: ReturnLine): int { SCALE * l.orderValue - l.quantity * l.price }

  lemma {:induction false} RecordsWeigh(lines: seq<OrderLine>, entries: Tally<nat>, values: seq<nat>)
    ensures SCALE * SumBy(ReturnRecords(lines, entries, values), OrderValueOf)
         == Weight(entries, lines) + SumBy(ReturnRecords(lines, entries, values), ReturnResidue)
  {
    var r := ReturnRecords(lines, entries, values);
    if entries != [] {
      var n := |entries| - 1;
      RecordsWeigh(lines, entries[..n], values);
      assert r[..n] == ReturnRecords(lines, entries[..n], values);
      assert r[n] == ReturnRecord(lines, entries[n], if n < |values| then values[n] else 0);
    }
  }

  // ---- table integrity: what the foreign keys give ----

  ghost predicate OrderRows(t: Tables)
  {
    forall id :: 0 <= id < |t.orders| ==>
      && t.orders[id].first + t.orders[id].count <= |t.orderLines|
      && forall i: nat :: OnOrder(t.orders[id], i) ==> t.orderLines[i].order == id
  }

  // ---- the services ----

  /** The bound on every requested sum, in the order the map was filled. */
  method CheckFits(requested: Tally<nat>, lines: seq<OrderLine>, left: OrderLine -> int) returns (ok: bool)
    ensures ok <==> Fits(requested, lines, left)
  {
    for i := 0 to |requested|
      invariant forall j :: 0 <= j < i ==> requested[j].1 <= left(LineAt(lines, requested[j].0))
    {
      if requested[i].1 > left(LineAt(lines, requested[i].0)) {
        return false;
      }
    }
    return true;
  }

  /** The loop that writes the counters of one order's lines and looks at where that leaves the order. */
  method MoveCounters(lines: seq<OrderLine>, o: Order, requested: Tally<nat>, move: Move)
    returns (moved: seq<OrderLine>, allReceived: bool, anyReceived: bool)
    requires o.first + o.count <= |lines|
    requires forall k :: !OnOrder(o, k) ==> Get(requested, k) == 0
    ensures moved == Moved(lines, requested, move)
    ensures allReceived <==> AllReceived(moved, o)
    ensures anyReceived <==> AnyReceived(moved, o)
  {
    moved, allReceived, anyReceived := lines, true, false;
    for i := o.first to o.first + o.count
      invariant |moved| == |lines|
      invariant forall k :: 0 <= k < |lines| ==>
        moved[k] == if o.first <= k < i then MoveOne(lines[k], move, Get(requested, k)) else lines[k]
      invariant allReceived <==> forall k :: o.first <= k < i ==> moved[k].ordered <= moved[k].received
      invariant anyReceived <==> exists k :: o.first <= k < i && 0 < moved[k].received
    {
      moved := moved[i := MoveOne(lines[i], move, Get(requested, i))];
      if moved[i].received < moved[i].ordered {
        allReceived := false;
      }
      if moved[i].received > 0 {
        anyReceived := true;
      }
    }
    forall k | 0 <= k < |lines| ensures moved[k] == Moved(lines, requested, move)[k] {
      assert !OnOrder(o, k) ==> MoveOne(lines[k], move, Get(requested, k)) == lines[k];
    }
  }

  class PurchaseReceiptService {
    const db: Database
    const goodsReceipts: GoodsReceiptService

    constructor (db: Database, goodsReceipts: GoodsReceiptService)
      requires goodsReceipts.db == db
      ensures this.db == db && this.goodsReceipts == goodsReceipts
    {
      this.db, this.goodsReceipts := db, goodsReceipts;
    }

    method Receive(id: nat, date: Day, warehouse: nat, wants: seq<Want>) returns (r: Outcome<Refusal>)
      requires goodsReceipts.db == db && OrderRows(db.tables)
      modifies db
      ensures r.Pass? ==> ReceiveOrder(old(db.tables), id, date, warehouse, wants) == Success(db.tables)
      ensures r.Fail? ==> db.tables == old(db.tables) && ReceiveOrder(db.tables, id, date, warehouse, wants) == Failure(r.error)
    {
      var t := db.tables;
      if |wants| == 0 {
        return Fail(Empty);
      }
      if |t.orders| <= id {
        return Fail(OrderNotFound);
      }
      var o := t.orders[id];
      if o.status != Approved && o.status != PartiallyReceived {
        return Fail(OrderNotReceivable);
      }
      var requested := SumRequested(o, wants);
      if requested.Failure? {
        return Fail(requested.error);
      }
      var fits := CheckFits(requested.value, t.orderLines, LeftToReceive);
      if !fits {
        return Fail(OverReceipt);
      }
      var receipt := goodsReceipts.Create(date, ReceiptInputs(t.orderLines, warehouse, wants));
      if receipt.Fail? {
        return Fail(receipt.error);
      }
      RequestedOnOrder(o, wants);
      var lines, all, _ := MoveCounters(t.orderLines, o, requested.value, Move.Receipt);
      db.tables := db.tables.(orderLines := lines,
                              orders := WithStatus(t.orders, id, if all then OrderStatus.Received else PartiallyReceived));
      return Pass;
    }
  }

  class GoodsReturnService {
    const db: Database
    const average: Averaging

    constructor (db: Database, average: Averaging)
      ensures this.db == db && this.average == average
    {
      this.db, this.average := db, average;
    }

    method Create(id: nat, date: Day, warehouse: nat, wants: seq<Want>) returns (r: Outcome<Refusal>)
      requires OrderRows(db.tables)
      modifies db
      ensures r.Pass? ==> CreateReturn(average, old(db.tables), id, date, warehouse, wants) == Success(db.tables)
      ensures r.Fail? ==> db.tables == old(db.tables) && CreateReturn(average, db.tables, id, date, warehouse, wants) == Failure(r.error)
    {
      var t := db.tables;
      if |wants| == 0 {
        return Fail(Empty);
      }
      if |t.orders| <= id {
        return Fail(OrderNotFound);
      }
      var o := t.orders[id];
      if o.status != PartiallyReceived && o.status != OrderStatus.Received {
        return Fail(OrderNotReturnable);
      }
      var requested := SumRequested(o, wants);
      if requested.Failure? {
        return Fail(requested.error);
      }
      var fits := CheckFits(requested.value, t.orderLines, LeftToInvoice);
      if !fits {
        return Fail(OverReturn);
      }
      var issued := TakeOut(t, warehouse, SortByItem(t.orderLines, requested.value));
      if issued.Failure? {
        return Fail(issued.error);
      }
      var (stock, totalValue, records, totalOrderValue) := issued.value;
      var entry := ReturnEntry(totalOrderValue, totalValue);
      var shape := ValidateShape(entry);
      if shape.Fail? {
        return Fail(EntryRejected);
      }
      RequestedOnOrder(o, wants);
      var lines, all, any := MoveCounters(t.orderLines, o, requested.value, Move.Return);
      var status := if all then OrderStatus.Received else if any then PartiallyReceived else Approved;
      db.tables := t.(stock := stock, returned := t.returned + records, orderLines := lines,
                      orders := WithStatus(t.orders, id, status), ledger := t.ledger + [Entry(date, entry)]);
      return Pass;
    }

    /** The loop over the sorted entries: one stock row at a time, both totals and the line records with it. */
    method TakeOut(t: Tables, warehouse: nat, entries: Tally<nat>) returns (r: Result<(Stock, int, seq<ReturnLine>, int), Refusal>)
      ensures var s := IssueLines(average, t.stock, IssueInputs(t.orderLines, warehouse, entries));
        if s.Failure? then r == Failure(s.error)
        else var records := ReturnRecords(t.orderLines, entries, s.value.values);
             r == Success((s.value.stock, Cost(s.value), records, SumBy(records, OrderValueOf)))
    {
      ghost var inputs := IssueInputs(t.orderLines, warehouse, entries);
      ghost var values: seq<nat> := [];
      var stock, totalValue, totalOrderValue, records := t.stock, 0, 0, [];
      for i := 0 to |entries|
        invariant |values| == i
        invariant IssueLines(average, t.stock, inputs[..i]) == Success(Issuing(stock, values))
        invariant totalValue == SumBy(values, Same) && totalOrderValue == SumBy(records, OrderValueOf)
        invariant records == ReturnRecords(t.orderLines, entries[..i], values)
      {
        var slot := Slot(LineAt(t.orderLines, entries[i].0).item, warehouse);
        FoldStep(Issuing(t.stock, []), inputs, i, IssueLine(average));
        var issued := ApplyIssue(average, RowOf(stock, slot), entries[i].1);
        if issued.Failure? {
          FoldRefused(Issuing(t.stock, []), inputs, i + 1, IssueLine(average));
          return Failure(if issued.error == InsufficientStock then InsufficientOnHand else BadLine(issued.error));
        }
        stock := stock[slot := issued.value.state];
        var record := ReturnRecord(t.orderLines, entries[i], issued.value.value);
        SumBySnoc(values, issued.value.value, Same);
        SumBySnoc(records, record, OrderValueOf);
        OneMoreRecord(t.orderLines, entries, i, values, issued.value.value);
        totalValue, totalOrderValue := totalValue + issued.value.value, totalOrderValue + record.orderValue;
        values, records := values + [issued.value.value], records + [record];
      }
      assert inputs[..|entries|] == inputs;
      assert entries[..|entries|] == entries;
      return Success((stock, totalValue, records, totalOrderValue));
    }
  }
}
