/** What every command keeps, one table family at a time. */
module Invariants {
  import opened Wrappers
  import opened Sums
  import opened Journal
  import opened WeightedAverage
  import opened Books
  import opened Invoicing
  import opened Inventory
  import opened Purchasing
  import opened SupplierInvoicing
  import opened Settlement
  import opened History

  // ---- orders ----

  /** An order's status says exactly how much of it has been received. */
  predicate StatusFollows(lines: seq<OrderLine>, o: Order)
  {
    if AllReceived(lines, o) then o.status == OrderStatus.Received
    else if AnyReceived(lines, o) then o.status == PartiallyReceived
    else o.status in {PendingApproval, Approved, Rejected, Cancelled}
  }

  ghost predicate OrdersHold(t: Tables)
  {
    && OrderRows(t)
    && CountersHold(t.orderLines)
    && (forall i :: 0 <= i < |t.orderLines| ==> 0 < t.orderLines[i].ordered)
    && (forall id :: 0 <= id < |t.orders| ==> 0 < t.orders[id].count && StatusFollows(t.orderLines, t.orders[id]))
  }

  lemma {:induction false} OrderPlacedHolds(t: Tables, supplier: nat, ordered: seq<OrderInput>, needsApproval: bool)
    requires OrdersHold(t) && PlaceOrder(t, supplier, ordered, needsApproval).Success?
    ensures OrdersHold(PlaceOrder(t, supplier, ordered, needsApproval).value)
  {
    var u := PlaceOrder(t, supplier, ordered, needsApproval).value;
    forall id | 0 <= id < |u.orders|
      ensures u.orders[id].first + u.orders[id].count <= |u.orderLines|
      ensures forall i: nat :: OnOrder(u.orders[id], i) ==> u.orderLines[i].order == id
      ensures 0 < u.orders[id].count && StatusFollows(u.orderLines, u.orders[id])
    {
      if id < |t.orders| {
        SameStatus(t.orderLines, u.orderLines, t.orders[id]);
      } else {
        assert OnOrder(u.orders[id], |t.orderLines|) && u.orderLines[|t.orderLines|].received == 0;
      }
    }
  }

  /** An order whose lines are where they were keeps its status. */
  lemma {:induction false} SameStatus(lines: seq<OrderLine>, after: seq<OrderLine>, o: Order)
    requires o.first + o.count <= |lines| <= |after|
    requires forall i: nat :: OnOrder(o, i) ==> after[i].received == lines[i].received && after[i].ordered == lines[i].ordered
    ensures AllReceived(after, o) <==> AllReceived(lines, o)
    ensures AnyReceived(after, o) <==> AnyReceived(lines, o)
  {
    forall i: nat | OnOrder(o, i) ensures after[i].received == lines[i].received {}
    if AnyReceived(lines, o) {
      var i :| o.first <= i < o.first + o.count && i < |lines| && 0 < lines[i].received;
      assert OnOrder(o, i) && 0 < after[i].received;
    }
    if AnyReceived(after, o) {
      var i :| o.first <= i < o.first + o.count && i < |after| && 0 < after[i].received;
      assert OnOrder(o, i) && 0 < lines[i].received;
    }
    if AllReceived(lines, o) {
      forall i | o.first <= i < o.first + o.count && i < |after| ensures after[i].ordered <= after[i].received {
        assert OnOrder(o, i);
      }
    }
    if AllReceived(after, o) {
      forall i | o.first <= i < o.first + o.count && i < |lines| ensures lines[i].ordered <= lines[i].received {
        assert OnOrder(o, i);
      }
    }
  }

  /** Moving counters changes neither what a line is part of nor how much was ordered. */
  predicate SameLines(lines: seq<OrderLine>, after: seq<OrderLine>)
  {
    |after| == |lines| && forall i :: 0 <= i < |lines| ==> after[i].order == lines[i].order && after[i].ordered == lines[i].ordered
  }

  /** Lines off the order are as they were. */
  predicate SameElsewhere(lines: seq<OrderLine>, after: seq<OrderLine>, o: Order)
  {
    |after| == |lines| && forall i :: 0 <= i < |lines| && !OnOrder(o, i) ==> after[i] == lines[i]
  }

  lemma {:induction false} MovedSame(lines: seq<OrderLine>, t: Tally<nat>, move: Move, o: Order)
    ensures SameLines(lines, Moved(lines, t, move))
    ensures (forall k :: !OnOrder(o, k) ==> Get(t, k) == 0) ==> SameElsewhere(lines, Moved(lines, t, move), o)
    ensures move == Move.Invoicing ==> forall i :: 0 <= i < |lines| ==> Moved(lines, t, move)[i].received == lines[i].received
  {
    var m := Moved(lines, t, move);
    forall i | 0 <= i < |lines|
      ensures m[i].order == lines[i].order && m[i].ordered == lines[i].ordered
      ensures Get(t, i) == 0 ==> m[i] == lines[i]
      ensures move == Move.Invoicing ==> m[i].received == lines[i].received
    {
      assert m[i] == MoveOne(lines[i], move, Get(t, i));
    }
  }

  lemma {:induction false} RowsKept(t: Tables, u: Tables)
    requires OrderRows(t) && SameLines(t.orderLines, u.orderLines) && |u.orders| == |t.orders|
    requires forall id :: 0 <= id < |t.orders| ==> u.orders[id].first == t.orders[id].first && u.orders[id].count == t.orders[id].count
    ensures OrderRows(u)
  {
    forall id | 0 <= id < |u.orders|
      ensures u.orders[id].first + u.orders[id].count <= |u.orderLines|
      ensures forall i: nat :: OnOrder(u.orders[id], i) ==> u.orderLines[i].order == id
    {
      forall i: nat | OnOrder(u.orders[id], i) ensures u.orderLines[i].order == id {
        assert OnOrder(t.orders[id], i);
      }
    }
  }

  /** Moving one order's counters within their bounds, with its status recomputed, keeps every order in step. */
  lemma {:induction false} MovedHolds(t: Tables, u: Tables, id: nat, status: OrderStatus)
    requires OrdersHold(t) && id < |t.orders|
    requires SameLines(t.orderLines, u.orderLines) && SameElsewhere(t.orderLines, u.orderLines, t.orders[id]) && CountersHold(u.orderLines)
    requires u.orders == WithStatus(t.orders, id, status)
    requires StatusFollows(u.orderLines, t.orders[id].(status := status))
    ensures OrdersHold(u)
  {
    RowsKept(t, u);
    forall j | 0 <= j < |u.orders| ensures 0 < u.orders[j].count && StatusFollows(u.orderLines, u.orders[j]) {
      if j == id {
        SameRange(u.orderLines, t.orders[id], u.orders[id]);
      } else {
        OtherOrderKept(t, u.orderLines, id, j);
      }
    }
  }

  lemma {:induction false} OtherOrderKept(t: Tables, after: seq<OrderLine>, id: nat, j: nat)
    requires OrderRows(t) && id < |t.orders| && j < |t.orders| && j != id && SameElsewhere(t.orderLines, after, t.orders[id])
    ensures AllReceived(after, t.orders[j]) <==> AllReceived(t.orderLines, t.orders[j])
    ensures AnyReceived(after, t.orders[j]) <==> AnyReceived(t.orderLines, t.orders[j])
  {
    forall i: nat | OnOrder(t.orders[j], i) ensures after[i] == t.orderLines[i] {
      assert t.orderLines[i].order == j;
      assert !OnOrder(t.orders[id], i);
    }
    SameStatus(t.orderLines, after, t.orders[j]);
  }

  lemma {:induction false} SameRange(lines: seq<OrderLine>, o: Order, p: Order)
    requires p.first == o.first && p.count == o.count
    ensures AllReceived(lines, p) <==> AllReceived(lines, o)
    ensures AnyReceived(lines, p) <==> AnyReceived(lines, o)
  {
  }

  /** Every quantity received is positive, so after a receipt something has been received. */
  lemma {:induction false} ReceivedSomething(lines: seq<OrderLine>, o: Order, wants: seq<Want>)
    requires CountersHold(lines) && o.first + o.count <= |lines| && AllOn(o, wants) && wants != []
    requires 0 < wants[|wants| - 1].quantity
    ensures AnyReceived(Moved(lines, Requested(wants), Move.Receipt), o)
  {
    var n := |wants| - 1;
    var k := wants[n].line;
    RequestedOnOrder(o, wants[..n]);
    AddEffect(Requested(wants[..n]), k, wants[n].quantity);
    GetCounted(Requested(wants[..n]), k, o.first + o.count);
    assert InOrder(lines[k]);
    assert 0 < Moved(lines, Requested(wants), Move.Receipt)[k].received;
  }

  lemma {:induction false} GetCounted(t: Tally<nat>, k: nat, n: nat)
    requires Counted(t, n)
    ensures 0 <= Get(t, k)
  {
  }

  lemma {:induction false} OrderReceiptHolds(t: Tables, u: Tables, id: nat, date: Day, warehouse: nat, wants: seq<Want>)
    requires OrdersHold(t) && wants != [] && ReceivedFrom(t, u, id, date, warehouse, wants)
    ensures OrdersHold(u)
  {
    var o := t.orders[id];
    ReceiveLinesMove(t.stock, ReceiptInputs(t.orderLines, warehouse, wants));
    ReceivedSomething(t.orderLines, o, wants);
    FitsKeepsCounters(t.orderLines, o, wants, Move.Receipt);
    SameRange(u.orderLines, o, o.(status := StatusAfterReceipt(u.orderLines, o)));
    MovedHolds(t, u, id, StatusAfterReceipt(u.orderLines, o));
  }

  lemma {:induction false} FitsKeepsCounters(lines: seq<OrderLine>, o: Order, wants: seq<Want>, move: Move)
    requires CountersHold(lines) && o.first + o.count <= |lines| && AllOn(o, wants)
    requires Fits(Requested(wants), lines, if move == Move.Receipt then LeftToReceive else LeftToInvoice)
    ensures CountersHold(Moved(lines, Requested(wants), move))
    ensures SameLines(lines, Moved(lines, Requested(wants), move)) && SameElsewhere(lines, Moved(lines, Requested(wants), move), o)
  {
    RequestedOnOrder(o, wants);
    BoundsKeepCounters(lines, Requested(wants));
    MovedSame(lines, Requested(wants), move, o);
  }

  lemma {:induction false} GoodsReturnHolds(average: Averaging, t: Tables, u: Tables, id: nat, date: Day, warehouse: nat, wants: seq<Want>)
    requires OrdersHold(t) && ReturnedFrom(average, t, u, id, date, warehouse, wants)
    ensures OrdersHold(u)
  {
    var o := t.orders[id];
    FitsKeepsCounters(t.orderLines, o, wants, Move.Return);
    SameRange(u.orderLines, o, o.(status := StatusAfterReturn(u.orderLines, o)));
    MovedHolds(t, u, id, StatusAfterReturn(u.orderLines, o));
  }

  lemma {:induction false} SupplierInvoiceHolds(t: Tables, u: Tables, supplier: nat, date: Day, due: Option<Day>, lines: seq<InvoiceInput>)
    requires OrdersHold(t) && InvoicedFrom(t, u, supplier, date, due, lines)
    ensures OrdersHold(u)
  {
    var claimed := Evaluate(t, supplier, lines).value.claimed;
    PrefixCheckIsAggregate(t, supplier, lines);
    BoundsKeepCounters(t.orderLines, claimed);
    MovedSame(t.orderLines, claimed, Move.Invoicing, Order(0, Approved, 0, 0));
    InvoicingHolds(t, u);
  }

  lemma {:induction false} InvoicingHolds(t: Tables, u: Tables)
    requires OrdersHold(t) && u.orders == t.orders && CountersHold(u.orderLines) && SameLines(t.orderLines, u.orderLines)
    requires forall i :: 0 <= i < |t.orderLines| ==> u.orderLines[i].received == t.orderLines[i].received
    ensures OrdersHold(u)
  {
    RowsKept(t, u);
    forall id | 0 <= id < |u.orders| ensures StatusFollows(u.orderLines, u.orders[id]) {
      SameStatus(t.orderLines, u.orderLines, t.orders[id]);
    }
  }

  lemma {:induction false} StatusChangeHolds(t: Tables, id: nat, status: OrderStatus)
    requires OrdersHold(t) && id < |t.orders|
    requires t.orders[id].status in {PendingApproval, Approved} && status in {Approved, Rejected, Cancelled}
    ensures OrdersHold(t.(orders := WithStatus(t.orders, id, status)))
  {
    var u := t.(orders := WithStatus(t.orders, id, status));
    SameRange(t.orderLines, t.orders[id], u.orders[id]);
    forall j | 0 <= j < |u.orders|
      ensures u.orders[j].first + u.orders[j].count <= |u.orderLines|
      ensures forall i: nat :: OnOrder(u.orders[j], i) ==> u.orderLines[i].order == j
      ensures 0 < u.orders[j].count && StatusFollows(u.orderLines, u.orders[j])
    {
    }
  }

  /** Only an order nothing has been received against, net of returns, can be cancelled. */
  lemma {:induction false} CancelledOrderIsEmpty(t: Tables, id: nat)
    requires OrdersHold(t) && CancelOrder(t, id).Success?
    ensures forall i: nat :: OnOrder(t.orders[id], i) ==> t.orderLines[i].received == 0 && t.orderLines[i].invoiced == 0
  {
    forall i: nat | OnOrder(t.orders[id], i) ensures t.orderLines[i].received == 0 && t.orderLines[i].invoiced == 0 {
      assert InOrder(t.orderLines[i]);
    }
  }
}
