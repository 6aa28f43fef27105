/** The purchase order service: placing an order, deciding on it and cancelling it. */
module PurchaseOrders {
  import opened Wrappers
  import opened Sums
  import opened Rounding
  import opened WeightedAverage
  import opened Books
  import opened Purchasing
  import opened Invariants

  function LineTotal(l: OrderInput): int { ValueOf(l.quantity, l.price) }

  /** Without a policy nothing needs approval; with one, a total above its threshold does. */
  predicate NeedsApproval(policy: Option<nat>, lines: seq<OrderInput>)
  {
    policy.Some? && policy.value < SumBy(lines, LineTotal)
  }

  /** An order waits for approval exactly when there is a policy and its goods, each line rounded, come to more than the
      threshold: an order for exactly the threshold does not. */
  lemma {:induction false} ApprovalRule(policy: Option<nat>, lines: seq<OrderInput>)
    ensures NeedsApproval(policy, lines) <==> policy.Some? && policy.value < SumBy(lines, (l: OrderInput) => ValueOf(l.quantity, l.price))
  {
    SameTotal(lines);
  }

  lemma {:induction false} SameTotal(lines: seq<OrderInput>)
    ensures SumBy(lines, LineTotal) == SumBy(lines, (l: OrderInput) => ValueOf(l.quantity, l.price))
  {
    if lines != [] {
      SameTotal(lines[..|lines| - 1]);
    }
  }

  class PurchaseOrderService {
    const db: Database

    constructor (db: Database)
      ensures this.db == db
    {
      this.db := db;
    }

    method Create(supplier: nat, lines: seq<OrderInput>, policy: Option<nat>) returns (r: Outcome<Refusal>)
      modifies db
      ensures r.Pass? ==> PlaceOrder(old(db.tables), supplier, lines, NeedsApproval(policy, lines)) == Success(db.tables)
      ensures r.Fail? ==> db.tables == old(db.tables) && PlaceOrder(db.tables, supplier, lines, NeedsApproval(policy, lines)) == Failure(r.error)
      ensures OrdersHold(old(db.tables)) ==> OrdersHold(db.tables)
    {
      var t := db.tables;
      if |lines| == 0 {
        return Fail(Empty);
      }
      var total := 0;
      for i := 0 to |lines|
        invariant db.tables == t
        invariant total == SumBy(lines[..i], LineTotal)
        invariant forall j :: 0 <= j < i ==> lines[j].quantity != 0
      {
        if lines[i].quantity == 0 {
          return Fail(BadLine(BadQuantity));
        }
        SumByPrefix(lines, i, LineTotal);
        total := total + ValueOf(lines[i].quantity, lines[i].price);
      }
      assert lines[..|lines|] == lines;
      if OrdersHold(t) {
        OrderPlacedHolds(t, supplier, lines, NeedsApproval(policy, lines));
      }
      var order := Order(supplier, if policy.Some? && policy.value < total then PendingApproval else Approved, |t.orderLines|, |lines|);
      db.tables := t.(orders := t.orders + [order], orderLines := t.orderLines + NewLines(|t.orders|, lines));
      return Pass;
    }

    method Decide(id: nat, approve: bool) returns (r: Outcome<Refusal>)
      modifies db
      ensures r.Pass? ==> DecideOrder(old(db.tables), id, approve) == Success(db.tables)
      ensures r.Fail? ==> db.tables == old(db.tables) && DecideOrder(db.tables, id, approve) == Failure(r.error)
      ensures OrdersHold(old(db.tables)) ==> OrdersHold(db.tables)
    {
      var t := db.tables;
      if |t.orders| <= id {
        return Fail(OrderNotFound);
      }
      if t.orders[id].status != PendingApproval {
        return Fail(NotPendingApproval);
      }
      if OrdersHold(t) {
        StatusChangeHolds(t, id, if approve then Approved else Rejected);
      }
      db.tables := t.(orders := WithStatus(t.orders, id, if approve then Approved else Rejected));
      return Pass;
    }

    method Cancel(id: nat) returns (r: Outcome<Refusal>)
      modifies db
      ensures r.Pass? ==> CancelOrder(old(db.tables), id) == Success(db.tables)
      ensures r.Fail? ==> db.tables == old(db.tables) && CancelOrder(db.tables, id) == Failure(r.error)
      ensures OrdersHold(old(db.tables)) ==> OrdersHold(db.tables)
    {
      var t := db.tables;
      if |t.orders| <= id {
        return Fail(OrderNotFound);
      }
      var status := t.orders[id].status;
      if status != PendingApproval && status != Approved {
        return Fail(NotCancellable);
      }
      if OrdersHold(t) {
        StatusChangeHolds(t, id, Cancelled);
      }
      db.tables := t.(orders := WithStatus(t.orders, id, Cancelled));
      return Pass;
    }
  }
}
