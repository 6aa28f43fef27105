/** Receivables and payables: documents point at invoices of their own party, and settlements stay within bounds. */
module PartyAccounts {
  import opened Wrappers
  import opened Sums
  import opened Journal
  import opened Books
  import opened Settlement

  /** Every note and every allocation names an earlier invoice of the same side and party. */
  predicate Linked(t: Tables)
  {
    && (forall i :: 0 <= i < |t.docs| ==> LinkedDoc(t, t.docs[i]))
    && (forall i :: 0 <= i < |t.payments| ==> LinkedPayment(t, t.payments[i]))
  }

  predicate LinkedDoc(t: Tables, d: Doc)
  {
    && 0 <= d.gross
    && if d.kind == Kind.Invoice then d.original.None?
       else KindOf(d.side, d.kind) && d.original.Some? && Owes(t, d.side, d.party, d.original.value)
  }

  predicate LinkedPayment(t: Tables, p: Payment)
  {
    && SumBy(p.allocations, AmountOf) <= p.amount
    && forall i :: 0 <= i < |p.allocations| ==> Owes(t, p.side, p.party, p.allocations[i].invoice)
  }

  function Credits(t: Tables, i: nat): int { Noted(t.docs, i, CreditNote, FAR_FUTURE) }
  function Debits(t: Tables, i: nat): int { Noted(t.docs, i, DebitNote, FAR_FUTURE) }
  function Allocations(t: Tables, i: nat): int { AllocatedTo(t.payments, i, FAR_FUTURE) }

  /** What is settled against an invoice, in a run of whole transactions. */
  predicate Bounded(t: Tables, i: nat)
    requires i < |t.docs|
  {
    var d := t.docs[i];
    && 0 <= Credits(t, i) <= d.gross && 0 <= Debits(t, i) <= d.gross && 0 <= Allocations(t, i)
    && Allocations(t, i) <= if d.side == Sales then d.gross + Debits(t, i) else d.gross
  }

  predicate PartiesHold(t: Tables)
  {
    Linked(t) && forall i :: 0 <= i < |t.docs| && t.docs[i].kind == Kind.Invoice ==> Bounded(t, i)
  }

  /** The bounds put what is still owed between minus the credit notes and gross plus the debit notes. */
  lemma {:induction false} OutstandingWithin(t: Tables, i: nat)
    requires i < |t.docs| && Bounded(t, i)
    ensures t.docs[i].side == Sales ==> -Credits(t, i) <= Outstanding(t, i, FAR_FUTURE) <= t.docs[i].gross + Debits(t, i)
    ensures t.docs[i].side == Supplier ==> -Debits(t, i) <= Outstanding(t, i, FAR_FUTURE) <= t.docs[i].gross
  {
  }

  lemma {:induction false} LinksStay(t: Tables, u: Tables)
    requires Linked(t) && t.docs <= u.docs
    ensures forall i :: 0 <= i < |t.docs| ==> LinkedDoc(u, t.docs[i])
    ensures forall i :: 0 <= i < |t.payments| ==> LinkedPayment(u, t.payments[i])
  {
    forall i | 0 <= i < |t.docs| ensures LinkedDoc(u, t.docs[i]) {
      assert LinkedDoc(t, t.docs[i]);
    }
    forall i | 0 <= i < |t.payments| ensures LinkedPayment(u, t.payments[i]) {
      assert LinkedPayment(t, t.payments[i]);
    }
  }

  lemma {:induction false} NotedSnoc(docs: seq<Doc>, d: Doc, i: nat, kind: Kind, day: Day)
    ensures Noted(docs + [d], i, kind, day) == Noted(docs, i, kind, day) + if d.original == Some(i) && d.kind == kind && d.date <= day then d.gross else 0
  {
    assert (docs + [d])[..|docs|] == docs;
  }

  lemma {:induction false} AllocatedSnoc(payments: seq<Payment>, p: Payment, i: nat, day: Day)
    ensures AllocatedTo(payments + [p], i, day) == AllocatedTo(payments, i, day) + if p.date <= day then AllocatedIn(p.allocations, i) else 0
  {
    assert (payments + [p])[..|payments|] == payments;
  }

  /** Nothing refers to a document that is not there yet. */
  lemma {:induction false} NothingNoted(docs: seq<Doc>, i: nat, kind: Kind, day: Day)
    requires forall j :: 0 <= j < |docs| ==> docs[j].original != Some(i)
    ensures Noted(docs, i, kind, day) == 0
  {
    if docs != [] {
      NothingNoted(docs[..|docs| - 1], i, kind, day);
    }
  }

  lemma {:induction false} NothingAllocated(payments: seq<Payment>, i: nat, day: Day)
    requires forall j, k :: 0 <= j < |payments| && 0 <= k < |payments[j].allocations| ==> payments[j].allocations[k].invoice != i
    ensures AllocatedTo(payments, i, day) == 0
  {
    if payments != [] {
      var p := payments[|payments| - 1];
      NothingAllocated(payments[..|payments| - 1], i, day);
      NoneIn(p.allocations, i);
    }
  }

  lemma {:induction false} NoneIn(allocations: seq<Allocation>, i: nat)
    requires forall k :: 0 <= k < |allocations| ==> allocations[k].invoice != i
    ensures AllocatedIn(allocations, i) == 0
  {
    if allocations != [] {
      NoneIn(allocations[..|allocations| - 1], i);
    }
  }

  lemma {:induction false} NewOneBounded(t: Tables, u: Tables, d: Doc)
    requires PartiesHold(t) && d.kind == Kind.Invoice && d.original.None? && 0 <= d.gross
    requires u.docs == t.docs + [d] && u.payments == t.payments
    ensures Bounded(u, |t.docs|)
  {
    var n := |t.docs|;
    assert forall j :: 0 <= j < n ==> LinkedDoc(t, t.docs[j]);
    assert forall j :: 0 <= j < |t.payments| ==> LinkedPayment(t, t.payments[j]);
    NothingNoted(t.docs, n, CreditNote, FAR_FUTURE);
    NothingNoted(t.docs, n, DebitNote, FAR_FUTURE);
    NothingAllocated(t.payments, n, FAR_FUTURE);
    NotedSnoc(t.docs, d, n, CreditNote, FAR_FUTURE);
    NotedSnoc(t.docs, d, n, DebitNote, FAR_FUTURE);
  }

  lemma {:induction false} OldOneBounded(t: Tables, u: Tables, d: Doc, i: nat)
    requires i < |t.docs| && Bounded(t, i) && d.original.None?
    requires u.docs == t.docs + [d] && u.payments == t.payments
    ensures Bounded(u, i)
  {
    NotedSnoc(t.docs, d, i, CreditNote, FAR_FUTURE);
    NotedSnoc(t.docs, d, i, DebitNote, FAR_FUTURE);
  }

  /** A new invoice starts with nothing against it and changes nothing for the others. */
  lemma {:induction false} InvoiceHolds(t: Tables, u: Tables, d: Doc)
    requires PartiesHold(t) && d.kind == Kind.Invoice && d.original.None? && 0 <= d.gross
    requires u.docs == t.docs + [d] && u.payments == t.payments
    ensures PartiesHold(u)
  {
    LinksStay(t, u);
    NewOneBounded(t, u, d);
    forall i | 0 <= i < |u.docs| && u.docs[i].kind == Kind.Invoice ensures Bounded(u, i) {
      if i < |t.docs| {
        OldOneBounded(t, u, d, i);
      }
    }
  }

  /** The note check is exactly what keeps the notes of its kind within the invoice. */
  lemma {:induction false} NoteHolds(t: Tables, u: Tables, d: Doc, original: nat)
    requires PartiesHold(t) && KindOf(d.side, d.kind) && 0 <= d.gross
    requires d.original == Some(original) && Owes(t, d.side, d.party, original)
    requires Noted(t.docs, original, d.kind, FAR_FUTURE) + d.gross <= t.docs[original].gross
    requires u.docs == t.docs + [d] && u.payments == t.payments
    ensures PartiesHold(u)
  {
    LinksStay(t, u);
    forall i | 0 <= i < |u.docs| && u.docs[i].kind == Kind.Invoice ensures Bounded(u, i) {
      NotedSnoc(t.docs, d, i, CreditNote, FAR_FUTURE);
      NotedSnoc(t.docs, d, i, DebitNote, FAR_FUTURE);
      assert Bounded(t, i);
    }
  }

  /** Allocating no more than is owed keeps allocations within gross plus debit notes. */
  lemma {:induction false} PaymentHolds(t: Tables, u: Tables, p: Payment)
    requires PartiesHold(t) && NoDuplicates(p.allocations) && SumBy(p.allocations, AmountOf) <= p.amount
    requires forall i :: 0 <= i < |p.allocations| ==>
      Owes(t, p.side, p.party, p.allocations[i].invoice) && p.allocations[i].amount <= Outstanding(t, p.allocations[i].invoice, FAR_FUTURE)
    requires u.docs == t.docs && u.payments == t.payments + [p]
    ensures PartiesHold(u)
  {
    LinksStay(t, u);
    forall i | 0 <= i < |u.docs| && u.docs[i].kind == Kind.Invoice ensures Bounded(u, i) {
      AllocatedSnoc(t.payments, p, i, FAR_FUTURE);
      AllocatedInOne(p.allocations, i);
      assert Bounded(t, i);
    }
  }
}
