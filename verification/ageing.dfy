/** The ageing report, and how it agrees with the party statements and the control account. */
module Ageing {
  import opened Wrappers
  import opened Sums
  import opened Journal
  import opened WeightedAverage
  import opened Books
  import opened Settlement
  import opened Statements
  import opened PartyAccounts
  import opened History
  import opened Reconciliation

  /** Which invoices a figure is about: one side, one party or all, dated by the cut-off. */
  datatype Selection = Selection(side: Side, who: Option<nat>, day: Day)

  predicate Selected(docs: seq<Doc>, i: nat, s: Selection)
  {
    i < |docs| && docs[i].kind == Kind.Invoice && docs[i].side == s.side && For(s.who, docs[i].party) && docs[i].date <= s.day
  }

  /** What the selected invoices among the first n still owe. */
  function Open(t: Tables, s: Selection, n: nat): int
    requires n <= |t.docs|
  {
    if n == 0 then 0
    else Open(t, s, n - 1) + if Selected(t.docs, n - 1, s) then Outstanding(t, n - 1, s.day) else 0
  }

  function UnallocatedOf(p: Payment): int { p.amount - SumBy(p.allocations, AmountOf) }

  /** Payments dated by the cut-off less everything they were allocated to, whatever the invoice's date. */
  function OnAccount(payments: seq<Payment>, s: Selection): int
  {
    if payments == [] then 0
    else
      var p := payments[|payments| - 1];
      OnAccount(payments[..|payments| - 1], s)
        + if p.side == s.side && For(s.who, p.party) && p.date <= s.day then UnallocatedOf(p) else 0
  }

  /** The report's total: open invoices less what is on account. */
  function AgeingTotal(t: Tables, s: Selection): int
  {
    Open(t, s, |t.docs|) - OnAccount(t.payments, s)
  }

  // ---- documents dated before the invoice they settle ----

  function AmountIf(selected: bool, amount: int): int { if selected then amount else 0 }

  /** Allocations to invoices dated after the cut-off. */
  function EarlyAllocated(docs: seq<Doc>, allocations: seq<Allocation>, day: Day): int
  {
    if allocations == [] then 0
    else
      var a := allocations[|allocations| - 1];
      EarlyAllocated(docs, allocations[..|allocations| - 1], day) + AmountIf(a.invoice < |docs| && day < docs[a.invoice].date, a.amount)
  }

  function EarlyPaid(docs: seq<Doc>, payments: seq<Payment>, s: Selection): int
  {
    if payments == [] then 0
    else
      var p := payments[|payments| - 1];
      EarlyPaid(docs, payments[..|payments| - 1], s)
        + if p.side == s.side && For(s.who, p.party) && p.date <= s.day then EarlyAllocated(docs, p.allocations, s.day) else 0
  }

  /** Notes dated by the cut-off against an invoice dated after it, signed as they charge. */
  function EarlyNoted(docs: seq<Doc>, notes: seq<Doc>, s: Selection): int
  {
    if notes == [] then 0
    else
      var d := notes[|notes| - 1];
      EarlyNoted(docs, notes[..|notes| - 1], s)
        + if d.side == s.side && For(s.who, d.party) && d.date <= s.day && d.original.Some? && d.original.value < |docs|
             && s.day < docs[d.original.value].date then Charge(d) else 0
  }

  /** What was settled before it was invoiced: the only thing that can set the report apart from the ledger. */
  function Early(t: Tables, s: Selection): int
  {
    EarlyPaid(t.docs, t.payments, s) - EarlyNoted(t.docs, t.docs, s)
  }

  // ---- summing over invoices is summing over what is applied to them ----

  /** The gross of the selected invoices among the first n. */
  function GrossSum(docs: seq<Doc>, s: Selection, n: nat): int
    requires n <= |docs|
  {
    if n == 0 then 0 else GrossSum(docs, s, n - 1) + if Selected(docs, n - 1, s) then docs[n - 1].gross else 0
  }

  function AllocatedSum(docs: seq<Doc>, payments: seq<Payment>, s: Selection, n: nat): int
  {
    if n == 0 then 0
    else AllocatedSum(docs, payments, s, n - 1) + if Selected(docs, n - 1, s) then AllocatedTo(payments, n - 1, s.day) else 0
  }

  function NotedSum(docs: seq<Doc>, notes: seq<Doc>, kind: Kind, s: Selection, n: nat): int
  {
    if n == 0 then 0
    else NotedSum(docs, notes, kind, s, n - 1) + if Selected(docs, n - 1, s) then Noted(notes, n - 1, kind, s.day) else 0
  }

  function NoteSum(t: Tables, s: Selection, n: nat): int
  {
    match s.side
    case Sales => NotedSum(t.docs, t.docs, DebitNote, s, n) - NotedSum(t.docs, t.docs, CreditNote, s, n)
    case Supplier => -NotedSum(t.docs, t.docs, DebitNote, s, n)
  }

  lemma {:induction false} OpenSplits(t: Tables, s: Selection, n: nat)
    requires n <= |t.docs|
    ensures Open(t, s, n) == GrossSum(t.docs, s, n) - AllocatedSum(t.docs, t.payments, s, n) + NoteSum(t, s, n)
  {
    if n > 0 {
      OpenSplits(t, s, n - 1);
    }
  }

  /** One payment's allocations to the selected invoices among the first n. */
  function AppliedIn(docs: seq<Doc>, allocations: seq<Allocation>, s: Selection, n: nat): int
  {
    if allocations == [] then 0
    else
      var a := allocations[|allocations| - 1];
      AppliedIn(docs, allocations[..|allocations| - 1], s, n) + AmountIf(a.invoice < n && Selected(docs, a.invoice, s), a.amount)
  }

  function Applied(docs: seq<Doc>, payments: seq<Payment>, s: Selection, n: nat): int
  {
    if payments == [] then 0
    else
      var p := payments[|payments| - 1];
      Applied(docs, payments[..|payments| - 1], s, n) + if p.date <= s.day then AppliedIn(docs, p.allocations, s, n) else 0
  }

  lemma {:induction false} AppliedInStep(docs: seq<Doc>, allocations: seq<Allocation>, s: Selection, n: nat)
    ensures AppliedIn(docs, allocations, s, n + 1) == AppliedIn(docs, allocations, s, n) + if Selected(docs, n, s) then AllocatedIn(allocations, n) else 0
  {
    if allocations != [] {
      AppliedInStep(docs, allocations[..|allocations| - 1], s, n);
    }
  }

  lemma {:induction false} AppliedStep(docs: seq<Doc>, payments: seq<Payment>, s: Selection, n: nat)
    ensures Applied(docs, payments, s, n + 1) == Applied(docs, payments, s, n) + if Selected(docs, n, s) then AllocatedTo(payments, n, s.day) else 0
  {
    if payments != [] {
      AppliedStep(docs, payments[..|payments| - 1], s, n);
      AppliedInStep(docs, payments[|payments| - 1].allocations, s, n);
    }
  }

  lemma {:induction false} NothingAppliedIn(docs: seq<Doc>, allocations: seq<Allocation>, s: Selection)
    ensures AppliedIn(docs, allocations, s, 0) == 0
  {
    if allocations != [] {
      NothingAppliedIn(docs, allocations[..|allocations| - 1], s);
    }
  }

  lemma {:induction false} NothingApplied(docs: seq<Doc>, payments: seq<Payment>, s: Selection)
    ensures Applied(docs, payments, s, 0) == 0
  {
    if payments != [] {
      NothingApplied(docs, payments[..|payments| - 1], s);
      NothingAppliedIn(docs, payments[|payments| - 1].allocations, s);
    }
  }

  lemma {:induction false} AllocatedByPayment(docs: seq<Doc>, payments: seq<Payment>, s: Selection, n: nat)
    ensures AllocatedSum(docs, payments, s, n) == Applied(docs, payments, s, n)
  {
    if n == 0 {
      NothingApplied(docs, payments, s);
    } else {
      AllocatedByPayment(docs, payments, s, n - 1);
      AppliedStep(docs, payments, s, n - 1);
    }
  }

  /** Notes of a kind, dated by the cut-off, on the selected invoices among the first n. */
  function AppliedNotes(docs: seq<Doc>, notes: seq<Doc>, kind: Kind, s: Selection, n: nat): int
  {
    if notes == [] then 0
    else
      var d := notes[|notes| - 1];
      AppliedNotes(docs, notes[..|notes| - 1], kind, s, n)
        + AmountIf(d.kind == kind && d.date <= s.day && d.original.Some? && d.original.value < n && Selected(docs, d.original.value, s), d.gross)
  }

  lemma {:induction false} AppliedNotesStep(docs: seq<Doc>, notes: seq<Doc>, kind: Kind, s: Selection, n: nat)
    ensures AppliedNotes(docs, notes, kind, s, n + 1) == AppliedNotes(docs, notes, kind, s, n) + if Selected(docs, n, s) then Noted(notes, n, kind, s.day) else 0
  {
    if notes != [] {
      AppliedNotesStep(docs, notes[..|notes| - 1], kind, s, n);
    }
  }

  lemma {:induction false} NoAppliedNotes(docs: seq<Doc>, notes: seq<Doc>, kind: Kind, s: Selection)
    ensures AppliedNotes(docs, notes, kind, s, 0) == 0
  {
    if notes != [] {
      NoAppliedNotes(docs, notes[..|notes| - 1], kind, s);
    }
  }

  lemma {:induction false} NotedByNote(docs: seq<Doc>, notes: seq<Doc>, kind: Kind, s: Selection, n: nat)
    ensures NotedSum(docs, notes, kind, s, n) == AppliedNotes(docs, notes, kind, s, n)
  {
    if n == 0 {
      NoAppliedNotes(docs, notes, kind, s);
    } else {
      NotedByNote(docs, notes, kind, s, n - 1);
      AppliedNotesStep(docs, notes, kind, s, n - 1);
    }
  }

  // ---- the identity ----

  /** A linked payment's allocations are the applied ones and the early ones, and nothing when the payment
      is not the selection's. */
  lemma {:induction false} AllocationsSplit(t: Tables, side: Side, party: nat, allocations: seq<Allocation>, s: Selection)
    requires forall i :: 0 <= i < |allocations| ==> Owes(t, side, party, allocations[i].invoice)
    ensures side == s.side && For(s.who, party) ==>
      SumBy(allocations, AmountOf) == AppliedIn(t.docs, allocations, s, |t.docs|) + EarlyAllocated(t.docs, allocations, s.day)
    ensures !(side == s.side && For(s.who, party)) ==> AppliedIn(t.docs, allocations, s, |t.docs|) == 0
  {
    if allocations != [] {
      AllocationsSplit(t, side, party, allocations[..|allocations| - 1], s);
    }
  }

  lemma {:induction false} PaymentsSplit(t: Tables, payments: seq<Payment>, s: Selection)
    requires forall i :: 0 <= i < |payments| ==> LinkedPayment(t, payments[i])
    ensures OnAccount(payments, s) == Paid(payments, s.side, s.who, s.day) - Applied(t.docs, payments, s, |t.docs|) - EarlyPaid(t.docs, payments, s)
  {
    if payments != [] {
      var p := payments[|payments| - 1];
      PaymentsSplit(t, payments[..|payments| - 1], s);
      assert LinkedPayment(t, p);
      AllocationsSplit(t, p.side, p.party, p.allocations, s);
    }
  }

  /** Charges are the invoices, plus the applied notes and the early ones. */
  lemma {:induction false} ChargesSplit(t: Tables, s: Selection, n: nat)
    requires Linked(t) && n <= |t.docs|
    ensures Charged(t.docs[..n], s.side, s.who, s.day) == GrossSum(t.docs, s, n) + EarlyNoted(t.docs, t.docs[..n], s)
      + match s.side
        case Sales => AppliedNotes(t.docs, t.docs[..n], DebitNote, s, |t.docs|) - AppliedNotes(t.docs, t.docs[..n], CreditNote, s, |t.docs|)
        case Supplier => -AppliedNotes(t.docs, t.docs[..n], DebitNote, s, |t.docs|)
  {
    if n > 0 {
      ChargesSplit(t, s, n - 1);
      assert t.docs[..n][..n - 1] == t.docs[..n - 1];
      assert LinkedDoc(t, t.docs[n - 1]);
    }
  }

  /** For one party or for all, on every day: the report's total is the statement's closing balance plus
      exactly what was settled before it was invoiced. */
  lemma {:induction false} AgeingAgreesWithStatement(t: Tables, s: Selection)
    requires Linked(t)
    ensures AgeingTotal(t, s) == Balance(t, s.side, s.who, s.day) + Early(t, s)
  {
    var n := |t.docs|;
    OpenSplits(t, s, n);
    AllocatedByPayment(t.docs, t.payments, s, n);
    NotedByNote(t.docs, t.docs, DebitNote, s, n);
    NotedByNote(t.docs, t.docs, CreditNote, s, n);
    PaymentsSplit(t, t.payments, s);
    ChargesSplit(t, s, n);
    assert t.docs[..n] == t.docs;
  }

  predicate DatedBy(docs: seq<Doc>, i: nat, day: Day)
  {
    i < |docs| ==> docs[i].date <= day
  }

  /** Nothing dated by the cut-off settles an invoice dated after it. */
  predicate NothingEarly(t: Tables, day: Day)
  {
    && NoEarlyPayment(t.docs, t.payments, day)
    && forall i :: 0 <= i < |t.docs| && t.docs[i].date <= day && t.docs[i].original.Some? ==> DatedBy(t.docs, t.docs[i].original.value, day)
  }

  predicate NoEarlyPayment(docs: seq<Doc>, payments: seq<Payment>, day: Day)
  {
    forall i :: 0 <= i < |payments| && payments[i].date <= day ==> AllDatedBy(docs, payments[i].allocations, day)
  }

  predicate AllDatedBy(docs: seq<Doc>, allocations: seq<Allocation>, day: Day)
  {
    forall k :: 0 <= k < |allocations| ==> DatedBy(docs, allocations[k].invoice, day)
  }

  lemma {:induction false} NoneEarlyAllocated(docs: seq<Doc>, allocations: seq<Allocation>, day: Day)
    requires AllDatedBy(docs, allocations, day)
    ensures EarlyAllocated(docs, allocations, day) == 0
  {
    if allocations != [] {
      NoneEarlyAllocated(docs, allocations[..|allocations| - 1], day);
    }
  }

  lemma {:induction false} NoneEarlyPaid(docs: seq<Doc>, payments: seq<Payment>, s: Selection)
    requires NoEarlyPayment(docs, payments, s.day)
    ensures EarlyPaid(docs, payments, s) == 0
  {
    if payments != [] {
      var n := |payments| - 1;
      NoneEarlyPaid(docs, payments[..n], s);
      if payments[n].date <= s.day {
        NoneEarlyAllocated(docs, payments[n].allocations, s.day);
      }
    }
  }

  lemma {:induction false} NoneEarlyNoted(docs: seq<Doc>, notes: seq<Doc>, s: Selection)
    requires forall i :: 0 <= i < |notes| && notes[i].date <= s.day && notes[i].original.Some? ==> DatedBy(docs, notes[i].original.value, s.day)
    ensures EarlyNoted(docs, notes, s) == 0
  {
    if notes != [] {
      NoneEarlyNoted(docs, notes[..|notes| - 1], s);
    }
  }

  /** The control account's balance in its natural direction. */
  function Natural(side: Side, net: int): int { if side == Sales then net else -net }

  /** Over every run and for every day, the ageing report less the control account's balance is exactly what
      was settled before it was invoiced, less what documents put on the account by naming it: nothing when nothing
      predates its invoice and no document names the account. */
  lemma {:induction false} AgeingTiesToLedger(average: Averaging, commands: seq<Command>, side: Side, day: Day)
    ensures var t, s := Run(average, commands), Selection(side, None, day);
      var natural := Natural(side, NetUpTo(t.ledger, Control(side), day));
      && AgeingTotal(t, s) - natural == Early(t, s) - Natural(side, PutBy(average, commands, Control(side), day))
      && (NothingEarly(t, day) && Unnamed(commands, Control(side)) ==> AgeingTotal(t, s) == natural)
  {
    var t, s := Run(average, commands), Selection(side, None, day);
    RunHolds(average, commands);
    ControlTies(average, commands, side, day);
    AgeingAgreesWithStatement(t, s);
    if NothingEarly(t, day) && Unnamed(commands, Control(side)) {
      NoneEarlyPaid(t.docs, t.payments, s);
      NoneEarlyNoted(t.docs, t.docs, s);
      UnnamedPutsNothing(average, commands, Control(side), day);
    }
  }
}
