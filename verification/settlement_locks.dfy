/** Payments and notes racing for the same invoices. A payment or a sales note locks the party's row before it
    reads what is owed; a supplier debit note takes no such lock. Posted documents are only ever inserted, so
    what a session read can go stale only by another session's insert. */
module SettlementLocks {
  import opened Wrappers
  import opened Sums
  import opened Journal
  import opened Books
  import opened Invoicing
  import opened Settlement
  import opened PartyAccounts

  datatype Work = Settle(payment: Payment) | Note(doc: Doc)

  datatype Session = Session(work: Work, holdsParty: bool, checked: bool)

  datatype State = State(t: Tables, sessions: map<nat, Session>)

  datatype Event =
    | Begin(id: nat, work: Work)
    | LockParty(id: nat)
    | Check(id: nat)
    | Commit(id: nat)
    | Abort(id: nat)
    | Bill(side: Side, party: nat, date: Day, gross: nat)

  function PartyOf(w: Work): nat
  {
    match w
    case Settle(p) => p.party
    case Note(d) => d.party
  }

  /** `every` supposes that supplier debit notes took the lock too; the code has it false. */
  predicate NeedsLock(every: bool, w: Work)
  {
    every || w.Settle? || w.doc.side == Sales
  }

  /** The checks a payment or a note makes on what it read. */
  predicate Passes(t: Tables, w: Work)
  {
    match w
    case Settle(p) =>
      && NoDuplicates(p.allocations) && SumBy(p.allocations, AmountOf) <= p.amount
      && forall i :: 0 <= i < |p.allocations| ==> MaySettle(t, p.side, p.party, p.allocations[i])
    case Note(d) =>
      && IsNote(t, d)
      && Noted(t.docs, d.original.value, d.kind, FAR_FUTURE) + d.gross <= t.docs[d.original.value].gross
  }

  predicate MaySettle(t: Tables, side: Side, party: nat, a: Allocation)
  {
    Owes(t, side, party, a.invoice) && a.amount <= Outstanding(t, a.invoice, FAR_FUTURE)
  }

  predicate IsNote(t: Tables, d: Doc)
  {
    KindOf(d.side, d.kind) && 0 <= d.gross && d.original.Some? && Owes(t, d.side, d.party, d.original.value)
  }

  function Inserted(t: Tables, w: Work): Tables
  {
    match w
    case Settle(p) => t.(payments := t.payments + [p])
    case Note(d) => t.(docs := t.docs + [d])
  }

  /** These are the checks of the services, and the rows they insert. */
  lemma {:induction false} PaymentsCheck(t: Tables, side: Side, party: nat, date: Day, amount: nat, cash: Account, allocations: seq<Allocation>)
    requires CreatePayment(t, side, party, date, amount, cash, allocations).Success?
    ensures var w, u := Settle(Payment(side, party, date, amount, allocations)), CreatePayment(t, side, party, date, amount, cash, allocations).value;
      Passes(t, w) && u == Inserted(t, w).(ledger := u.ledger)
  {
    AllocationsChecked(t, side, party, allocations);
  }

  lemma {:induction false} NotesCheck(t: Tables, side: Side, kind: Kind, original: nat, date: Day, lines: seq<PricedLine>)
    requires KindOf(side, kind) && CreateNote(t, side, kind, original, date, lines).Success?
    ensures var w, u := Note(Doc(side, kind, t.docs[original].party, Some(original), date, None, Gross(TotalsOf(lines)))),
                        CreateNote(t, side, kind, original, date, lines).value;
      Passes(t, w) && u == Inserted(t, w).(ledger := u.ledger)
  {
    ByAccountGroups(lines);
    DocumentEntryAccepted(Control(side), Vat(side), kind == DebitNote, ByAccount(lines), TotalsOf(lines));
  }

  predicate PartyFree(s: State, id: nat, party: nat)
  {
    forall o :: o in s.sessions && o != id && s.sessions[o].holdsParty ==> PartyOf(s.sessions[o].work) != party
  }

  function Ended(s: State, id: nat): State { s.(sessions := s.sessions - {id}) }

  /** One step of one session; a step it must wait for changes nothing. */
  function Next(every: bool, s: State, e: Event): State
  {
    match e
    case Begin(id, w) =>
      if id in s.sessions then s else s.(sessions := s.sessions[id := Session(w, false, false)])
    case LockParty(id) =>
      if id in s.sessions && NeedsLock(every, s.sessions[id].work) && PartyFree(s, id, PartyOf(s.sessions[id].work))
      then s.(sessions := s.sessions[id := s.sessions[id].(holdsParty := true)])
      else s
    case Check(id) =>
      if id !in s.sessions || (NeedsLock(every, s.sessions[id].work) && !s.sessions[id].holdsParty) then s
      else if !Passes(s.t, s.sessions[id].work) then Ended(s, id)
      else s.(sessions := s.sessions[id := s.sessions[id].(checked := true)])
    case Commit(id) =>
      if id in s.sessions && s.sessions[id].checked then State(Inserted(s.t, s.sessions[id].work), s.sessions - {id}) else s
    case Abort(id) => Ended(s, id)
    case Bill(side, party, date, gross) =>
      s.(t := s.t.(docs := s.t.docs + [Doc(side, Kind.Invoice, party, None, date, Some(date), gross)]))
  }

  function Run(every: bool, events: seq<Event>): State
  {
    if events == [] then State(EMPTY, map[]) else Next(every, Run(every, events[..|events| - 1]), events[|events| - 1])
  }

  // ---- the invariant ----

  /** What stays true of a checked payment or note until it commits. */
  predicate Stands(every: bool, t: Tables, w: Work)
  {
    match w
    case Settle(p) =>
      if every || p.side == Sales then Passes(t, w)
      else
        && NoDuplicates(p.allocations) && SumBy(p.allocations, AmountOf) <= p.amount
        && forall i :: 0 <= i < |p.allocations| ==> WithinGross(t, p.side, p.party, p.allocations[i])
    case Note(d) => if every || d.side == Sales then Passes(t, w) else IsNote(t, d)
  }

  predicate WithinGross(t: Tables, side: Side, party: nat, a: Allocation)
  {
    Owes(t, side, party, a.invoice) && a.amount <= t.docs[a.invoice].gross - Allocations(t, a.invoice)
  }

  /** What is settled against an invoice in every interleaving: only the debit notes of a supplier invoice have
      no upper bound. */
  predicate Settled(every: bool, t: Tables, i: nat)
    requires i < |t.docs|
  {
    var d := t.docs[i];
    && 0 <= Credits(t, i) <= d.gross && 0 <= Debits(t, i) && 0 <= Allocations(t, i)
    && (every || d.side == Sales ==> Debits(t, i) <= d.gross)
    && Allocations(t, i) <= if d.side == Sales then d.gross + Debits(t, i) else d.gross
  }

  predicate TablesHold(every: bool, t: Tables)
  {
    Linked(t) && forall i :: 0 <= i < |t.docs| && t.docs[i].kind == Kind.Invoice ==> Settled(every, t, i)
  }

  predicate SessionHolds(every: bool, t: Tables, x: Session)
  {
    x.checked ==> (NeedsLock(every, x.work) ==> x.holdsParty) && Stands(every, t, x.work)
  }

  predicate Exclusive(s: State)
  {
    forall a, b :: a in s.sessions && b in s.sessions && a != b && s.sessions[a].holdsParty && s.sessions[b].holdsParty
      ==> PartyOf(s.sessions[a].work) != PartyOf(s.sessions[b].work)
  }

  predicate Holds(every: bool, s: State)
  {
    && TablesHold(every, s.t) && Exclusive(s)
    && forall id :: id in s.sessions ==> SessionHolds(every, s.t, s.sessions[id])
  }

  /** Nothing recorded against the invoice differs. */
  predicate SameAgainst(t: Tables, u: Tables, i: nat)
  {
    && i < |t.docs| && t.docs <= u.docs && Credits(u, i) == Credits(t, i) && Debits(u, i) == Debits(t, i)
    && Allocations(u, i) == Allocations(t, i)
  }

  lemma {:induction false} BillTouchesNone(t: Tables, d: Doc, i: nat)
    requires d.original.None? && i < |t.docs|
    ensures SameAgainst(t, t.(docs := t.docs + [d]), i)
  {
    NotedSnoc(t.docs, d, i, CreditNote, FAR_FUTURE);
    NotedSnoc(t.docs, d, i, DebitNote, FAR_FUTURE);
  }

  /** A payment or a note touches only invoices of its own party and side. */
  lemma {:induction false} InsertTouches(every: bool, t: Tables, w: Work, i: nat)
    requires Stands(every, t, w) && i < |t.docs|
    requires var side := if w.Settle? then w.payment.side else w.doc.side; !Owes(t, side, PartyOf(w), i)
    ensures SameAgainst(t, Inserted(t, w), i)
  {
    match w
    case Settle(p) =>
      AllocatedSnoc(t.payments, p, i, FAR_FUTURE);
      NoneIn(p.allocations, i);
    case Note(d) =>
      NotedSnoc(t.docs, d, i, CreditNote, FAR_FUTURE);
      NotedSnoc(t.docs, d, i, DebitNote, FAR_FUTURE);
  }

  /** What stood stands as long as nothing was recorded against the invoices it names. */
  lemma {:induction false} StandsStill(every: bool, t: Tables, u: Tables, w: Work)
    requires Stands(every, t, w)
    requires w.Settle? ==> forall i :: 0 <= i < |w.payment.allocations| ==> SameAgainst(t, u, w.payment.allocations[i].invoice)
    requires w.Note? ==> SameAgainst(t, u, w.doc.original.value)
    ensures Stands(every, u, w)
  {
    if w.Settle? {
      var p := w.payment;
      if every || p.side == Sales {
        forall i | 0 <= i < |p.allocations| ensures MaySettle(u, p.side, p.party, p.allocations[i]) {
          assert MaySettle(t, p.side, p.party, p.allocations[i]) && SameAgainst(t, u, p.allocations[i].invoice);
        }
      } else {
        forall i | 0 <= i < |p.allocations| ensures WithinGross(u, p.side, p.party, p.allocations[i]) {
          assert WithinGross(t, p.side, p.party, p.allocations[i]) && SameAgainst(t, u, p.allocations[i].invoice);
        }
      }
    }
  }

  lemma {:induction false} NamesOwn(every: bool, t: Tables, w: Work)
    requires Stands(every, t, w)
    ensures w.Settle? ==> forall i :: 0 <= i < |w.payment.allocations| ==>
      Owes(t, w.payment.side, w.payment.party, w.payment.allocations[i].invoice)
    ensures w.Note? ==> IsNote(t, w.doc)
  {
    if w.Settle? {
      forall i | 0 <= i < |w.payment.allocations| ensures Owes(t, w.payment.side, w.payment.party, w.payment.allocations[i].invoice) {
        assert MaySettle(t, w.payment.side, w.payment.party, w.payment.allocations[i])
          || WithinGross(t, w.payment.side, w.payment.party, w.payment.allocations[i]);
      }
    }
  }

  /** One session's insert leaves standing what a session of another party checked. */
  lemma {:induction false} OtherPartyStands(every: bool, t: Tables, w: Work, x: Work)
    requires Stands(every, t, w) && Stands(every, t, x) && PartyOf(w) != PartyOf(x)
    ensures Stands(every, Inserted(t, w), x)
  {
    NamesOwn(every, t, x);
    if x.Settle? {
      forall i | 0 <= i < |x.payment.allocations| ensures SameAgainst(t, Inserted(t, w), x.payment.allocations[i].invoice) {
        InsertTouches(every, t, w, x.payment.allocations[i].invoice);
      }
    } else {
      InsertTouches(every, t, w, x.doc.original.value);
    }
    StandsStill(every, t, Inserted(t, w), x);
  }

  /** A supplier debit note that took no lock disturbs no sales session, and on its own side only what the
      others could not rely on anyway. */
  lemma {:induction false} UnlockedNoteSpares(every: bool, t: Tables, d: Doc, x: Work)
    requires d.side == Supplier && Stands(every, t, Note(d)) && Stands(every, t, x) && !every
    ensures Stands(every, Inserted(t, Note(d)), x)
  {
    var w, u := Note(d), Inserted(t, Note(d));
    NamesOwn(every, t, x);
    if x.Note? {
      if x.doc.side == Sales {
        InsertTouches(every, t, w, x.doc.original.value);
        StandsStill(every, t, u, x);
      }
    } else if x.payment.side == Sales {
      forall i | 0 <= i < |x.payment.allocations| ensures SameAgainst(t, u, x.payment.allocations[i].invoice) {
        InsertTouches(every, t, w, x.payment.allocations[i].invoice);
      }
      StandsStill(every, t, u, x);
    } else {
      var p := x.payment;
      forall i | 0 <= i < |p.allocations| ensures WithinGross(u, p.side, p.party, p.allocations[i]) {
        assert WithinGross(t, p.side, p.party, p.allocations[i]);
      }
    }
  }

  /** Whoever commits, what the others checked still stands. */
  lemma {:induction false} CommitSpares(every: bool, s: State, id: nat, o: nat)
    requires Holds(every, s) && id in s.sessions && s.sessions[id].checked && o in s.sessions && o != id
    ensures SessionHolds(every, Inserted(s.t, s.sessions[id].work), s.sessions[o])
  {
    var x, y := s.sessions[id], s.sessions[o];
    assert SessionHolds(every, s.t, x) && SessionHolds(every, s.t, y);
    if y.checked {
      if PartyOf(x.work) != PartyOf(y.work) {
        OtherPartyStands(every, s.t, x.work, y.work);
      } else if !NeedsLock(every, x.work) {
        UnlockedNoteSpares(every, s.t, x.work.doc, y.work);
      } else {
        assert !NeedsLock(every, y.work);
        var d := y.work.doc;
        assert IsNote(s.t, d);
      }
    }
  }

  /** Committing what still stands keeps every bound. */
  lemma {:induction false} InsertHolds(every: bool, t: Tables, w: Work)
    requires TablesHold(every, t) && Stands(every, t, w)
    ensures TablesHold(every, Inserted(t, w))
  {
    var u := Inserted(t, w);
    LinksStay(t, u);
    NamesOwn(every, t, w);
    forall i | 0 <= i < |u.docs| && u.docs[i].kind == Kind.Invoice ensures Settled(every, u, i) {
      assert Settled(every, t, i);
      if w.Settle? {
        PaymentSettles(every, t, w.payment, i);
      } else {
        NotedSnoc(t.docs, w.doc, i, CreditNote, FAR_FUTURE);
        NotedSnoc(t.docs, w.doc, i, DebitNote, FAR_FUTURE);
      }
    }
  }

  lemma {:induction false} PaymentSettles(every: bool, t: Tables, p: Payment, i: nat)
    requires Stands(every, t, Settle(p)) && i < |t.docs| && Settled(every, t, i)
    ensures Settled(every, Inserted(t, Settle(p)), i)
  {
    AllocatedSnoc(t.payments, p, i, FAR_FUTURE);
    AllocatedInOne(p.allocations, i);
    if k :| 0 <= k < |p.allocations| && p.allocations[k].invoice == i && p.allocations[k].amount == AllocatedIn(p.allocations, i) {
      assert MaySettle(t, p.side, p.party, p.allocations[k]) || WithinGross(t, p.side, p.party, p.allocations[k]);
    }
  }

  /** A new invoice changes nothing for the others. */
  lemma {:induction false} OldOnesSettled(every: bool, t: Tables, d: Doc, i: nat)
    requires d.original.None? && i < |t.docs| && Settled(every, t, i)
    ensures Settled(every, t.(docs := t.docs + [d]), i)
  {
    BillTouchesNone(t, d, i);
  }

  /** It starts with nothing against it. */
  lemma {:induction false} NewOneSettled(every: bool, t: Tables, d: Doc)
    requires Linked(t) && d.original.None? && 0 <= d.gross
    ensures Settled(every, t.(docs := t.docs + [d]), |t.docs|)
    ensures Debits(t.(docs := t.docs + [d]), |t.docs|) == 0
  {
    var n := |t.docs|;
    forall j | 0 <= j < n ensures t.docs[j].original != Some(n) {
      assert LinkedDoc(t, t.docs[j]);
    }
    forall j, k | 0 <= j < |t.payments| && 0 <= k < |t.payments[j].allocations| ensures t.payments[j].allocations[k].invoice != n {
      assert LinkedPayment(t, t.payments[j]);
    }
    NothingNoted(t.docs, n, CreditNote, FAR_FUTURE);
    NothingNoted(t.docs, n, DebitNote, FAR_FUTURE);
    NothingAllocated(t.payments, n, FAR_FUTURE);
    NotedSnoc(t.docs, d, n, CreditNote, FAR_FUTURE);
    NotedSnoc(t.docs, d, n, DebitNote, FAR_FUTURE);
  }

  lemma {:induction false} BillLinked(t: Tables, d: Doc)
    requires Linked(t) && d.kind == Kind.Invoice && d.original.None? && 0 <= d.gross
    ensures Linked(t.(docs := t.docs + [d]))
  {
    LinksStay(t, t.(docs := t.docs + [d]));
  }

  lemma {:induction false} BillHolds(every: bool, t: Tables, d: Doc)
    requires TablesHold(every, t) && d.kind == Kind.Invoice && d.original.None? && 0 <= d.gross
    ensures TablesHold(every, t.(docs := t.docs + [d]))
  {
    var u := t.(docs := t.docs + [d]);
    BillLinked(t, d);
    NewOneSettled(every, t, d);
    forall i | 0 <= i < |u.docs| && u.docs[i].kind == Kind.Invoice ensures Settled(every, u, i) {
      if i < |t.docs| {
        OldOnesSettled(every, t, d, i);
      }
    }
  }

  lemma {:induction false} BillSpares(every: bool, t: Tables, d: Doc, x: Work)
    requires d.original.None? && Stands(every, t, x)
    ensures Stands(every, t.(docs := t.docs + [d]), x)
  {
    var u := t.(docs := t.docs + [d]);
    NamesOwn(every, t, x);
    if x.Settle? {
      forall i | 0 <= i < |x.payment.allocations| ensures SameAgainst(t, u, x.payment.allocations[i].invoice) {
        BillTouchesNone(t, d, x.payment.allocations[i].invoice);
      }
    } else {
      BillTouchesNone(t, d, x.doc.original.value);
    }
    StandsStill(every, t, u, x);
  }

  lemma {:induction false} CheckedStands(every: bool, t: Tables, w: Work)
    requires Passes(t, w) && forall i :: 0 <= i < |t.docs| && t.docs[i].kind == Kind.Invoice ==> Settled(every, t, i)
    ensures Stands(every, t, w)
  {
    if w.Settle? && !every && w.payment.side == Supplier {
      var p := w.payment;
      forall i | 0 <= i < |p.allocations| ensures WithinGross(t, p.side, p.party, p.allocations[i]) {
        assert MaySettle(t, p.side, p.party, p.allocations[i]) && Settled(every, t, p.allocations[i].invoice);
      }
    }
  }

  lemma {:induction false} NextKeeps(every: bool, s: State, e: Event)
    requires Holds(every, s)
    ensures Holds(every, Next(every, s, e))
  {
    var t := Next(every, s, e);
    match e
    case Begin(id, w) =>
    case LockParty(id) =>
    case Check(id) =>
      if id in s.sessions && Passes(s.t, s.sessions[id].work) {
        CheckedStands(every, s.t, s.sessions[id].work);
      }
    case Commit(id) =>
      if t != s {
        assert SessionHolds(every, s.t, s.sessions[id]);
        InsertHolds(every, s.t, s.sessions[id].work);
        forall o | o in t.sessions ensures SessionHolds(every, t.t, t.sessions[o]) {
          CommitSpares(every, s, id, o);
        }
      }
    case Abort(id) =>
    case Bill(side, party, date, gross) =>
      var d := Doc(side, Kind.Invoice, party, None, date, Some(date), gross);
      BillHolds(every, s.t, d);
      forall o | o in t.sessions ensures SessionHolds(every, t.t, t.sessions[o]) {
        assert SessionHolds(every, s.t, s.sessions[o]);
        if s.sessions[o].checked {
          BillSpares(every, s.t, d, s.sessions[o].work);
        }
      }
  }

  /** In every interleaving: allocations never exceed what the invoice charges, credit notes never its gross,
      and neither do the debit notes of a sales invoice. */
  lemma {:induction false} InEveryInterleaving(every: bool, events: seq<Event>)
    ensures Holds(every, Run(every, events))
  {
    if events != [] {
      InEveryInterleaving(every, events[..|events| - 1]);
      NextKeeps(every, Run(every, events[..|events| - 1]), events[|events| - 1]);
    }
  }

  /** Were supplier debit notes to take the party's lock, every bound of a run of whole transactions would hold
      in every interleaving. */
  lemma {:induction false} LockingEveryNoteSuffices(events: seq<Event>)
    ensures PartiesHold(Run(true, events).t)
  {
    InEveryInterleaving(true, events);
    var t := Run(true, events).t;
    forall i | 0 <= i < |t.docs| && t.docs[i].kind == Kind.Invoice ensures Bounded(t, i) {
      assert Settled(true, t, i);
    }
  }

  // ---- when debit notes stay within the invoice ----

  /** The step commits a debit note on the invoice whose check would now refuse it. */
  predicate CommitsStale(s: State, e: Event, i: nat)
  {
    && e.Commit? && e.id in s.sessions && s.sessions[e.id].checked
    && var w := s.sessions[e.id].work;
      w.Note? && w.doc.kind == DebitNote && w.doc.original == Some(i) && !Passes(s.t, w)
  }

  predicate NoneStale(events: seq<Event>, i: nat)
  {
    events == []
    || (NoneStale(events[..|events| - 1], i) && !CommitsStale(Run(false, events[..|events| - 1]), events[|events| - 1], i))
  }

  predicate IsInvoice(t: Tables, i: nat) { i < |t.docs| && t.docs[i].kind == Kind.Invoice }

  /** A checked note still names an invoice there is. */
  lemma {:induction false} CheckedNoteNames(s: State, id: nat)
    requires Holds(false, s) && id in s.sessions && s.sessions[id].checked && s.sessions[id].work.Note?
    ensures IsNote(s.t, s.sessions[id].work.doc)
  {
    assert SessionHolds(false, s.t, s.sessions[id]);
    NamesOwn(false, s.t, s.sessions[id].work);
  }

  /** Committing a note raises the debit notes of its own invoice only, past the gross exactly when it is stale. */
  lemma {:induction false} CommitDebits(s: State, id: nat, i: nat)
    requires Holds(false, s) && id in s.sessions && s.sessions[id].checked && s.sessions[id].work.Note? && IsInvoice(s.t, i)
    ensures var u := Inserted(s.t, s.sessions[id].work);
      && IsInvoice(u, i) && u.docs[i] == s.t.docs[i] && Debits(s.t, i) <= Debits(u, i)
      && (CommitsStale(s, Commit(id), i) ==> u.docs[i].gross < Debits(u, i))
      && (Debits(s.t, i) <= s.t.docs[i].gross && !CommitsStale(s, Commit(id), i) ==> Debits(u, i) <= u.docs[i].gross)
  {
    CheckedNoteNames(s, id);
    NotedSnoc(s.t.docs, s.sessions[id].work.doc, i, DebitNote, FAR_FUTURE);
  }

  lemma {:induction false} BillDebits(t: Tables, d: Doc, i: nat)
    requires Linked(t) && d.kind == Kind.Invoice && d.original.None? && 0 <= d.gross
    ensures var u := t.(docs := t.docs + [d]);
      && (IsInvoice(t, i) ==> IsInvoice(u, i) && u.docs[i] == t.docs[i] && Debits(u, i) == Debits(t, i))
      && (IsInvoice(u, i) && !IsInvoice(t, i) ==> Debits(u, i) == 0)
  {
    if i < |t.docs| {
      BillTouchesNone(t, d, i);
    } else if i == |t.docs| {
      NewOneSettled(false, t, d);
    }
  }

  /** For one step: the bound survives it exactly when it commits nothing stale, and stays broken once it is. */
  lemma {:induction false} StepDebits(s: State, e: Event, i: nat)
    requires Holds(false, s)
    ensures var u := Next(false, s, e);
      && (IsInvoice(s.t, i) ==>
            && IsInvoice(u.t, i)
            && (Debits(u.t, i) <= u.t.docs[i].gross <==> Debits(s.t, i) <= s.t.docs[i].gross && !CommitsStale(s, e, i)))
      && (!IsInvoice(s.t, i) ==> !CommitsStale(s, e, i) && (IsInvoice(u.t, i) ==> Debits(u.t, i) <= u.t.docs[i].gross))
  {
    match e
    case Commit(id) =>
      if id in s.sessions && s.sessions[id].checked && s.sessions[id].work.Note? {
        CheckedNoteNames(s, id);
        if IsInvoice(s.t, i) {
          CommitDebits(s, id, i);
        }
      }
    case Bill(side, party, date, gross) =>
      BillDebits(s.t, Doc(side, Kind.Invoice, party, None, date, Some(date), gross), i);
    case _ =>
  }

  /** In every interleaving, as the code is: the debit notes of an invoice stay within its gross exactly when none
      of them committed after others had used up what its check saw. */
  lemma {:induction false} DebitsWithinGross(events: seq<Event>, i: nat)
    ensures IsInvoice(Run(false, events).t, i) ==>
      (Debits(Run(false, events).t, i) <= Run(false, events).t.docs[i].gross <==> NoneStale(events, i))
    ensures !IsInvoice(Run(false, events).t, i) ==> NoneStale(events, i)
  {
    if events != [] {
      var before := events[..|events| - 1];
      DebitsWithinGross(before, i);
      InEveryInterleaving(false, before);
      StepDebits(Run(false, before), events[|events| - 1], i);
    }
  }

  /** So what is still owed lies, in every interleaving, between minus the credit notes and gross plus debit notes
      on the sales side; on the supplier side it never exceeds the gross. */
  lemma {:induction false} OutstandingInEveryInterleaving(events: seq<Event>, i: nat)
    requires IsInvoice(Run(false, events).t, i)
    ensures var t := Run(false, events).t; var d := t.docs[i];
      && (d.side == Sales ==> -Credits(t, i) <= Outstanding(t, i, FAR_FUTURE) <= d.gross + Debits(t, i) && Debits(t, i) <= d.gross)
      && (d.side == Supplier ==> -Debits(t, i) <= Outstanding(t, i, FAR_FUTURE) <= d.gross)
  {
    InEveryInterleaving(false, events);
    assert Settled(false, Run(false, events).t, i);
  }

  // ---- two supplier debit notes ----

  lemma {:induction false} Do(every: bool, events: seq<Event>, s: State, e: Event, t: State) returns (more: seq<Event>)
    requires s == Run(every, events) && Next(every, s, e) == t
    ensures more == events + [e] && Run(every, more) == t
  {
    more := events + [e];
    assert more[..|events|] == events;
  }

  const BILL := Doc(Supplier, Kind.Invoice, 0, None, 0, Some(0), 10)
  const DEBIT := Note(Doc(Supplier, DebitNote, 0, Some(0), 0, None, 10))
  const BILLED := EMPTY.(docs := [BILL])
  const READY := Session(DEBIT, false, true)

  lemma {:induction false} NoneYet()
    ensures Passes(BILLED, DEBIT)
  {
    assert Noted([], 0, DebitNote, FAR_FUTURE) == 0;
    NotedSnoc([], BILL, 0, DebitNote, FAR_FUTURE);
    assert [] + [BILL] == BILLED.docs;
  }

  lemma {:induction false} BothCheck() returns (events: seq<Event>)
    ensures Run(false, events) == State(BILLED, map[1 := READY, 2 := READY])
  {
    NoneYet();
    var begun := Session(DEBIT, false, false);
    var s := State(EMPTY, map[]);
    events := Do(false, [], s, Bill(Supplier, 0, 0, 10), State(BILLED, map[]));
    events := Do(false, events, State(BILLED, map[]), Begin(1, DEBIT), State(BILLED, map[1 := begun]));
    events := Do(false, events, State(BILLED, map[1 := begun]), Check(1), State(BILLED, map[1 := READY]));
    events := Do(false, events, State(BILLED, map[1 := READY]), Begin(2, DEBIT), State(BILLED, map[1 := READY, 2 := begun]));
    events := Do(false, events, State(BILLED, map[1 := READY, 2 := begun]), Check(2), State(BILLED, map[1 := READY, 2 := READY]));
  }

  /** Each sees no debit note yet, both commit, and the invoice is debited twice over. */
  lemma {:induction false} UnlockedNotesExceedInvoice() returns (events: seq<Event>)
    ensures var t := Run(false, events).t; |t.docs| == 3 && t.docs[0].kind == Kind.Invoice && Debits(t, 0) == 2 * t.docs[0].gross > 0
  {
    events := BothCheck();
    var d := DEBIT.doc;
    var one, two := Inserted(BILLED, DEBIT), Inserted(Inserted(BILLED, DEBIT), DEBIT);
    events := Do(false, events, State(BILLED, map[1 := READY, 2 := READY]), Commit(1), State(one, map[2 := READY]));
    events := Do(false, events, State(one, map[2 := READY]), Commit(2), State(two, map[]));
    NoneYet();
    NotedSnoc([], BILL, 0, DebitNote, FAR_FUTURE);
    assert [] + [BILL] == BILLED.docs;
    NotedSnoc(BILLED.docs, d, 0, DebitNote, FAR_FUTURE);
    NotedSnoc(one.docs, d, 0, DebitNote, FAR_FUTURE);
  }
}
