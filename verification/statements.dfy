/** What a party owes by its statement, and by the ageing report; the two agree up to documents dated before
    the invoice they settle. */
module Statements {
  import opened Wrappers
  import opened Journal
  import opened Books

  /** Invoices and sales debit notes charge; credit notes and supplier debit notes settle. */
  function Charge(d: Doc): int
  {
    if d.kind == Kind.Invoice || (d.side == Sales && d.kind == DebitNote) then d.gross else -d.gross
  }

  /** One party, or all of them. */
  predicate For(who: Option<nat>, party: nat)
  {
    who.None? || who.value == party
  }

  function Charged(docs: seq<Doc>, side: Side, who: Option<nat>, day: Day): int
  {
    if docs == [] then 0
    else
      var d := docs[|docs| - 1];
      Charged(docs[..|docs| - 1], side, who, day) + if d.side == side && For(who, d.party) && d.date <= day then Charge(d) else 0
  }

  function Paid(payments: seq<Payment>, side: Side, who: Option<nat>, day: Day): int
  {
    if payments == [] then 0
    else
      var p := payments[|payments| - 1];
      Paid(payments[..|payments| - 1], side, who, day) + if p.side == side && For(who, p.party) && p.date <= day then p.amount else 0
  }

  /** The closing balance of the statement on a day: charges less settlements. */
  function Balance(t: Tables, side: Side, who: Option<nat>, day: Day): int
  {
    Charged(t.docs, side, who, day) - Paid(t.payments, side, who, day)
  }
}
