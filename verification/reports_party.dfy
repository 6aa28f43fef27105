/** The two party reports as they are computed: the ageing by party and bucket, and the statement. */
module PartyReports {
  import opened Wrappers
  import opened Sums
  import opened Journal
  import opened Books
  import opened Settlement
  import opened Statements
  import opened Ageing

  // ---- ageing ----

  datatype Column = Current | Days1To30 | Days31To60 | Days61To90 | Over90 | Unmatched

  /** Not yet due is current; then thirty days a bucket. */
  function BucketFor(days: int): Column
  {
    if days <= 0 then Current else if days <= 30 then Days1To30 else if days <= 60 then Days31To60
    else if days <= 90 then Days61To90 else Over90
  }

  /** An invoice is overdue from its due date, or its own date when none was given. */
  function BucketOf(d: Doc, asOf: Day): Column
  {
    BucketFor(asOf - if d.due.Some? then d.due.value else d.date)
  }

  /** What the selected invoices among the first n owe in one bucket. */
  function OpenIn(t: Tables, s: Selection, c: Column, n: nat): int
    requires n <= |t.docs|
  {
    if n == 0 then 0
    else
      var here := Selected(t.docs, n - 1, s) && BucketOf(t.docs[n - 1], s.day) == c;
      OpenIn(t, s, c, n - 1) + if here then Outstanding(t, n - 1, s.day) else 0
  }

  /** Every open invoice is in exactly one bucket. */
  lemma {:induction false} BucketsCover(t: Tables, s: Selection, n: nat)
    requires n <= |t.docs|
    ensures Open(t, s, n) == OpenIn(t, s, Current, n) + OpenIn(t, s, Days1To30, n) + OpenIn(t, s, Days31To60, n)
                           + OpenIn(t, s, Days61To90, n) + OpenIn(t, s, Over90, n)
    ensures OpenIn(t, s, Unmatched, n) == 0
  {
    if n > 0 {
      BucketsCover(t, s, n - 1);
    }
  }

  /** What the selected invoices among the first n owe that are more than so many days past due. */
  function OpenPast(t: Tables, s: Selection, days: int, n: nat): int
    requires n <= |t.docs|
  {
    if n == 0 then 0
    else
      var d := t.docs[n - 1];
      var due := if d.due.Some? then d.due.value else d.date;
      OpenPast(t, s, days, n - 1) + if Selected(t.docs, n - 1, s) && days < s.day - due then Outstanding(t, n - 1, s.day) else 0
  }

  /** The columns by the day: not yet past due, then up to 30, 60 and 90 days past due, then the rest. */
  lemma {:induction false} BucketsByDays(t: Tables, s: Selection, n: nat)
    requires n <= |t.docs|
    ensures OpenIn(t, s, Current, n) == Open(t, s, n) - OpenPast(t, s, 0, n)
    ensures OpenIn(t, s, Days1To30, n) == OpenPast(t, s, 0, n) - OpenPast(t, s, 30, n)
    ensures OpenIn(t, s, Days31To60, n) == OpenPast(t, s, 30, n) - OpenPast(t, s, 60, n)
    ensures OpenIn(t, s, Days61To90, n) == OpenPast(t, s, 60, n) - OpenPast(t, s, 90, n)
    ensures OpenIn(t, s, Over90, n) == OpenPast(t, s, 90, n)
  {
    if n > 0 {
      BucketsByDays(t, s, n - 1);
    }
  }

  function One(side: Side, party: nat, asOf: Day): Selection { Selection(side, Some(party), asOf) }
  function Everyone(side: Side, asOf: Day): Selection { Selection(side, None, asOf) }

  /** The GROUP BY of the on-account query. */
  function UnallocatedBy(payments: seq<Payment>, side: Side, asOf: Day): Tally<nat>
  {
    if payments == [] then []
    else
      var p, before := payments[|payments| - 1], UnallocatedBy(payments[..|payments| - 1], side, asOf);
      if p.side == side && p.date <= asOf then Add(before, p.party, UnallocatedOf(p)) else before
  }

  lemma {:induction false} UnallocatedOne(payments: seq<Payment>, side: Side, asOf: Day, p: nat)
    ensures Distinct(UnallocatedBy(payments, side, asOf))
    ensures Get(UnallocatedBy(payments, side, asOf), p) == OnAccount(payments, One(side, p, asOf))
  {
    if payments != [] {
      var last, before := payments[|payments| - 1], payments[..|payments| - 1];
      UnallocatedOne(before, side, asOf, p);
      AddGet(UnallocatedBy(before, side, asOf), last.party, UnallocatedOf(last), p);
      AddEffect(UnallocatedBy(before, side, asOf), last.party, UnallocatedOf(last));
    }
  }

  lemma {:induction false} UnallocatedAll(payments: seq<Payment>, side: Side, asOf: Day)
    ensures Total(UnallocatedBy(payments, side, asOf)) == OnAccount(payments, Everyone(side, asOf))
  {
    if payments != [] {
      var last, before := payments[|payments| - 1], payments[..|payments| - 1];
      UnallocatedAll(before, side, asOf);
      UnallocatedOne(before, side, asOf, 0);
      AddEffect(UnallocatedBy(before, side, asOf), last.party, UnallocatedOf(last));
    }
  }

  lemma {:induction false} UnallocatedByParty(payments: seq<Payment>, side: Side, asOf: Day)
    ensures Distinct(UnallocatedBy(payments, side, asOf))
    ensures Total(UnallocatedBy(payments, side, asOf)) == OnAccount(payments, Everyone(side, asOf))
    ensures forall p :: Get(UnallocatedBy(payments, side, asOf), p) == OnAccount(payments, One(side, p, asOf))
  {
    UnallocatedAll(payments, side, asOf);
    UnallocatedOne(payments, side, asOf, 0);
    forall p {
      UnallocatedOne(payments, side, asOf, p);
    }
  }

  type Cells = Tally<(nat, Column)>

  function At(cells: Cells, party: nat, c: Column): int { Get(cells, (party, c)) }

  /** A party's row: five buckets and what is on account. */
  function RowTotal(cells: Cells, party: nat): int
  {
    At(cells, party, Current) + At(cells, party, Days1To30) + At(cells, party, Days31To60)
      + At(cells, party, Days61To90) + At(cells, party, Over90) + At(cells, party, Unmatched)
  }

  lemma {:induction false} AddCell(cells: Cells, party: nat, c: Column, v: int)
    requires Distinct(cells)
    ensures Distinct(Add(cells, (party, c), v)) && Total(Add(cells, (party, c), v)) == Total(cells) + v
    ensures forall p, d :: At(Add(cells, (party, c), v), p, d) == At(cells, p, d) + if p == party && d == c then v else 0
  {
    AddEffect(cells, (party, c), v);
  }

  /** The report's loops. Each cell is its party's open invoices in that bucket; each row adds up to the
      party's ageing, the whole to the side's. */
  method Report(t: Tables, side: Side, asOf: Day) returns (cells: Cells, total: int)
    ensures Distinct(cells)
    ensures forall p, c :: c != Unmatched ==> At(cells, p, c) == OpenIn(t, One(side, p, asOf), c, |t.docs|)
    ensures forall p :: At(cells, p, Unmatched) == 0 - OnAccount(t.payments, One(side, p, asOf))
    ensures forall p :: RowTotal(cells, p) == AgeingTotal(t, One(side, p, asOf))
    ensures total == AgeingTotal(t, Everyone(side, asOf))
  {
    var invoices := AddInvoices(t, side, asOf);
    UnallocatedByParty(t.payments, side, asOf);
    cells := AddOnAccount(invoices, UnallocatedBy(t.payments, side, asOf));
    total := AddUpCells(cells);
    forall p ensures RowTotal(cells, p) == AgeingTotal(t, One(side, p, asOf)) {
      BucketsCover(t, One(side, p, asOf), |t.docs|);
    }
  }

  method AddUpCells(cells: Cells) returns (total: int)
    ensures total == Total(cells)
  {
    total := 0;
    for i := 0 to |cells|
      invariant total == Total(cells[..i])
    {
      SumByPrefix(cells, i, Amount);
      total := total + cells[i].1;
    }
    assert cells[..|cells|] == cells;
  }

  lemma {:induction false} OneMore(t: Tally<nat>, i: nat)
    requires Distinct(t) && i < |t|
    ensures forall p :: Get(t[..i + 1], p) == Get(t[..i], p) + if p == t[i].0 then t[i].1 else 0
    ensures Total(t[..i + 1]) == Total(t[..i]) + t[i].1
  {
    var u := t[..i + 1];
    assert u[..i] == t[..i] && u[i] == t[i];
    forall p ensures Get(u, p) == Get(t[..i], p) + if p == t[i].0 then t[i].1 else 0 {
      LastEntry(u, p);
    }
    SumByPrefix(t, i, Amount);
  }

  /** The cells so far: invoices as they were, and one total on account for each of the parties met. */
  ghost predicate OnAccountFilled(cells: Cells, invoices: Cells, unallocated: Tally<nat>)
  {
    && Distinct(cells)
    && (forall p, c :: At(cells, p, c) == if c == Unmatched then 0 - Get(unallocated, p) else At(invoices, p, c))
    && Total(cells) == Total(invoices) - Total(unallocated)
  }

  lemma {:induction false} OneMoreOnAccount(cells: Cells, invoices: Cells, unallocated: Tally<nat>, i: nat)
    requires Distinct(unallocated) && i < |unallocated| && OnAccountFilled(cells, invoices, unallocated[..i])
    ensures var (party, amount) := unallocated[i];
      && OnAccountFilled(Add(cells, (party, Unmatched), 0 - amount), invoices, unallocated[..i + 1])
      && (amount == 0 ==> OnAccountFilled(cells, invoices, unallocated[..i + 1]))
  {
    OneMore(unallocated, i);
    AddCell(cells, unallocated[i].0, Unmatched, 0 - unallocated[i].1);
  }

  /** The loop over unallocated payments, one total per party. */
  method AddOnAccount(invoices: Cells, unallocated: Tally<nat>) returns (cells: Cells)
    requires Distinct(invoices) && Distinct(unallocated)
    requires forall p :: At(invoices, p, Unmatched) == 0
    ensures OnAccountFilled(cells, invoices, unallocated)
  {
    cells := invoices;
    assert unallocated[..0] == [];
    for i := 0 to |unallocated|
      invariant OnAccountFilled(cells, invoices, unallocated[..i])
    {
      OneMoreOnAccount(cells, invoices, unallocated, i);
      var (party, amount) := unallocated[i];
      if amount != 0 {
        cells := Add(cells, (party, Unmatched), 0 - amount);
      }
    }
    assert unallocated[..|unallocated|] == unallocated;
  }

  /** The cells so far: what the first n documents leave open, party by party and bucket by bucket. */
  ghost predicate InvoicesFilled(cells: Cells, t: Tables, side: Side, asOf: Day, n: nat)
    requires n <= |t.docs|
  {
    && Distinct(cells)
    && (forall p, c :: At(cells, p, c) == if c == Unmatched then 0 else OpenIn(t, One(side, p, asOf), c, n))
    && Total(cells) == Open(t, Everyone(side, asOf), n)
  }

  /** The next document adds what it owes to its own party's own bucket. */
  lemma {:induction false} NextInvoice(t: Tables, side: Side, asOf: Day, i: nat)
    requires i < |t.docs|
    ensures var owed := if Selected(t.docs, i, Everyone(side, asOf)) then Outstanding(t, i, asOf) else 0;
      && Open(t, Everyone(side, asOf), i + 1) == Open(t, Everyone(side, asOf), i) + owed
      && forall p, c :: OpenIn(t, One(side, p, asOf), c, i + 1)
           == OpenIn(t, One(side, p, asOf), c, i) + if t.docs[i].party == p && BucketOf(t.docs[i], asOf) == c then owed else 0
  {
  }

  lemma {:induction false} OneMoreInvoice(cells: Cells, t: Tables, side: Side, asOf: Day, i: nat)
    requires i < |t.docs| && InvoicesFilled(cells, t, side, asOf, i)
    ensures !Selected(t.docs, i, Everyone(side, asOf)) || Outstanding(t, i, asOf) == 0 ==> InvoicesFilled(cells, t, side, asOf, i + 1)
    ensures Selected(t.docs, i, Everyone(side, asOf)) ==>
      InvoicesFilled(Add(cells, (t.docs[i].party, BucketOf(t.docs[i], asOf)), Outstanding(t, i, asOf)), t, side, asOf, i + 1)
  {
    NextInvoice(t, side, asOf, i);
    AddCell(cells, t.docs[i].party, BucketOf(t.docs[i], asOf), Outstanding(t, i, asOf));
  }

  /** The loop over open invoices; one owing nothing gets no cell. */
  method AddInvoices(t: Tables, side: Side, asOf: Day) returns (cells: Cells)
    ensures InvoicesFilled(cells, t, side, asOf, |t.docs|)
  {
    cells := [];
    for i := 0 to |t.docs|
      invariant InvoicesFilled(cells, t, side, asOf, i)
    {
      OneMoreInvoice(cells, t, side, asOf, i);
      if Selected(t.docs, i, Everyone(side, asOf)) {
        var outstanding := Outstanding(t, i, asOf);
        if outstanding != 0 {
          cells := Add(cells, (t.docs[i].party, BucketOf(t.docs[i], asOf)), outstanding);
        }
      }
    }
  }

  // ---- the statement ----

  datatype Row = Row(date: Day, charge: int, settlement: int)

  function Moves(r: Row): int { r.charge - r.settlement }

  function DocRow(d: Doc): Row
  {
    if d.kind == Kind.Invoice || (d.side == Sales && d.kind == DebitNote) then Row(d.date, d.gross, 0) else Row(d.date, 0, d.gross)
  }

  function DocRows(docs: seq<Doc>, side: Side, party: nat, to: Day): seq<Row>
  {
    if docs == [] then []
    else
      var d := docs[|docs| - 1];
      DocRows(docs[..|docs| - 1], side, party, to) + if d.side == side && d.party == party && d.date <= to then [DocRow(d)] else []
  }

  function PaymentRows(payments: seq<Payment>, side: Side, party: nat, to: Day): seq<Row>
  {
    if payments == [] then []
    else
      var p := payments[|payments| - 1];
      PaymentRows(payments[..|payments| - 1], side, party, to)
        + if p.side == side && p.party == party && p.date <= to then [Row(p.date, 0, p.amount)] else []
  }

  predicate ByDate(rows: seq<Row>)
  {
    forall i, j :: 0 <= i < j < |rows| ==> rows[i].date <= rows[j].date
  }

  /** ORDER BY date, ties in the order the rows came. */
  function InsertRow(r: Row, rows: seq<Row>): seq<Row>
  {
    if rows == [] then [r]
    else if rows[|rows| - 1].date <= r.date then rows + [r]
    else InsertRow(r, rows[..|rows| - 1]) + [rows[|rows| - 1]]
  }

  function Ordered(rows: seq<Row>): seq<Row>
  {
    if rows == [] then [] else InsertRow(rows[|rows| - 1], Ordered(rows[..|rows| - 1]))
  }

  function StatementRows(t: Tables, side: Side, party: nat, to: Day): seq<Row>
  {
    Ordered(DocRows(t.docs, side, party, to) + PaymentRows(t.payments, side, party, to))
  }

  lemma {:induction false} InsertRowKeeps(r: Row, rows: seq<Row>, f: Row -> int)
    ensures |InsertRow(r, rows)| == |rows| + 1
    ensures SumBy(InsertRow(r, rows), f) == SumBy(rows, f) + f(r)
  {
    if rows != [] {
      var before, last := rows[..|rows| - 1], rows[|rows| - 1];
      InsertRowKeeps(r, before, f);
      SumBySnoc(rows, r, f);
      SumBySnoc(InsertRow(r, before), last, f);
    }
  }

  function ChargeOf(r: Row): int { r.charge }
  function SettlementOf(r: Row): int { r.settlement }

  predicate Charges(d: Doc) { d.kind == Kind.Invoice || (d.kind == DebitNote && d.side == Sales) }

  /** What a party's documents of one kind, charging or settling, come to by a day. */
  function DocsOf(docs: seq<Doc>, side: Side, party: nat, to: Day, charging: bool): int
  {
    if docs == [] then 0
    else
      var d := docs[|docs| - 1];
      DocsOf(docs[..|docs| - 1], side, party, to, charging)
        + if d.side == side && d.party == party && d.date <= to && Charges(d) == charging then d.gross else 0
  }

  lemma {:induction false} DocColumns(docs: seq<Doc>, side: Side, party: nat, to: Day)
    ensures SumBy(DocRows(docs, side, party, to), ChargeOf) == DocsOf(docs, side, party, to, true)
    ensures SumBy(DocRows(docs, side, party, to), SettlementOf) == DocsOf(docs, side, party, to, false)
  {
    if docs != [] {
      var before, d := DocRows(docs[..|docs| - 1], side, party, to), docs[|docs| - 1];
      DocColumns(docs[..|docs| - 1], side, party, to);
      if d.side == side && d.party == party && d.date <= to {
        SumBySnoc(before, DocRow(d), ChargeOf);
        SumBySnoc(before, DocRow(d), SettlementOf);
      } else {
        assert DocRows(docs, side, party, to) == before;
      }
    }
  }

  lemma {:induction false} PaymentColumns(payments: seq<Payment>, side: Side, party: nat, to: Day)
    ensures SumBy(PaymentRows(payments, side, party, to), ChargeOf) == 0
    ensures SumBy(PaymentRows(payments, side, party, to), SettlementOf) == Paid(payments, side, Some(party), to)
  {
    if payments != [] {
      var before, p := PaymentRows(payments[..|payments| - 1], side, party, to), payments[|payments| - 1];
      PaymentColumns(payments[..|payments| - 1], side, party, to);
      if p.side == side && p.party == party && p.date <= to {
        SumBySnoc(before, Row(p.date, 0, p.amount), ChargeOf);
        SumBySnoc(before, Row(p.date, 0, p.amount), SettlementOf);
      } else {
        assert PaymentRows(payments, side, party, to) == before;
      }
    }
  }

  lemma {:induction false} InsertRowHolds(r: Row, rows: seq<Row>)
    ensures forall x :: x in InsertRow(r, rows) ==> x == r || x in rows
  {
    if rows != [] {
      InsertRowHolds(r, rows[..|rows| - 1]);
    }
  }

  lemma {:induction false} InsertRowByDate(r: Row, rows: seq<Row>)
    requires ByDate(rows)
    ensures ByDate(InsertRow(r, rows))
  {
    if rows != [] && r.date < rows[|rows| - 1].date {
      var before, last := rows[..|rows| - 1], rows[|rows| - 1];
      InsertRowByDate(r, before);
      InsertRowHolds(r, before);
      var inserted := InsertRow(r, before);
      forall i | 0 <= i < |inserted| ensures inserted[i].date <= last.date {
        assert inserted[i] in inserted;
      }
    }
  }

  lemma {:induction false} InsertRowOrders(r: Row, rows: seq<Row>, f: Row -> int)
    requires ByDate(rows)
    ensures ByDate(InsertRow(r, rows)) && |InsertRow(r, rows)| == |rows| + 1
    ensures SumBy(InsertRow(r, rows), f) == SumBy(rows, f) + f(r)
    ensures forall x :: x in InsertRow(r, rows) ==> x == r || x in rows
  {
    InsertRowKeeps(r, rows, f);
    InsertRowHolds(r, rows);
    InsertRowByDate(r, rows);
  }

  lemma {:induction false} OrderedSorts(rows: seq<Row>, f: Row -> int)
    ensures ByDate(Ordered(rows)) && |Ordered(rows)| == |rows|
    ensures SumBy(Ordered(rows), f) == SumBy(rows, f)
    ensures forall x :: x in Ordered(rows) ==> x in rows
  {
    if rows != [] {
      OrderedSorts(rows[..|rows| - 1], f);
      InsertRowOrders(rows[|rows| - 1], Ordered(rows[..|rows| - 1]), f);
    }
  }

  /** The charge column holds the party's invoices and sales debit notes, the settlement column its other notes and payments. */
  lemma {:induction false} ColumnsAddUp(t: Tables, side: Side, party: nat, to: Day)
    ensures SumBy(StatementRows(t, side, party, to), ChargeOf) == DocsOf(t.docs, side, party, to, true)
    ensures SumBy(StatementRows(t, side, party, to), SettlementOf)
         == DocsOf(t.docs, side, party, to, false) + Paid(t.payments, side, Some(party), to)
  {
    var docs, payments := DocRows(t.docs, side, party, to), PaymentRows(t.payments, side, party, to);
    DocColumns(t.docs, side, party, to);
    PaymentColumns(t.payments, side, party, to);
    OrderedSorts(docs + payments, ChargeOf);
    OrderedSorts(docs + payments, SettlementOf);
    SumByConcat(docs, payments, ChargeOf);
    SumByConcat(docs, payments, SettlementOf);
  }

  /** What a row moves if it is dated by the day. */
  function UpTo(day: Day): Row -> int { (r: Row) => if r.date <= day then Moves(r) else 0 }

  /** One more document: its row moves what it charges. */
  lemma {:induction false} NextDocRow(docs: seq<Doc>, d: Doc, side: Side, party: nat, to: Day, day: Day)
    requires day <= to && SumBy(DocRows(docs, side, party, to), UpTo(day)) == Charged(docs, side, Some(party), day)
    ensures SumBy(DocRows(docs + [d], side, party, to), UpTo(day)) == Charged(docs + [d], side, Some(party), day)
  {
    var rows := DocRows(docs, side, party, to);
    assert (docs + [d])[..|docs|] == docs;
    SumBySnoc(rows, DocRow(d), UpTo(day));
    assert rows + [] == rows;
  }

  lemma {:induction false} DocRowsCharge(docs: seq<Doc>, side: Side, party: nat, to: Day, day: Day)
    requires day <= to
    ensures SumBy(DocRows(docs, side, party, to), UpTo(day)) == Charged(docs, side, Some(party), day)
  {
    for n := 0 to |docs|
      invariant SumBy(DocRows(docs[..n], side, party, to), UpTo(day)) == Charged(docs[..n], side, Some(party), day)
    {
      NextDocRow(docs[..n], docs[n], side, party, to, day);
      assert docs[..n + 1] == docs[..n] + [docs[n]];
    }
    assert docs[..|docs|] == docs;
  }

  lemma {:induction false} PaymentRowsSettle(payments: seq<Payment>, side: Side, party: nat, to: Day, day: Day)
    requires day <= to
    ensures SumBy(PaymentRows(payments, side, party, to), UpTo(day)) + Paid(payments, side, Some(party), day) == 0
  {
    if payments != [] {
      var before, p := payments[..|payments| - 1], payments[|payments| - 1];
      PaymentRowsSettle(before, side, party, to, day);
      var rows := PaymentRows(before, side, party, to);
      SumBySnoc(rows, Row(p.date, 0, p.amount), UpTo(day));
      assert rows + [] == rows;
    }
  }

  lemma {:induction false} SumUpTo(rows: seq<Row>, n: nat, day: Day)
    requires n <= |rows|
    requires forall i :: 0 <= i < n ==> rows[i].date <= day
    requires forall i :: n <= i < |rows| ==> day < rows[i].date
    ensures SumBy(rows, UpTo(day)) == SumBy(rows[..n], Moves)
  {
    if rows != [] {
      var last := |rows| - 1;
      SumUpTo(rows[..last], if n == |rows| then last else n, day);
      if n < |rows| {
        assert rows[..last][..n] == rows[..n];
      } else {
        assert rows[..n] == rows && rows[..last][..last] == rows[..last];
      }
    }
  }

  /** The rows come in date order, and those dated by a day add up to the party's balance on it. */
  lemma {:induction false} RowsAddUp(t: Tables, side: Side, party: nat, to: Day, n: nat, day: Day)
    requires var rows := StatementRows(t, side, party, to);
      && day <= to && n <= |rows|
      && (forall i :: 0 <= i < n ==> rows[i].date <= day)
      && (forall i :: n <= i < |rows| ==> day < rows[i].date)
    ensures SumBy(StatementRows(t, side, party, to)[..n], Moves) == Balance(t, side, Some(party), day)
  {
    var d, p := DocRows(t.docs, side, party, to), PaymentRows(t.payments, side, party, to);
    OrderedSorts(d + p, UpTo(day));
    SumByConcat(d, p, UpTo(day));
    DocRowsCharge(t.docs, side, party, to, day);
    PaymentRowsSettle(t.payments, side, party, to, day);
    SumUpTo(StatementRows(t, side, party, to), n, day);
  }

  lemma {:induction false} DocRowsDated(docs: seq<Doc>, side: Side, party: nat, to: Day)
    ensures forall r :: r in DocRows(docs, side, party, to) ==> r.date <= to
  {
    if docs != [] {
      DocRowsDated(docs[..|docs| - 1], side, party, to);
    }
  }

  lemma {:induction false} PaymentRowsDated(payments: seq<Payment>, side: Side, party: nat, to: Day)
    ensures forall r :: r in PaymentRows(payments, side, party, to) ==> r.date <= to
  {
    if payments != [] {
      PaymentRowsDated(payments[..|payments| - 1], side, party, to);
    }
  }

  lemma {:induction false} RowsInOrder(t: Tables, side: Side, party: nat, to: Day)
    ensures ByDate(StatementRows(t, side, party, to))
    ensures forall r :: r in StatementRows(t, side, party, to) ==> r.date <= to
  {
    OrderedSorts(DocRows(t.docs, side, party, to) + PaymentRows(t.payments, side, party, to), UpTo(to));
    DocRowsDated(t.docs, side, party, to);
    PaymentRowsDated(t.payments, side, party, to);
  }

  /** The statement's loop: the opening balance is everything before the period, each line's balance is
      everything up to it, and the closing balance everything there is. */
  method Running(rows: seq<Row>, from: Day) returns (opening: int, balances: seq<int>, closing: int)
    requires ByDate(rows)
    ensures |balances| <= |rows|
    ensures var before := |rows| - |balances|;
      && (forall i :: 0 <= i < before ==> rows[i].date < from)
      && (forall i :: before <= i < |rows| ==> from <= rows[i].date)
      && opening == SumBy(rows[..before], Moves)
      && LinesRun(rows, before, balances)
    ensures closing == SumBy(rows, Moves)
  {
    var running, totalCharges, totalSettlements := 0, 0, 0;
    ghost var before := 0;
    opening, balances := 0, [];
    for i := 0 to |rows|
      invariant before + |balances| == i
      invariant forall k :: 0 <= k < before ==> rows[k].date < from
      invariant forall k :: before <= k < i ==> from <= rows[k].date
      invariant opening == SumBy(rows[..before], Moves) && running == SumBy(rows[..i], Moves)
      invariant opening + totalCharges - totalSettlements == running
      invariant LinesRun(rows, before, balances)
    {
      SumByPrefix(rows, i, Moves);
      var row := rows[i];
      if row.date < from {
        assert before == i;
        opening := opening + (row.charge - row.settlement);
        running := opening;
        before := i + 1;
        continue;
      }
      running := running + (row.charge - row.settlement);
      totalCharges, totalSettlements := totalCharges + row.charge, totalSettlements + row.settlement;
      OneMoreLine(rows, before, balances, running);
      balances := balances + [running];
    }
    assert rows[..|rows|] == rows;
    closing := opening + totalCharges - totalSettlements;
  }

  /** Each line's balance is everything up to it. */
  predicate LinesRun(rows: seq<Row>, before: nat, balances: seq<int>)
  {
    before + |balances| <= |rows| && forall k :: 0 <= k < |balances| ==> balances[k] == SumBy(rows[..before + k + 1], Moves)
  }

  lemma {:induction false} OneMoreLine(rows: seq<Row>, before: nat, balances: seq<int>, running: int)
    requires LinesRun(rows, before, balances) && before + |balances| < |rows| && running == SumBy(rows[..before + |balances| + 1], Moves)
    ensures LinesRun(rows, before, balances + [running])
  {
  }

  lemma {:induction false} OpeningIsTheDayBefore(t: Tables, side: Side, party: nat, from: Day, to: Day, n: nat)
    requires from <= to
    requires var rows := StatementRows(t, side, party, to);
      && n <= |rows|
      && (forall i :: 0 <= i < n ==> rows[i].date < from)
      && (forall i :: n <= i < |rows| ==> from <= rows[i].date)
    ensures SumBy(StatementRows(t, side, party, to)[..n], Moves) == Balance(t, side, Some(party), from - 1)
  {
    RowsAddUp(t, side, party, to, n, from - 1);
  }

  lemma {:induction false} AllRowsAddUp(t: Tables, side: Side, party: nat, to: Day)
    ensures ByDate(StatementRows(t, side, party, to))
    ensures SumBy(StatementRows(t, side, party, to), Moves) == Balance(t, side, Some(party), to)
  {
    var rows := StatementRows(t, side, party, to);
    RowsInOrder(t, side, party, to);
    assert rows[..|rows|] == rows;
    RowsAddUp(t, side, party, to, |rows|, to);
  }

  /** A line's balance is what the party owes on its day once the day's last line is through. */
  predicate LinesOwed(t: Tables, side: Side, party: nat, rows: seq<Row>, balances: seq<int>)
  {
    var before := |rows| - |balances|;
    && |balances| <= |rows|
    && LinesRun(rows, before, balances)
    && forall k :: 0 <= k < |balances| && (before + k + 1 == |rows| || rows[before + k].date < rows[before + k + 1].date) ==>
         balances[k] == Balance(t, side, Some(party), rows[before + k].date)
  }

  lemma {:induction false} DayEnds(t: Tables, side: Side, party: nat, to: Day, n: nat)
    requires var rows := StatementRows(t, side, party, to);
      0 < n <= |rows| && (n == |rows| || rows[n - 1].date < rows[n].date)
    ensures var rows := StatementRows(t, side, party, to);
      SumBy(rows[..n], Moves) == Balance(t, side, Some(party), rows[n - 1].date)
  {
    var rows := StatementRows(t, side, party, to);
    RowsInOrder(t, side, party, to);
    assert rows[n - 1] in rows;
    RowsAddUp(t, side, party, to, n, rows[n - 1].date);
  }

  lemma {:induction false} LinesAreOwed(t: Tables, side: Side, party: nat, to: Day, balances: seq<int>)
    requires var rows := StatementRows(t, side, party, to); |balances| <= |rows| && LinesRun(rows, |rows| - |balances|, balances)
    ensures LinesOwed(t, side, party, StatementRows(t, side, party, to), balances)
  {
    var rows := StatementRows(t, side, party, to);
    var before := |rows| - |balances|;
    forall k | 0 <= k < |balances| && (before + k + 1 == |rows| || rows[before + k].date < rows[before + k + 1].date)
      ensures balances[k] == Balance(t, side, Some(party), rows[before + k].date)
    {
      DayEnds(t, side, party, to, before + k + 1);
    }
  }

  /** The opening balance is what the party owed the day before the period, each line's balance what the rows up to
      it leave owed, the closing balance what is owed at the end; Ageing.AgeingAgreesWithStatement ties that to the
      party's row of the report. */
  method Statement(t: Tables, side: Side, party: nat, from: Day, to: Day) returns (opening: int, balances: seq<int>, closing: int)
    ensures closing == Balance(t, side, Some(party), to)
    ensures from <= to ==> opening == Balance(t, side, Some(party), from - 1)
    ensures to < from ==> balances == [] && opening == closing
    ensures LinesOwed(t, side, party, StatementRows(t, side, party, to), balances)
    ensures forall i :: 0 <= i < |StatementRows(t, side, party, to)| ==>
      (from <= StatementRows(t, side, party, to)[i].date <==> |StatementRows(t, side, party, to)| - |balances| <= i)
  {
    var rows := StatementRows(t, side, party, to);
    AllRowsAddUp(t, side, party, to);
    opening, balances, closing := Running(rows, from);
    LinesAreOwed(t, side, party, to, balances);
    if from <= to {
      OpeningIsTheDayBefore(t, side, party, from, to, |rows| - |balances|);
    } else {
      RowsInOrder(t, side, party, to);
      assert rows != [] ==> rows[|rows| - 1] in rows;
      assert rows[..|rows|] == rows;
    }
  }
}
