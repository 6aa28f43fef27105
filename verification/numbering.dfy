/** Gapless document numbers: transactions that draw numbers from locked series rows and commit or roll back in
    any order, and the idempotency keys of the posting engine. */
module Numbering {
  import opened Wrappers
  import opened Digits

  /** A row of document_number_series: one per company, document type and fiscal year. */
  datatype Row = Row(prefix: string, padding: nat, last: nat)

  const DEFAULT_PADDING := 6

  function Print(row: Row, number: nat): string
  {
    row.prefix + PadStart(Show(number), row.padding)
  }

  /** Printed forms never clash, however far past the padding the numbers run. */
  lemma {:induction false} PrintsApart(row: Row, a: nat, b: nat)
    requires Print(row, a) == Print(row, b)
    ensures a == b
  {
    var n := |row.prefix|;
    assert Print(row, a)[n..] == PadStart(Show(a), row.padding);
    assert Print(row, b)[n..] == PadStart(Show(b), row.padding);
    NumeralPadStart(Show(a), row.padding);
    NumeralPadStart(Show(b), row.padding);
    NumeralShow(a);
    NumeralShow(b);
  }

  /** The prefix, then the number in decimal, with zeros in front up to the padding. */
  lemma {:induction false} PrintsPadded(row: Row, number: nat)
    ensures var text, n := Print(row, number), |row.prefix|;
      && row.prefix <= text && AllDigits(text[n..]) && Numeral(text[n..]) == number
      && |text| - n == if |Show(number)| < row.padding then row.padding else |Show(number)|
  {
    assert Print(row, number)[|row.prefix|..] == PadStart(Show(number), row.padding);
    NumeralPadStart(Show(number), row.padding);
    NumeralShow(number);
  }

  /** What a transaction sees of the series table while it holds the rows it draws from. */
  class SeriesTable {
    var rows: map<nat, Row>

    constructor (rows: map<nat, Row>)
      ensures this.rows == rows
    {
      this.rows := rows;
    }

    /** A missing row is created with no prefix. */
    method Next(series: nat) returns (number: nat, text: string)
      modifies this
      ensures var row := if series in old(rows) then old(rows)[series] else Row("", DEFAULT_PADDING, 0);
        && number == row.last + 1 && text == Print(row, number)
        && rows == old(rows)[series := Advanced(row)]
    {
      var row := Row("", DEFAULT_PADDING, 0);
      if series in rows {
        row := rows[series];
      }
      number := row.last + 1;
      rows := rows[series := row.(last := number)];
      text := row.prefix + PadStart(Show(number), row.padding);
    }
  }

  function Advanced(row: Row): Row { row.(last := row.last + 1) }

  /** A number drawn for a document, or for the journal entry posted under an idempotency key. */
  datatype Number = Number(series: nat, value: nat, text: string, key: Option<nat>)

  datatype Lookup = NotYet | Absent | Replayed(entry: Number)

  /** rows are the series rows the transaction has locked, as it has changed them; missing those it looked for
      in vain; lookup what it found under its idempotency key. */
  datatype Session = Session(key: nat, rows: map<nat, Row>, missing: set<nat>, lookup: Lookup, draws: seq<Number>)

  /** issued are the numbers of committed documents and entries. */
  datatype State = State(series: map<nat, Row>, issued: seq<Number>, sessions: map<nat, Session>)

  datatype Event =
    | Begin(id: nat, key: nat)
    | Ensure(id: nat, series: nat, prefix: string)
    | Look(id: nat, series: nat)
    | Create(id: nat, series: nat)
    | Draw(id: nat, series: nat)
    | LookUp(id: nat)
    | Enter(id: nat, series: nat)
    | Commit(id: nat)
    | Abort(id: nat)

  function Keyed(numbers: seq<Number>, key: nat): nat
  {
    if numbers == [] then 0 else Keyed(numbers[..|numbers| - 1], key) + if numbers[|numbers| - 1].key == Some(key) then 1 else 0
  }

  /** The entry posted under a key. */
  function EntryUnder(numbers: seq<Number>, key: nat): (n: Number)
    requires 0 < Keyed(numbers, key)
    ensures n in numbers && n.key == Some(key)
  {
    var last := numbers[|numbers| - 1];
    if last.key == Some(key) then last else EntryUnder(numbers[..|numbers| - 1], key)
  }

  predicate RowFree(s: State, id: nat, series: nat)
  {
    forall o :: o in s.sessions && o != id ==> series !in s.sessions[o].rows
  }

  /** No other open transaction has inserted an entry under the key. */
  predicate KeyFree(s: State, id: nat, key: nat)
  {
    forall o :: o in s.sessions && o != id ==> Keyed(s.sessions[o].draws, key) == 0
  }

  function Ended(s: State, id: nat): State { s.(sessions := s.sessions - {id}) }

  function With(s: State, id: nat, x: Session): State { s.(sessions := s.sessions[id := x]) }

  function Holding(x: Session, series: nat, row: Row): Session { x.(rows := x.rows[series := row]) }

  function Drawing(x: Session, series: nat, key: Option<nat>): Session
    requires series in x.rows
  {
    var row := x.rows[series];
    x.(rows := x.rows[series := Advanced(row)], draws := x.draws + [Number(series, row.last + 1, Print(row, row.last + 1), key)])
  }

  /** One statement of one transaction; one that has to wait for another transaction changes nothing. */
  function Next(s: State, e: Event): State
  {
    if e.Begin? then
      if e.id in s.sessions then s else With(s, e.id, Session(e.key, map[], {}, NotYet, []))
    else if e.id !in s.sessions then s
    else
      var x := s.sessions[e.id];
      match e
      case Begin(_, _) => s
      case Ensure(id, series, prefix) =>  // insert, on conflict do nothing
        if series !in s.series && series !in x.rows && RowFree(s, id, series) then With(s, id, Holding(x, series, Row(prefix, DEFAULT_PADDING, 0))) else s
      case Look(id, series) =>  // select for update
        if series in x.rows then s
        else if series !in s.series then With(s, id, x.(missing := x.missing + {series}))
        else if RowFree(s, id, series) then With(s, id, Holding(x, series, s.series[series]))
        else s
      case Create(id, series) =>  // insert; a conflict aborts
        if series !in x.missing || series in x.rows || !RowFree(s, id, series) then s
        else if series in s.series then Ended(s, id)
        else With(s, id, Holding(x, series, Row("", DEFAULT_PADDING, 0)))
      case Draw(id, series) =>
        if series in x.rows then With(s, id, Drawing(x, series, None)) else s
      case LookUp(id) =>
        if x.lookup != NotYet then s
        else With(s, id, x.(lookup := if 0 < Keyed(s.issued, x.key) then Replayed(EntryUnder(s.issued, x.key)) else Absent))
      case Enter(id, series) =>
        if x.lookup != Absent || series !in x.rows || 0 < Keyed(x.draws, x.key) || !KeyFree(s, id, x.key) then s
        else if 0 < Keyed(s.issued, x.key) then Ended(s, id)
        else With(s, id, Drawing(x, series, Some(x.key)))
      case Commit(id) => State(s.series + x.rows, s.issued + x.draws, s.sessions - {id})
      case Abort(id) => Ended(s, id)
  }

  function Run(events: seq<Event>): State
  {
    if events == [] then State(map[], [], map[]) else Next(Run(events[..|events| - 1]), events[|events| - 1])
  }

  // ---- the invariant ----

  function LastOf(series: map<nat, Row>, sr: nat): nat
  {
    if sr in series then series[sr].last else 0
  }

  /** The numbers of one series, in the order they were issued. */
  function Of(numbers: seq<Number>, sr: nat): seq<nat>
  {
    if numbers == [] then []
    else
      var n := numbers[|numbers| - 1];
      Of(numbers[..|numbers| - 1], sr) + if n.series == sr then [n.value] else []
  }

  /** a + 1, a + 2, ..., b */
  function Span(a: nat, b: nat): seq<nat>
    requires a <= b
  {
    seq(b - a, i requires 0 <= i => a + 1 + i)
  }

  predicate SamePrint(r: Row, q: Row) { r.prefix == q.prefix && r.padding == q.padding }

  predicate RowHolds(series: map<nat, Row>, draws: seq<Number>, sr: nat, row: Row)
  {
    && (sr in series ==> SamePrint(series[sr], row))
    && LastOf(series, sr) <= row.last
    && Of(draws, sr) == Span(LastOf(series, sr), row.last)
  }

  /** Every number belongs to one of the rows and is printed by it. */
  predicate Labelled(numbers: seq<Number>, rows: map<nat, Row>)
  {
    forall i :: 0 <= i < |numbers| ==> numbers[i].series in rows && numbers[i].text == Print(rows[numbers[i].series], numbers[i].value)
  }

  predicate OwnKey(draws: seq<Number>, key: nat)
  {
    forall i :: 0 <= i < |draws| ==> draws[i].key.None? || draws[i].key == Some(key)
  }

  predicate SessionHolds(s: State, x: Session)
  {
    && (forall sr :: sr in x.rows ==> RowHolds(s.series, x.draws, sr, x.rows[sr]))
    && Labelled(x.draws, x.rows)
    && OwnKey(x.draws, x.key)
    && Keyed(x.draws, x.key) <= 1
    && (Keyed(x.draws, x.key) == 1 ==> Keyed(s.issued, x.key) == 0)
    && (x.lookup.Replayed? ==> x.lookup.entry in s.issued && x.lookup.entry.key == Some(x.key))
  }

  ghost predicate Gapless(s: State)
  {
    forall sr :: Of(s.issued, sr) == Span(0, LastOf(s.series, sr))
  }

  ghost predicate KeysOnce(s: State)
  {
    forall k :: Keyed(s.issued, k) <= 1
  }

  predicate Exclusive(s: State)
  {
    && (forall a, sr :: a in s.sessions && sr in s.sessions[a].rows ==> RowFree(s, a, sr))
    && (forall a :: a in s.sessions && Keyed(s.sessions[a].draws, s.sessions[a].key) == 1 ==> KeyFree(s, a, s.sessions[a].key))
  }

  ghost predicate Holds(s: State)
  {
    && Gapless(s) && Labelled(s.issued, s.series) && KeysOnce(s) && Exclusive(s)
    && forall id :: id in s.sessions ==> SessionHolds(s, s.sessions[id])
  }

  lemma {:induction false} OfConcat(s: seq<Number>, t: seq<Number>, sr: nat)
    ensures Of(s + t, sr) == Of(s, sr) + Of(t, sr)
  {
    if t == [] {
      assert s + t == s;
    } else {
      var r := t[..|t| - 1];
      OfConcat(s, r, sr);
      assert (s + t)[..|s + t| - 1] == s + r;
    }
  }

  lemma {:induction false} KeyedConcat(s: seq<Number>, t: seq<Number>, key: nat)
    ensures Keyed(s + t, key) == Keyed(s, key) + Keyed(t, key)
  {
    if t == [] {
      assert s + t == s;
    } else {
      var r := t[..|t| - 1];
      KeyedConcat(s, r, key);
      assert (s + t)[..|s + t| - 1] == s + r;
    }
  }

  lemma {:induction false} NoneOf(numbers: seq<Number>, rows: map<nat, Row>, sr: nat)
    requires Labelled(numbers, rows) && sr !in rows
    ensures Of(numbers, sr) == []
  {
    if numbers != [] {
      NoneOf(numbers[..|numbers| - 1], rows, sr);
    }
  }

  lemma {:induction false} NoOtherKey(draws: seq<Number>, own: nat, key: nat)
    requires OwnKey(draws, own) && key != own
    ensures Keyed(draws, key) == 0
  {
    if draws != [] {
      NoOtherKey(draws[..|draws| - 1], own, key);
    }
  }

  /** A transaction that moves on, taking only free rows and a free key, disturbs nobody. */
  lemma {:induction false} WithKeeps(s: State, id: nat, x: Session)
    requires Holds(s) && SessionHolds(s, x)
    requires forall sr :: sr in x.rows ==> RowFree(s, id, sr)
    requires Keyed(x.draws, x.key) == 1 ==> KeyFree(s, id, x.key)
    ensures Holds(With(s, id, x))
  {
    var t := With(s, id, x);
    forall o | o in t.sessions ensures SessionHolds(t, t.sessions[o]) {
      assert o != id ==> SessionHolds(s, s.sessions[o]);
    }
    forall a, sr | a in t.sessions && sr in t.sessions[a].rows ensures RowFree(t, a, sr) {
      assert RowFree(s, a, sr);
      assert a != id && sr in x.rows ==> RowFree(s, id, sr);
    }
    forall a | a in t.sessions && Keyed(t.sessions[a].draws, t.sessions[a].key) == 1 ensures KeyFree(t, a, t.sessions[a].key) {
      var key := t.sessions[a].key;
      if a != id {
        assert KeyFree(s, a, key);
        if key != x.key {
          NoOtherKey(x.draws, x.key, key);
        } else {
          assert Keyed(x.draws, key) == 1 ==> KeyFree(s, id, key);
        }
      }
    }
  }

  lemma {:induction false} EndKeeps(s: State, id: nat)
    requires Holds(s)
    ensures Holds(Ended(s, id))
  {
    var t := Ended(s, id);
    forall o | o in t.sessions ensures SessionHolds(t, t.sessions[o]) {
      assert SessionHolds(s, s.sessions[o]);
    }
    forall a, sr | a in t.sessions && sr in t.sessions[a].rows ensures RowFree(t, a, sr) {
      assert RowFree(s, a, sr);
    }
    forall a | a in t.sessions && Keyed(t.sessions[a].draws, t.sessions[a].key) == 1 ensures KeyFree(t, a, t.sessions[a].key) {
      assert KeyFree(s, a, t.sessions[a].key);
    }
  }

  lemma {:induction false} HeldIsFree(s: State, id: nat)
    requires Exclusive(s) && id in s.sessions
    ensures forall sr :: sr in s.sessions[id].rows ==> RowFree(s, id, sr)
    ensures Keyed(s.sessions[id].draws, s.sessions[id].key) == 1 ==> KeyFree(s, id, s.sessions[id].key)
  {
  }

  /** Locking or creating a row no one else holds. */
  lemma {:induction false} HoldKeeps(s: State, id: nat, sr: nat, row: Row)
    requires Holds(s) && id in s.sessions && sr !in s.sessions[id].rows && RowFree(s, id, sr)
    requires row.last == LastOf(s.series, sr) && (sr in s.series ==> SamePrint(s.series[sr], row))
    ensures Holds(With(s, id, Holding(s.sessions[id], sr, row)))
  {
    var x := s.sessions[id];
    assert SessionHolds(s, x);
    HeldIsFree(s, id);
    NoneOf(x.draws, x.rows, sr);
    var y := Holding(x, sr, row);
    assert Span(row.last, row.last) == [];
    assert SessionHolds(s, y);
    WithKeeps(s, id, y);
  }

  lemma {:induction false} OfSnoc(numbers: seq<Number>, n: Number, sr: nat)
    ensures Of(numbers + [n], sr) == if n.series == sr then Of(numbers, sr) + [n.value] else Of(numbers, sr)
  {
    assert (numbers + [n])[..|numbers|] == numbers;
  }

  lemma {:induction false} SpanJoin(a: nat, b: nat, c: nat)
    requires a <= b <= c
    ensures Span(a, b) + Span(b, c) == Span(a, c)
    ensures Span(b, b + 1) == [b + 1] && Span(b, b) == []
  {
  }

  lemma {:induction false} RowDraws(series: map<nat, Row>, draws: seq<Number>, sr: nat, row: Row, n: Number)
    requires RowHolds(series, draws, sr, row)
    ensures n.series != sr ==> RowHolds(series, draws + [n], sr, row)
    ensures n.series == sr && n.value == row.last + 1 ==> RowHolds(series, draws + [n], sr, Advanced(row))
  {
    OfSnoc(draws, n, sr);
    SpanJoin(LastOf(series, sr), row.last, row.last + 1);
  }

  lemma {:induction false} LabelledSnoc(draws: seq<Number>, rows: map<nat, Row>, sr: nat, key: Option<nat>)
    requires Labelled(draws, rows) && sr in rows
    ensures var row := rows[sr];
      Labelled(draws + [Number(sr, row.last + 1, Print(row, row.last + 1), key)], rows[sr := Advanced(row)])
  {
    var row := rows[sr];
    var after, more := draws + [Number(sr, row.last + 1, Print(row, row.last + 1), key)], rows[sr := Advanced(row)];
    forall i | 0 <= i < |after| ensures after[i].series in more && after[i].text == Print(more[after[i].series], after[i].value) {
      if i < |draws| {
        assert after[i] == draws[i];
      }
    }
  }

  function DrawnNumber(x: Session, sr: nat, key: Option<nat>): Number
    requires sr in x.rows
  {
    Number(sr, x.rows[sr].last + 1, Print(x.rows[sr], x.rows[sr].last + 1), key)
  }

  lemma {:induction false} DrawRows(series: map<nat, Row>, x: Session, sr: nat, key: Option<nat>)
    requires sr in x.rows && forall q :: q in x.rows ==> RowHolds(series, x.draws, q, x.rows[q])
    ensures var y := Drawing(x, sr, key); forall q :: q in y.rows ==> RowHolds(series, y.draws, q, y.rows[q])
  {
    var y := Drawing(x, sr, key);
    forall q | q in y.rows ensures RowHolds(series, y.draws, q, y.rows[q]) {
      RowDraws(series, x.draws, q, x.rows[q], DrawnNumber(x, sr, key));
    }
  }

  lemma {:induction false} KeyedSnoc(draws: seq<Number>, n: Number, key: nat)
    ensures Keyed(draws + [n], key) == Keyed(draws, key) + if n.key == Some(key) then 1 else 0
  {
    assert (draws + [n])[..|draws|] == draws;
  }

  lemma {:induction false} DrawHolds(s: State, x: Session, sr: nat, key: Option<nat>)
    requires SessionHolds(s, x) && sr in x.rows
    requires key.Some? ==> key.value == x.key && Keyed(x.draws, x.key) == 0 && Keyed(s.issued, x.key) == 0
    ensures SessionHolds(s, Drawing(x, sr, key))
  {
    var n := DrawnNumber(x, sr, key);
    DrawRows(s.series, x, sr, key);
    LabelledSnoc(x.draws, x.rows, sr, key);
    KeyedSnoc(x.draws, n, x.key);
    assert OwnKey(x.draws + [n], x.key);
  }

  lemma {:induction false} DrawKeeps(s: State, id: nat, sr: nat, key: Option<nat>)
    requires Holds(s) && id in s.sessions && sr in s.sessions[id].rows
    requires key.Some? ==> key.value == s.sessions[id].key && KeyFree(s, id, key.value)
    requires key.Some? ==> Keyed(s.sessions[id].draws, key.value) == 0 && Keyed(s.issued, key.value) == 0
    ensures Holds(With(s, id, Drawing(s.sessions[id], sr, key)))
  {
    var x := s.sessions[id];
    assert SessionHolds(s, x);
    HeldIsFree(s, id);
    DrawHolds(s, x, sr, key);
    var y := Drawing(x, sr, key);
    assert y.draws[..|x.draws|] == x.draws;
    WithKeeps(s, id, y);
  }

  lemma {:induction false} DrawsFollow(series: map<nat, Row>, issued: seq<Number>, x: Session, sr: nat)
    requires Of(issued, sr) == Span(0, LastOf(series, sr)) && Labelled(x.draws, x.rows)
    requires sr in x.rows ==> RowHolds(series, x.draws, sr, x.rows[sr])
    ensures Of(issued + x.draws, sr) == Span(0, LastOf(series + x.rows, sr))
  {
    OfConcat(issued, x.draws, sr);
    if sr in x.rows {
      SpanJoin(0, LastOf(series, sr), x.rows[sr].last);
    } else {
      NoneOf(x.draws, x.rows, sr);
    }
  }

  /** Committing appends exactly the next numbers of every series drawn from. */
  lemma {:induction false} CommitGapless(s: State, id: nat)
    requires Holds(s) && id in s.sessions
    ensures Gapless(Next(s, Commit(id)))
  {
    assert SessionHolds(s, s.sessions[id]);
    forall sr {
      DrawsFollow(s.series, s.issued, s.sessions[id], sr);
    }
  }

  lemma {:induction false} LabelledConcat(issued: seq<Number>, series: map<nat, Row>, draws: seq<Number>, rows: map<nat, Row>)
    requires Labelled(issued, series) && Labelled(draws, rows)
    requires forall sr :: sr in rows && sr in series ==> SamePrint(series[sr], rows[sr])
    ensures Labelled(issued + draws, series + rows)
  {
    var all, merged := issued + draws, series + rows;
    forall i | 0 <= i < |all| ensures all[i].series in merged && all[i].text == Print(merged[all[i].series], all[i].value) {
      if i < |issued| {
        assert all[i] == issued[i];
      } else {
        assert all[i] == draws[i - |issued|];
      }
    }
  }

  lemma {:induction false} CommitLabels(s: State, id: nat)
    requires Holds(s) && id in s.sessions
    ensures Labelled(Next(s, Commit(id)).issued, Next(s, Commit(id)).series)
  {
    var x := s.sessions[id];
    assert SessionHolds(s, x);
    forall sr | sr in x.rows && sr in s.series ensures SamePrint(s.series[sr], x.rows[sr]) {
      assert RowHolds(s.series, x.draws, sr, x.rows[sr]);
    }
    LabelledConcat(s.issued, s.series, x.draws, x.rows);
  }

  lemma {:induction false} KeyStaysOnce(s: State, x: Session, k: nat)
    requires SessionHolds(s, x) && Keyed(s.issued, k) <= 1
    ensures Keyed(s.issued + x.draws, k) <= 1
  {
    KeyedConcat(s.issued, x.draws, k);
    if k != x.key {
      NoOtherKey(x.draws, x.key, k);
    }
  }

  lemma {:induction false} CommitKeysOnce(s: State, id: nat)
    requires Holds(s) && id in s.sessions
    ensures KeysOnce(Next(s, Commit(id)))
  {
    var x, t := s.sessions[id], Next(s, Commit(id));
    assert SessionHolds(s, x);
    forall k ensures Keyed(t.issued, k) <= 1 {
      KeyStaysOnce(s, x, k);
    }
  }

  lemma {:induction false} CommitSpares(s: State, id: nat, o: nat)
    requires Holds(s) && id in s.sessions && o in s.sessions && o != id
    ensures SessionHolds(Next(s, Commit(id)), s.sessions[o])
  {
    var x, y, t := s.sessions[id], s.sessions[o], Next(s, Commit(id));
    assert SessionHolds(s, x) && SessionHolds(s, y);
    forall sr | sr in y.rows ensures RowHolds(t.series, y.draws, sr, y.rows[sr]) {
      assert RowHolds(s.series, y.draws, sr, y.rows[sr]);
      assert RowFree(s, o, sr);
    }
    if Keyed(y.draws, y.key) == 1 {
      KeyedConcat(s.issued, x.draws, y.key);
      assert KeyFree(s, o, y.key);
    }
  }

  lemma {:induction false} CommitKeeps(s: State, id: nat)
    requires Holds(s) && id in s.sessions
    ensures Holds(Next(s, Commit(id)))
  {
    var t := Next(s, Commit(id));
    EndKeeps(s, id);
    CommitGapless(s, id);
    CommitLabels(s, id);
    CommitKeysOnce(s, id);
    assert t.sessions == Ended(s, id).sessions;
    forall o | o in t.sessions ensures SessionHolds(t, t.sessions[o]) {
      CommitSpares(s, id, o);
    }
    forall a, sr | a in t.sessions && sr in t.sessions[a].rows ensures RowFree(t, a, sr) {
      assert RowFree(s, a, sr);
    }
    forall a | a in t.sessions && Keyed(t.sessions[a].draws, t.sessions[a].key) == 1 ensures KeyFree(t, a, t.sessions[a].key) {
      assert KeyFree(s, a, t.sessions[a].key);
    }
  }

  /** Steps that draw nothing and lock nothing new. */
  lemma {:induction false} QuietKeeps(s: State, id: nat, x: Session)
    requires Holds(s) && id in s.sessions
    requires x.key == s.sessions[id].key && x.rows == s.sessions[id].rows && x.draws == s.sessions[id].draws
    requires x.lookup.Replayed? ==> x.lookup.entry in s.issued && x.lookup.entry.key == Some(x.key)
    ensures Holds(With(s, id, x))
  {
    HeldIsFree(s, id);
    assert SessionHolds(s, s.sessions[id]);
    WithKeeps(s, id, x);
  }

  lemma {:induction false} BeginKeeps(s: State, id: nat, key: nat)
    requires Holds(s) && id !in s.sessions
    ensures Holds(With(s, id, Session(key, map[], {}, NotYet, [])))
  {
    WithKeeps(s, id, Session(key, map[], {}, NotYet, []));
  }

  lemma {:induction false} NextKeeps(s: State, e: Event)
    requires Holds(s)
    ensures Holds(Next(s, e))
  {
    EndKeeps(s, e.id);
    if e.Begin? {
      if e.id !in s.sessions {
        BeginKeeps(s, e.id, e.key);
      }
    } else if e.id in s.sessions && Next(s, e) != s && Next(s, e) != Ended(s, e.id) {
      var x := s.sessions[e.id];
      assert SessionHolds(s, x);
      match e
      case Ensure(id, series, prefix) => HoldKeeps(s, id, series, Row(prefix, DEFAULT_PADDING, 0));
      case Look(id, series) =>
        if series in s.series {
          HoldKeeps(s, id, series, s.series[series]);
        } else {
          QuietKeeps(s, id, x.(missing := x.missing + {series}));
        }
      case Create(id, series) => HoldKeeps(s, id, series, Row("", DEFAULT_PADDING, 0));
      case Draw(id, series) => DrawKeeps(s, id, series, None);
      case LookUp(id) =>
        QuietKeeps(s, id, x.(lookup := if 0 < Keyed(s.issued, x.key) then Replayed(EntryUnder(s.issued, x.key)) else Absent));
      case Enter(id, series) => DrawKeeps(s, id, series, Some(x.key));
      case Commit(id) => CommitKeeps(s, id);
    }
  }

  /** In every interleaving of commits and aborts the numbers of a series are 1 .. last in the order issued,
      printed by their row, and each idempotency key has at most one entry. */
  lemma {:induction false} InEveryInterleaving(events: seq<Event>)
    ensures Holds(Run(events))
  {
    if events != [] {
      InEveryInterleaving(events[..|events| - 1]);
      NextKeeps(Run(events[..|events| - 1]), events[|events| - 1]);
    } else {
      forall sr ensures Of([], sr) == Span(0, 0) {}
    }
  }

  lemma {:induction false} ValueIsRank(numbers: seq<Number>, sr: nat, last: nat, i: nat)
    requires Of(numbers, sr) == Span(0, last) && i < |numbers| && numbers[i].series == sr
    ensures numbers[i].value == |Of(numbers[..i], sr)| + 1
  {
    var before, rest := numbers[..i], numbers[i..];
    assert numbers == before + rest;
    OfConcat(before, rest, sr);
    OfConcat(numbers[..i + 1], numbers[i + 1..], sr);
    assert numbers == numbers[..i + 1] + numbers[i + 1..];
    assert numbers[..i + 1][..i] == before;
    var k := |Of(before, sr)|;
    assert Of(numbers[..i + 1], sr) == Of(before, sr) + [numbers[i].value];
    assert Of(numbers, sr)[k] == numbers[i].value;
  }

  lemma {:induction false} RanksRise(numbers: seq<Number>, sr: nat, i: nat, j: nat)
    requires i < j <= |numbers| && numbers[i].series == sr
    ensures |Of(numbers[..i], sr)| < |Of(numbers[..j], sr)|
  {
    OfSnoc(numbers[..j - 1], numbers[j - 1], sr);
    assert numbers[..j - 1] + [numbers[j - 1]] == numbers[..j];
    if i < j - 1 {
      RanksRise(numbers, sr, i, j - 1);
    }
  }

  lemma {:induction false} ValuesRise(numbers: seq<Number>, sr: nat, last: nat, i: nat, j: nat)
    requires Of(numbers, sr) == Span(0, last) && i < j < |numbers| && numbers[i].series == numbers[j].series == sr
    ensures numbers[i].value < numbers[j].value
  {
    ValueIsRank(numbers, sr, last, i);
    ValueIsRank(numbers, sr, last, j);
    RanksRise(numbers, sr, i, j);
  }

  lemma {:induction false} TextsApart(s: State, i: nat, j: nat)
    requires Gapless(s) && Labelled(s.issued, s.series)
    requires i < j < |s.issued| && s.issued[i].series == s.issued[j].series
    ensures s.issued[i].text != s.issued[j].text
  {
    var a, b := s.issued[i], s.issued[j];
    ValuesRise(s.issued, a.series, LastOf(s.series, a.series), i, j);
    if a.text == b.text {
      PrintsApart(s.series[a.series], a.value, b.value);
    }
  }

  /** No two documents of a series print the same. */
  lemma {:induction false} PrintedOnce(events: seq<Event>, i: nat, j: nat)
    requires i < j < |Run(events).issued| && Run(events).issued[i].series == Run(events).issued[j].series
    ensures Run(events).issued[i].text != Run(events).issued[j].text
  {
    InEveryInterleaving(events);
    TextsApart(Run(events), i, j);
  }

  lemma {:induction false} KeyedMember(numbers: seq<Number>, n: Number, key: nat)
    requires n in numbers && n.key == Some(key)
    ensures 0 < Keyed(numbers, key)
  {
    var last := |numbers| - 1;
    if numbers[last] != n {
      assert numbers == numbers[..last] + [numbers[last]];
      KeyedMember(numbers[..last], n, key);
    }
  }

  lemma {:induction false} ReplayedDrewNothing(s: State, x: Session)
    requires SessionHolds(s, x) && KeysOnce(s) && x.lookup.Replayed?
    ensures Keyed(x.draws, x.key) == 0
    ensures Keyed(s.issued, x.key) == 1 && x.lookup.entry == EntryUnder(s.issued, x.key)
  {
    OnlyEntry(s.issued, x.lookup.entry, x.key);
  }

  lemma {:induction false} CommitIssues(s: State, id: nat)
    requires id in s.sessions
    ensures var x := s.sessions[id]; Keyed(Next(s, Commit(id)).issued, x.key) == Keyed(s.issued, x.key) + Keyed(x.draws, x.key)
  {
    KeyedConcat(s.issued, s.sessions[id].draws, s.sessions[id].key);
  }

  /** In every interleaving a transaction that was answered with a posted entry has drawn no number for one, and
      none is issued for its key when it commits: the one entry there is stays the only one. */
  lemma {:induction false} ReplaysDrawNothing(events: seq<Event>, id: nat)
    requires id in Run(events).sessions && Run(events).sessions[id].lookup.Replayed?
    ensures var s := Run(events); var x := s.sessions[id];
      && Keyed(x.draws, x.key) == 0
      && Keyed(s.issued, x.key) == 1 && x.lookup.entry == EntryUnder(s.issued, x.key)
      && Keyed(Next(s, Commit(id)).issued, x.key) == 1
  {
    InEveryInterleaving(events);
    ReplayedDrewNothing(Run(events), Run(events).sessions[id]);
    CommitIssues(Run(events), id);
  }

  lemma {:induction false} OnlyEntry(numbers: seq<Number>, n: Number, key: nat)
    requires n in numbers && n.key == Some(key) && Keyed(numbers, key) <= 1
    ensures 0 < Keyed(numbers, key) && EntryUnder(numbers, key) == n
  {
    KeyedMember(numbers, n, key);
    var last := |numbers| - 1;
    if numbers[last].key == Some(key) {
      if n != numbers[last] {
        assert numbers == numbers[..last] + [numbers[last]];
        KeyedMember(numbers[..last], n, key);
      }
    } else {
      assert numbers == numbers[..last] + [numbers[last]];
      OnlyEntry(numbers[..last], n, key);
    }
  }

  /** How many numbers of a series are issued. */
  function IssuedOf(s: State, series: nat): nat { |Of(s.issued, series)| }

  /** Whatever was rolled back along the way, the next number a session draws from a series it holds follows on
      from all that is issued of it and all it drew itself: no number is skipped and none comes twice. */
  lemma {:induction false} NextFollowsOn(events: seq<Event>, id: nat, series: nat)
    requires id in Run(events).sessions && series in Run(events).sessions[id].rows
    ensures var s := Run(events); var x := s.sessions[id]; var y := Next(s, Draw(id, series)).sessions[id];
      && |y.draws| == |x.draws| + 1
      && y.draws[|x.draws|].value == IssuedOf(s, series) + |Of(x.draws, series)| + 1
  {
    InEveryInterleaving(events);
    var s := Run(events);
    assert SessionHolds(s, s.sessions[id]);
    assert RowHolds(s.series, s.sessions[id].draws, series, s.sessions[id].rows[series]);
  }
}
