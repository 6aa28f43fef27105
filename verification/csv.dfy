/** The CSV export, and a reader for the grammar of section 2 of RFC 4180 that recovers exactly its rows. */
module Csv {
  import opened Wrappers

  const QUOTE := '"'
  const CRLF := "\r\n"
  const BOM := '\U{FEFF}'

  predicate Special(c: char) { c == ',' || c == QUOTE || c == '\r' || c == '\n' }

  // ---- writing ----

  function Doubled(value: string): string
  {
    if value == "" then "" else (if value[0] == QUOTE then [QUOTE, QUOTE] else [value[0]]) + Doubled(value[1..])
  }

  function Field(value: string): string
  {
    if exists i :: 0 <= i < |value| && Special(value[i]) then [QUOTE] + Doubled(value) + [QUOTE] else value
  }

  function Row(fields: seq<string>): string
  {
    if fields == [] then "" else if |fields| == 1 then Field(fields[0]) else Field(fields[0]) + "," + Row(fields[1..])
  }

  function Lines(rows: seq<seq<string>>): string
  {
    if rows == [] then "" else if |rows| == 1 then Row(rows[0]) else Row(rows[0]) + CRLF + Lines(rows[1..])
  }

  function Document(rows: seq<seq<string>>): string
  {
    [BOM] + Lines(rows) + CRLF
  }

  // ---- reading ----

  /** What was read, and what is left to read. */
  datatype Read<T> = Read(value: T, rest: string)

  /** The rest of an escaped field: a doubled quote is a quote, a single one ends the field. */
  function Escaped(s: string): (r: Option<Read<string>>)
    ensures r.Some? ==> |r.value.rest| < |s|
  {
    if s == "" then None
    else if s[0] != QUOTE then
      match Escaped(s[1..])
      case Some(r) => Some(Read([s[0]] + r.value, r.rest))
      case None => None
    else if |s| > 1 && s[1] == QUOTE then
      match Escaped(s[2..])
      case Some(r) => Some(Read([QUOTE] + r.value, r.rest))
      case None => None
    else Some(Read("", s[1..]))
  }

  /** Everything up to a comma, quote or line break. */
  function Plain(s: string): (r: Read<string>)
    ensures |r.rest| <= |s|
  {
    if s == "" || Special(s[0]) then Read("", s)
    else
      var r := Plain(s[1..]);
      Read([s[0]] + r.value, r.rest)
  }

  function ReadField(s: string): (r: Option<Read<string>>)
    ensures r.Some? ==> |r.value.rest| <= |s|
  {
    if s != "" && s[0] == QUOTE then Escaped(s[1..]) else Some(Plain(s))
  }

  function ReadRow(s: string): (r: Option<Read<seq<string>>>)
    ensures r.Some? ==> |r.value.rest| <= |s| && r.value.value != []
    decreases |s|
  {
    match ReadField(s)
    case None => None
    case Some(f) =>
      if f.rest == "" || f.rest[0] != ',' then Some(Read([f.value], f.rest))
      else
        match ReadRow(f.rest[1..])
        case Some(r) => Some(Read([f.value] + r.value, r.rest))
        case None => None
  }

  /** Records end with a line break, which the last may lack. */
  function ReadRows(s: string): Option<seq<seq<string>>>
    decreases |s|
  {
    match ReadRow(s)
    case None => None
    case Some(r) =>
      if r.rest == "" || r.rest == CRLF then Some([r.value])
      else if CRLF <= r.rest then
        match ReadRows(r.rest[2..])
        case Some(more) => Some([r.value] + more)
        case None => None
      else None
  }

  function ReadDocument(s: string): Option<seq<seq<string>>>
  {
    if s != "" && s[0] == BOM then ReadRows(s[1..]) else None
  }

  // ---- round trip ----

  /** What may follow a field. */
  predicate Ends(t: string)
  {
    t == "" || t[0] == ',' || t[0] == '\r'
  }

  lemma {:induction false} EscapedReads(value: string, t: string)
    requires Ends(t)
    ensures Escaped(Doubled(value) + [QUOTE] + t) == Some(Read(value, t))
  {
    var s := Doubled(value) + [QUOTE] + t;
    if value == "" {
      assert s == [QUOTE] + t;
    } else {
      EscapedReads(value[1..], t);
      var n := if value[0] == QUOTE then 2 else 1;
      assert s[n..] == Doubled(value[1..]) + [QUOTE] + t;
      assert s[0] == value[0] && value == [value[0]] + value[1..];
    }
  }

  lemma {:induction false} PlainReads(value: string, t: string)
    requires Ends(t) && forall i :: 0 <= i < |value| ==> !Special(value[i])
    ensures Plain(value + t) == Read(value, t)
  {
    if value == "" {
      assert value + t == t;
    } else {
      PlainReads(value[1..], t);
      assert (value + t)[1..] == value[1..] + t;
      assert value == [value[0]] + value[1..];
    }
  }

  lemma {:induction false} Regroup(a: string, b: string, c: string, t: string)
    ensures a + b + c + t == a + (b + (c + t))
  {
  }

  lemma {:induction false} QuotedReads(value: string, t: string)
    requires Ends(t)
    ensures ReadField([QUOTE] + Doubled(value) + [QUOTE] + t) == Some(Read(value, t))
  {
    EscapedReads(value, t);
    var s := Doubled(value) + [QUOTE] + t;
    assert [QUOTE] + Doubled(value) + [QUOTE] + t == [QUOTE] + s;
    assert ([QUOTE] + s)[1..] == s;
  }

  lemma {:induction false} FieldReads(value: string, t: string)
    requires Ends(t)
    ensures ReadField(Field(value) + t) == Some(Read(value, t))
  {
    if i :| 0 <= i < |value| && Special(value[i]) {
      QuotedReads(value, t);
    } else {
      PlainReads(value, t);
      assert value + t != "" ==> (value + t)[0] != QUOTE;
    }
  }

  /** A field, then whatever of the row follows its comma. */
  lemma {:induction false} RowStep(field: string, rest: string, fields: seq<string>, t: string)
    requires ReadRow(rest) == Some(Read(fields, t))
    ensures ReadRow(Field(field) + ("," + rest)) == Some(Read([field] + fields, t))
  {
    FieldReads(field, "," + rest);
    assert ("," + rest)[1..] == rest;
  }

  lemma {:induction false} RowReads(fields: seq<string>, t: string)
    requires fields != [] && (t == "" || t[0] == '\r')
    ensures ReadRow(Row(fields) + t) == Some(Read(fields, t))
  {
    if |fields| == 1 {
      FieldReads(fields[0], t);
      assert fields == [fields[0]];
    } else {
      RowReads(fields[1..], t);
      RowStep(fields[0], Row(fields[1..]) + t, fields[1..], t);
      Regroup(Field(fields[0]), ",", Row(fields[1..]), t);
      assert fields == [fields[0]] + fields[1..];
    }
  }

  predicate Writable(rows: seq<seq<string>>)
  {
    rows != [] && forall i :: 0 <= i < |rows| ==> rows[i] != []
  }

  lemma {:induction false} LastRowReads(row: seq<string>)
    requires row != []
    ensures ReadRows(Row(row) + CRLF) == Some([row])
  {
    RowReads(row, CRLF);
  }

  lemma {:induction false} RowsStep(row: seq<string>, rest: string, rows: seq<seq<string>>)
    requires row != [] && rest != "" && ReadRows(rest) == Some(rows)
    ensures ReadRows(Row(row) + (CRLF + rest)) == Some([row] + rows)
  {
    RowReads(row, CRLF + rest);
    assert (CRLF + rest)[2..] == rest;
  }

  lemma {:induction false} FirstLine(rows: seq<seq<string>>)
    requires 1 < |rows|
    ensures Lines(rows) + CRLF == Row(rows[0]) + (CRLF + (Lines(rows[1..]) + CRLF))
  {
    Regroup(Row(rows[0]), CRLF, Lines(rows[1..]), CRLF);
  }

  lemma {:induction false} RowsRead(rows: seq<seq<string>>)
    requires Writable(rows)
    ensures ReadRows(Lines(rows) + CRLF) == Some(rows)
  {
    if |rows| == 1 {
      LastRowReads(rows[0]);
      assert rows == [rows[0]];
    } else {
      RowsRead(rows[1..]);
      RowsStep(rows[0], Lines(rows[1..]) + CRLF, rows[1..]);
      FirstLine(rows);
      assert rows == [rows[0]] + rows[1..];
    }
  }

  /** A row of no fields is written like a row of one empty field, and no rows like one such row. */
  function Filled(rows: seq<seq<string>>): (r: seq<seq<string>>)
    ensures Writable(r)
  {
    if rows == [] then [[""]] else seq(|rows|, i requires 0 <= i < |rows| => if rows[i] == [] then [""] else rows[i])
  }

  lemma {:induction false} FilledAlike(rows: seq<seq<string>>)
    ensures Lines(Filled(rows)) == Lines(rows)
  {
    if |rows| > 1 {
      FilledAlike(rows[1..]);
      assert Filled(rows)[1..] == Filled(rows[1..]);
    }
  }

  lemma {:induction false} MarkSkipped(text: string)
    ensures ReadDocument([BOM] + text + CRLF) == ReadRows(text + CRLF)
  {
    assert ([BOM] + text + CRLF)[1..] == text + CRLF;
  }

  /** Whatever quotes, commas and line breaks the fields hold, the reader recovers the rows - exactly when there
      is a row and none is empty. */
  lemma {:induction false} RoundTrip(rows: seq<seq<string>>)
    ensures ReadDocument(Document(rows)) == Some(Filled(rows))
    ensures ReadDocument(Document(rows)) == Some(rows) <==> Writable(rows)
  {
    FilledAlike(rows);
    RowsRead(Filled(rows));
    MarkSkipped(Lines(rows));
    assert Writable(rows) ==> Filled(rows) == rows;
  }

  /** So two different tables never export alike. */
  lemma {:induction false} Injective(a: seq<seq<string>>, b: seq<seq<string>>)
    requires Writable(a) && Writable(b) && Document(a) == Document(b)
    ensures a == b
  {
    RoundTrip(a);
    RoundTrip(b);
  }
}
