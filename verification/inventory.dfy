/** Goods receipts, stock issues and stock counts: stock rows, documents and one journal entry together. */
module Inventory {
  import opened Wrappers
  import opened Sums
  import opened Journal
  import opened Rounding
  import opened WeightedAverage
  import opened Books
  import opened Invoicing

  // ---- receipts ----

  datatype ReceiptInput = ReceiptInput(slot: Slot, orderLine: Option<nat>, quantity: nat, unitCost: nat)

  datatype Receiving = Receiving(stock: Stock, total: int, records: seq<ReceiptLine>)

  function ReceiveLine(r: Receiving, l: ReceiptInput): Result<Receiving, Refusal>
  {
    match ApplyReceipt(RowOf(r.stock, l.slot), l.quantity, l.unitCost)
    case Failure(error) => Failure(BadLine(error))
    case Success(state) =>
      var value := ValueOf(l.quantity, l.unitCost);
      Success(Receiving(r.stock[l.slot := state], r.total + value,
                        r.records + [ReceiptLine(l.slot, l.orderLine, l.quantity, l.unitCost, value)]))
  }

  function ReceiveLines(stock: Stock, lines: seq<ReceiptInput>): Result<Receiving, Refusal>
  {
    Fold(Receiving(stock, 0, []), lines, ReceiveLine)
  }

  function ReceiptEntry(total: int): seq<Line>
  {
    [Dr(Mapped(Role.Inventory), total), Cr(Mapped(Grni), total)]
  }

  function CreateReceipt(t: Tables, date: Day, lines: seq<ReceiptInput>): Result<Tables, Refusal>
  {
    if lines == [] then Failure(Empty)
    else
      var r :- ReceiveLines(t.stock, lines);
      Post(t.(stock := r.stock, receipts := t.receipts + r.records), date, ReceiptEntry(r.total))
  }

  function ReceiptValue(l: ReceiptLine): int { l.value }

  function RecordOf(l: ReceiptInput): ReceiptLine
  {
    ReceiptLine(l.slot, l.orderLine, l.quantity, l.unitCost, ValueOf(l.quantity, l.unitCost))
  }

  /** One record a line, in order, of a positive quantity. */
  predicate Recorded(lines: seq<ReceiptInput>, records: seq<ReceiptLine>)
  {
    |records| == |lines| && forall i :: 0 <= i < |lines| ==> 0 < lines[i].quantity && records[i] == RecordOf(lines[i])
  }

  lemma {:induction false} RecordedMore(lines: seq<ReceiptInput>, records: seq<ReceiptLine>)
    requires lines != [] && Recorded(lines[..|lines| - 1], records) && 0 < lines[|lines| - 1].quantity
    ensures Recorded(lines, records + [RecordOf(lines[|lines| - 1])])
  {
    assert forall i :: 0 <= i < |records| ==> lines[..|lines| - 1][i] == lines[i];
  }

  /** Receiving moves exactly the value it will post, line by line. */
  lemma {:induction false} ReceiveLinesMove(stock: Stock, lines: seq<ReceiptInput>)
    requires ReceiveLines(stock, lines).Success?
    ensures var r := ReceiveLines(stock, lines).value;
      && StockValue(r.stock) == StockValue(stock) + r.total
      && r.total == SumBy(r.records, ReceiptValue) && 0 <= r.total
      && Recorded(lines, r.records)
  {
    if lines != [] {
      var before, l := lines[..|lines| - 1], lines[|lines| - 1];
      ReceiveLinesMove(stock, before);
      var p := ReceiveLines(stock, before).value;
      assert ReceiveLines(stock, lines) == ReceiveLine(p, l);
      ReceiveLineMoves(p, l);
      RecordedMore(lines, p.records);
    }
  }

  lemma {:induction false} ReceiveLineMoves(p: Receiving, l: ReceiptInput)
    requires ReceiveLine(p, l).Success?
    ensures var r, value := ReceiveLine(p, l).value, ValueOf(l.quantity, l.unitCost);
      && StockValue(r.stock) == StockValue(p.stock) + value
      && r.total == p.total + value && 0 <= value && 0 < l.quantity
      && r.records == p.records + [RecordOf(l)]
      && SumBy(r.records, ReceiptValue) == SumBy(p.records, ReceiptValue) + value
  {
    SaveRow(p.stock, l.slot, ApplyReceipt(RowOf(p.stock, l.slot), l.quantity, l.unitCost).value);
    SumBySnoc(p.records, RecordOf(l), ReceiptValue);
  }

  lemma {:induction false} ReceiptDoes(t: Tables, date: Day, lines: seq<ReceiptInput>)
    requires CreateReceipt(t, date, lines).Success?
    ensures var u, r := CreateReceipt(t, date, lines).value, ReceiveLines(t.stock, lines);
      && r.Success? && ValidShape(ReceiptEntry(r.value.total))
      && u == t.(stock := r.value.stock, receipts := t.receipts + r.value.records,
                 ledger := t.ledger + [Entry(date, ReceiptEntry(r.value.total))])
  {
  }

  /** A receipt worth nothing is refused by the engine, so a receipt is accepted exactly when its lines are
      and their value is positive. */
  lemma {:induction false} ReceiptAccepted(t: Tables, date: Day, lines: seq<ReceiptInput>)
    ensures CreateReceipt(t, date, lines).Success? <==>
      ReceiveLines(t.stock, lines).Success? && 0 < ReceiveLines(t.stock, lines).value.total
  {
    if ReceiveLines(t.stock, lines).Success? {
      ReceiveLinesMove(t.stock, lines);
      PairShape(Mapped(Role.Inventory), Mapped(Grni), ReceiveLines(t.stock, lines).value.total);
    }
  }

  class GoodsReceiptService {
    const db: Database

    constructor (db: Database)
      ensures this.db == db
    {
      this.db := db;
    }

    method Create(date: Day, lines: seq<ReceiptInput>) returns (r: Outcome<Refusal>)
      modifies db
      ensures r.Pass? ==> CreateReceipt(old(db.tables), date, lines) == Success(db.tables)
      ensures r.Fail? ==> db.tables == old(db.tables) && CreateReceipt(db.tables, date, lines) == Failure(r.error)
    {
      var t := db.tables;
      if |lines| == 0 {
        return Fail(Empty);
      }
      var stock, totalValue, records := t.stock, 0, [];
      for i := 0 to |lines|
        invariant db.tables == t
        invariant ReceiveLines(t.stock, lines[..i]) == Success(Receiving(stock, totalValue, records))
      {
        var l := lines[i];
        FoldStep(Receiving(t.stock, 0, []), lines, i, ReceiveLine);
        var state := ApplyReceipt(RowOf(stock, l.slot), l.quantity, l.unitCost);
        if state.Failure? {
          FoldRefused(Receiving(t.stock, 0, []), lines, i + 1, ReceiveLine);
          return Fail(BadLine(state.error));
        }
        stock := stock[l.slot := state.value];
        var value := ValueOf(l.quantity, l.unitCost);
        totalValue := totalValue + value;
        records := records + [ReceiptLine(l.slot, l.orderLine, l.quantity, l.unitCost, value)];
      }
      assert lines[..|lines|] == lines;
      var entry := ReceiptEntry(totalValue);
      var shape := ValidateShape(entry);
      if shape.Fail? {
        return Fail(EntryRejected);
      }
      db.tables := t.(stock := stock, receipts := t.receipts + records,
                              ledger := t.ledger + [Entry(date, entry)]);
      return Pass;
    }
  }

  // ---- issues: also the stock side of a sale and of a return to the supplier ----

  datatype IssueInput = IssueInput(slot: Slot, quantity: int)

  datatype Issuing = Issuing(stock: Stock, values: seq<nat>)

  function IssueOne(average: Averaging, r: Issuing, l: IssueInput): Result<Issuing, Refusal>
  {
    match ApplyIssue(average, RowOf(r.stock, l.slot), l.quantity)
    case Failure(error) => Failure(if error == InsufficientStock then InsufficientOnHand else BadLine(error))
    case Success(issue) => Success(Issuing(r.stock[l.slot := issue.state], r.values + [issue.value]))
  }

  function IssueLine(average: Averaging): (Issuing, IssueInput) -> Result<Issuing, Refusal>
  {
    (r: Issuing, l: IssueInput) => IssueOne(average, r, l)
  }

  function IssueLines(average: Averaging, stock: Stock, lines: seq<IssueInput>): Result<Issuing, Refusal>
  {
    Fold(Issuing(stock, []), lines, IssueLine(average))
  }

  function Same(v: nat): int { v }

  function Cost(r: Issuing): int { SumBy(r.values, Same) }

  /** What leaves the rows is exactly the cost charged, whatever the average rounds to. */
  lemma {:induction false} IssueLinesMove(average: Averaging, stock: Stock, lines: seq<IssueInput>)
    requires IssueLines(average, stock, lines).Success?
    ensures var r := IssueLines(average, stock, lines).value;
      && StockValue(r.stock) == StockValue(stock) - Cost(r)
      && 0 <= Cost(r) && |r.values| == |lines|
  {
    if lines != [] {
      var before, l := lines[..|lines| - 1], lines[|lines| - 1];
      IssueLinesMove(average, stock, before);
      var p := IssueLines(average, stock, before).value;
      IssueConserves(average, RowOf(p.stock, l.slot), l.quantity);
      var issue := ApplyIssue(average, RowOf(p.stock, l.slot), l.quantity).value;
      SaveRow(p.stock, l.slot, issue.state);
      SumBySnoc(p.values, issue.value, Same);
    }
  }

  function CreateIssue(average: Averaging, t: Tables, date: Day, lines: seq<IssueInput>): Result<Tables, Refusal>
  {
    if lines == [] then Failure(Empty)
    else
      var r :- IssueLines(average, t.stock, lines);
      Post(t.(stock := r.stock), date, [Dr(Mapped(ProjectExpense), Cost(r)), Cr(Mapped(Role.Inventory), Cost(r))])
  }

  class StockIssueService {
    const db: Database
    const average: Averaging

    constructor (db: Database, average: Averaging)
      ensures this.db == db && this.average == average
    {
      this.db, this.average := db, average;
    }

    method Create(date: Day, lines: seq<IssueInput>) returns (r: Outcome<Refusal>)
      modifies db
      ensures r.Pass? ==> CreateIssue(average, old(db.tables), date, lines) == Success(db.tables)
      ensures r.Fail? ==> db.tables == old(db.tables) && CreateIssue(average, db.tables, date, lines) == Failure(r.error)
    {
      var t := db.tables;
      if |lines| == 0 {
        return Fail(Empty);
      }
      var stock, totalValue := t.stock, 0;
      ghost var values: seq<nat> := [];
      for i := 0 to |lines|
        invariant db.tables == t
        invariant IssueLines(average, t.stock, lines[..i]) == Success(Issuing(stock, values))
        invariant totalValue == SumBy(values, Same)
      {
        var l := lines[i];
        FoldStep(Issuing(t.stock, []), lines, i, IssueLine(average));
        var issued := ApplyIssue(average, RowOf(stock, l.slot), l.quantity);
        if issued.Failure? {
          FoldRefused(Issuing(t.stock, []), lines, i + 1, IssueLine(average));
          return Fail(if issued.error == InsufficientStock then InsufficientOnHand else BadLine(issued.error));
        }
        stock := stock[l.slot := issued.value.state];
        totalValue := totalValue + issued.value.value;
        SumBySnoc(values, issued.value.value, Same);
        values := values + [issued.value.value];
      }
      assert lines[..|lines|] == lines;
      var entry := [Dr(Mapped(ProjectExpense), totalValue), Cr(Mapped(Role.Inventory), totalValue)];
      var shape := ValidateShape(entry);
      if shape.Fail? {
        return Fail(EntryRejected);
      }
      db.tables := t.(stock := stock, ledger := t.ledger + [Entry(date, entry)]);
      return Pass;
    }
  }

  // ---- counts ----

  datatype CountInput = CountInput(slot: Slot, counted: nat, unitCostIfNoStock: Option<nat>)

  /** A counted line's cost: the average, stored at the column's scale, or the one entered when nothing is on hand. */
  function RecordLine(average: Averaging, stock: Stock, l: CountInput): Result<CountLine, Refusal>
  {
    var s := RowOf(stock, l.slot);
    if 0 < s.quantity then Success(CountLine(l.slot, s.quantity, l.counted, average.cost(s)))
    else if l.unitCostIfNoStock.Some? then Success(CountLine(l.slot, 0, l.counted, l.unitCostIfNoStock.value))
    else Failure(UnitCostRequired)
  }

  function RecordLines(average: Averaging, stock: Stock, lines: seq<CountInput>): Result<seq<CountLine>, Refusal>
  {
    if lines == [] then Success([])
    else
      var before :- RecordLines(average, stock, lines[..|lines| - 1]);
      var l :- RecordLine(average, stock, lines[|lines| - 1]);
      Success(before + [l])
  }

  lemma {:induction false} RecordRefused(average: Averaging, stock: Stock, lines: seq<CountInput>, i: nat)
    requires i <= |lines| && RecordLines(average, stock, lines[..i]).Failure?
    ensures RecordLines(average, stock, lines) == RecordLines(average, stock, lines[..i])
  {
    if i == |lines| {
      assert lines[..i] == lines;
    } else {
      assert lines[..|lines| - 1][..i] == lines[..i];
      RecordRefused(average, stock, lines[..|lines| - 1], i);
    }
  }

  function RecordCount(average: Averaging, t: Tables, date: Day, lines: seq<CountInput>): Result<Tables, Refusal>
  {
    if lines == [] then Failure(Empty)
    else
      var recorded :- RecordLines(average, t.stock, lines);
      Success(t.(counts := t.counts + [Count(date, recorded, false)]))
  }

  datatype Counting = Counting(stock: Stock, shortage: int, surplus: int)

  function CountOne(c: Counting, l: CountLine): Counting
  {
    var a := ApplyCountAdjustment(RowOf(c.stock, l.slot), l.counted, l.unitCost).value;
    Counting(c.stock[l.slot := a.state],
             if a.varianceValue < 0 then c.shortage - a.varianceValue else c.shortage,
             if 0 < a.varianceValue then c.surplus + a.varianceValue else c.surplus)
  }

  function CountLines(stock: Stock, lines: seq<CountLine>): Counting
  {
    if lines == [] then Counting(stock, 0, 0)
    else CountOne(CountLines(stock, lines[..|lines| - 1]), lines[|lines| - 1])
  }

  /** What the zero floor adds to the rows while the lines are applied. */
  function FloorOf(stock: Stock, lines: seq<CountLine>): nat
  {
    if lines == [] then 0
    else
      var before, l := lines[..|lines| - 1], lines[|lines| - 1];
      FloorOf(stock, before) + FloorAdded(RowOf(CountLines(stock, before).stock, l.slot), l.counted, l.unitCost)
  }

  /** The loss and the gain stay on their own accounts; only the inventory side is netted. */
  function CountEntry(shortage: int, surplus: int): seq<Line>
  {
    DrIf(Mapped(CountLoss), shortage) + CrIf(Mapped(CountGain), surplus) + DrSigned(Mapped(Role.Inventory), surplus - shortage)
  }

  function PostCount(t: Tables, id: nat): Result<Tables, Refusal>
  {
    if |t.counts| <= id then Failure(CountNotFound)
    else if t.counts[id].posted then Failure(AlreadyPosted)
    else
      var count := t.counts[id];
      var c := CountLines(t.stock, count.lines);
      var done := t.(stock := c.stock, counts := t.counts[id := count.(posted := true)]);
      if 0 < c.shortage || 0 < c.surplus then Post(done, count.date, CountEntry(c.shortage, c.surplus)) else Success(done)
  }

  /** A count moves the rows by surplus minus shortage, plus what the floor adds, and leaves every counted
      row at the quantity last counted for it. */
  lemma {:induction false} CountLinesMove(stock: Stock, lines: seq<CountLine>)
    ensures var c := CountLines(stock, lines);
      && 0 <= c.shortage && 0 <= c.surplus
      && StockValue(c.stock) == StockValue(stock) + c.surplus - c.shortage + FloorOf(stock, lines)
      && forall i :: 0 <= i < |lines| && (forall j :: i < j < |lines| ==> lines[j].slot != lines[i].slot) ==>
           lines[i].slot in c.stock && c.stock[lines[i].slot].quantity == lines[i].counted
  {
    if lines != [] {
      var before, l := lines[..|lines| - 1], lines[|lines| - 1];
      CountLinesMove(stock, before);
      var p := CountLines(stock, before);
      var s := RowOf(p.stock, l.slot);
      CountMoves(s, l.counted, l.unitCost);
      SaveRow(p.stock, l.slot, ApplyCountAdjustment(s, l.counted, l.unitCost).value.state);
      var c := CountLines(stock, lines);
      forall i | 0 <= i < |lines| && (forall j :: i < j < |lines| ==> lines[j].slot != lines[i].slot)
        ensures lines[i].slot in c.stock && c.stock[lines[i].slot].quantity == lines[i].counted
      {
        if i < |before| {
          assert lines[|before|].slot != lines[i].slot;
          assert forall j :: i < j < |before| ==> before[j] == lines[j];
          assert before[i] == lines[i];
        }
      }
    }
  }

  /** A count with anything to report always posts: the entry is acceptable for every shortage and surplus,
      equal ones included, and puts their difference on Inventory. */
  lemma {:induction false} CountEntryAccepted(shortage: int, surplus: int)
    requires 0 <= shortage && 0 <= surplus
    ensures ValidShape(CountEntry(shortage, surplus)) <==> 0 < shortage || 0 < surplus
    ensures Net(CountEntry(shortage, surplus), Mapped(Role.Inventory)) == surplus - shortage
    ensures Net(CountEntry(shortage, surplus), Mapped(CountLoss)) == shortage
    ensures Net(CountEntry(shortage, surplus), Mapped(CountGain)) + surplus == 0
    ensures forall a :: a !in {Mapped(CountLoss), Mapped(CountGain), Mapped(Role.Inventory)} ==> Net(CountEntry(shortage, surplus), a) == 0
  {
    var x, y, z := DrIf(Mapped(CountLoss), shortage), CrIf(Mapped(CountGain), surplus), DrSigned(Mapped(Role.Inventory), surplus - shortage);
    PieceSums(Mapped(CountLoss), shortage);
    PieceSums(Mapped(CountGain), surplus);
    SignedPieceSums(Mapped(Role.Inventory), surplus - shortage);
    Join(x, y, z);
  }

  class StockCountService {
    const db: Database
    const average: Averaging

    constructor (db: Database, average: Averaging)
      ensures this.db == db && this.average == average
    {
      this.db, this.average := db, average;
    }

    method Record(date: Day, lines: seq<CountInput>) returns (r: Outcome<Refusal>)
      modifies db
      ensures r.Pass? ==> RecordCount(average, old(db.tables), date, lines) == Success(db.tables)
      ensures r.Fail? ==> db.tables == old(db.tables) && RecordCount(average, db.tables, date, lines) == Failure(r.error)
    {
      var t := db.tables;
      if |lines| == 0 {
        return Fail(Empty);
      }
      var recorded := RecordEach(t.stock, lines);
      if recorded.Failure? {
        return Fail(recorded.error);
      }
      db.tables := t.(counts := t.counts + [Count(date, recorded.value, false)]);
      return Pass;
    }

    method RecordEach(stock: Stock, lines: seq<CountInput>) returns (r: Result<seq<CountLine>, Refusal>)
      ensures r == RecordLines(average, stock, lines)
    {
      var recorded: seq<CountLine> := [];
      for i := 0 to |lines|
        invariant RecordLines(average, stock, lines[..i]) == Success(recorded)
      {
        assert lines[..i + 1][..i] == lines[..i];
        var s := RowOf(stock, lines[i].slot);
        if 0 < s.quantity {
          recorded := recorded + [CountLine(lines[i].slot, s.quantity, lines[i].counted, average.cost(s))];
        } else if lines[i].unitCostIfNoStock.Some? {
          recorded := recorded + [CountLine(lines[i].slot, 0, lines[i].counted, lines[i].unitCostIfNoStock.value)];
        } else {
          RecordRefused(average, stock, lines, i + 1);
          return Failure(UnitCostRequired);
        }
      }
      assert lines[..|lines|] == lines;
      return Success(recorded);
    }

    method Post(id: nat) returns (r: Outcome<Refusal>)
      modifies db
      ensures r.Pass? ==> PostCount(old(db.tables), id) == Success(db.tables)
      ensures r.Fail? ==> db.tables == old(db.tables) && PostCount(db.tables, id) == Failure(r.error)
    {
      var t := db.tables;
      if |t.counts| <= id {
        return Fail(CountNotFound);
      }
      var count := t.counts[id];
      if count.posted {
        return Fail(AlreadyPosted);
      }
      var stock, totalShortage, totalSurplus := t.stock, 0, 0;
      for i := 0 to |count.lines|
        invariant db.tables == t
        invariant CountLines(t.stock, count.lines[..i]) == Counting(stock, totalShortage, totalSurplus)
      {
        assert count.lines[..i + 1][..i] == count.lines[..i];
        var l := count.lines[i];
        var adjustment := ApplyCountAdjustment(RowOf(stock, l.slot), l.counted, l.unitCost).value;
        stock := stock[l.slot := adjustment.state];
        if adjustment.varianceValue < 0 {
          totalShortage := totalShortage + -adjustment.varianceValue;
        } else if adjustment.varianceValue > 0 {
          totalSurplus := totalSurplus + adjustment.varianceValue;
        }
      }
      assert count.lines[..|count.lines|] == count.lines;
      var done := t.(stock := stock, counts := t.counts[id := count.(posted := true)]);
      if totalShortage > 0 || totalSurplus > 0 {
        var entry := CountEntry(totalShortage, totalSurplus);
        var shape := ValidateShape(entry);
        if shape.Fail? {
          return Fail(EntryRejected);
        }
        done := done.(ledger := done.ledger + [Entry(count.date, entry)]);
      }
      db.tables := done;
      return Pass;
    }
  }
}
