/** What each operation does to one stock row, an item in a warehouse, read off its input; when it is accepted; and
    what is on hand in every row after every run. */
module StockEffects {
  import opened Wrappers
  import opened Sums
  import opened Journal
  import opened Rounding
  import opened WeightedAverage
  import opened Books
  import opened Inventory
  import opened Purchasing
  import opened Settlement
  import opened History

  // ---- receipts ----

  function Received(k: Slot): ReceiptInput -> int { (l: ReceiptInput) => if l.slot == k then l.quantity else 0 }
  function ReceivedWorth(k: Slot): ReceiptInput -> int { (l: ReceiptInput) => if l.slot == k then ValueOf(l.quantity, l.unitCost) else 0 }
  function ReceiptWorth(l: ReceiptInput): int { ValueOf(l.quantity, l.unitCost) }

  /** Goods enter the row of the item and warehouse their line names, and no other. */
  lemma {:induction false} ReceiptPerRow(stock: Stock, lines: seq<ReceiptInput>, k: Slot)
    requires ReceiveLines(stock, lines).Success?
    ensures var before, after := RowOf(stock, k), RowOf(ReceiveLines(stock, lines).value.stock, k);
      && after.quantity == before.quantity + SumBy(lines, Received(k))
      && after.value == before.value + SumBy(lines, ReceivedWorth(k))
  {
    if lines != [] {
      ReceiptPerRow(stock, lines[..|lines| - 1], k);
    }
  }

  /** A receipt is accepted exactly when every line is of a positive quantity and the goods are worth something. */
  lemma {:induction false} ReceiptAccepts(t: Tables, date: Day, lines: seq<ReceiptInput>)
    ensures CreateReceipt(t, date, lines).Success? <==>
      (forall i :: 0 <= i < |lines| ==> 0 < lines[i].quantity) && 0 < SumBy(lines, ReceiptWorth)
  {
    ReceiptAccepted(t, date, lines);
    ReceiptLinesAccept(t.stock, lines);
  }

  lemma {:induction false} ReceiptLinesAccept(stock: Stock, lines: seq<ReceiptInput>)
    ensures ReceiveLines(stock, lines).Success? <==> forall i :: 0 <= i < |lines| ==> 0 < lines[i].quantity
    ensures ReceiveLines(stock, lines).Success? ==> ReceiveLines(stock, lines).value.total == SumBy(lines, ReceiptWorth)
  {
    if lines != [] {
      ReceiptLinesAccept(stock, lines[..|lines| - 1]);
    }
  }

  function ItemOn(lines: seq<OrderLine>, i: nat): nat { if i < |lines| then lines[i].item else 0 }
  function PriceOn(lines: seq<OrderLine>, i: nat): nat { if i < |lines| then lines[i].price else 0 }

  function AskedInto(lines: seq<OrderLine>, warehouse: nat, k: Slot): Want -> int
  {
    (w: Want) => if Slot(ItemOn(lines, w.line), warehouse) == k then w.quantity else 0
  }

  function AskedWorth(lines: seq<OrderLine>, warehouse: nat, k: Slot): Want -> int
  {
    (w: Want) => if Slot(ItemOn(lines, w.line), warehouse) == k then ValueOf(w.quantity, PriceOn(lines, w.line)) else 0
  }

  function WantWorth(lines: seq<OrderLine>): Want -> int
  {
    (w: Want) => ValueOf(w.quantity, PriceOn(lines, w.line))
  }

  lemma {:induction false} OrderInputSums(lines: seq<OrderLine>, warehouse: nat, wants: seq<Want>, k: Slot)
    ensures SumBy(ReceiptInputs(lines, warehouse, wants), Received(k)) == SumBy(wants, AskedInto(lines, warehouse, k))
    ensures SumBy(ReceiptInputs(lines, warehouse, wants), ReceivedWorth(k)) == SumBy(wants, AskedWorth(lines, warehouse, k))
    ensures SumBy(ReceiptInputs(lines, warehouse, wants), ReceiptWorth) == SumBy(wants, WantWorth(lines))
  {
    if wants != [] {
      var n := |wants| - 1;
      OrderInputSums(lines, warehouse, wants[..n], k);
      assert ReceiptInputs(lines, warehouse, wants)[..n] == ReceiptInputs(lines, warehouse, wants[..n]);
    }
  }

  /** Goods received against an order enter the rows of the ordered items in the warehouse given, at the order's prices. */
  lemma {:induction false} OrderReceiptPerRow(t: Tables, u: Tables, id: nat, date: Day, warehouse: nat, wants: seq<Want>, k: Slot)
    requires ReceivedFrom(t, u, id, date, warehouse, wants)
    ensures RowOf(u.stock, k).quantity == RowOf(t.stock, k).quantity + SumBy(wants, AskedInto(t.orderLines, warehouse, k))
    ensures RowOf(u.stock, k).value == RowOf(t.stock, k).value + SumBy(wants, AskedWorth(t.orderLines, warehouse, k))
  {
    ReceiptPerRow(t.stock, ReceiptInputs(t.orderLines, warehouse, wants), k);
    OrderInputSums(t.orderLines, warehouse, wants, k);
  }

  // ---- issues ----

  function Issued(k: Slot): IssueInput -> int { (l: IssueInput) => if l.slot == k then l.quantity else 0 }

  /** What the lines that name the row were charged. */
  function ChargedTo(lines: seq<IssueInput>, values: seq<nat>, k: Slot): int
    requires |values| == |lines|
  {
    if lines == [] then 0
    else
      var n := |lines| - 1;
      ChargedTo(lines[..n], values[..n], k) + if lines[n].slot == k then values[n] else 0
  }

  /** Goods leave the row their line names, and no other, with exactly the value charged for them. */
  lemma {:induction false} IssuePerRow(average: Averaging, stock: Stock, lines: seq<IssueInput>, k: Slot)
    requires IssueLines(average, stock, lines).Success?
    ensures var r := IssueLines(average, stock, lines).value;
      && |r.values| == |lines|
      && RowOf(r.stock, k).quantity == RowOf(stock, k).quantity - SumBy(lines, Issued(k))
      && RowOf(r.stock, k).value == RowOf(stock, k).value - ChargedTo(lines, r.values, k)
  {
    if lines != [] {
      var n := |lines| - 1;
      IssuePerRow(average, stock, lines[..n], k);
      var p, r := IssueLines(average, stock, lines[..n]).value, IssueLines(average, stock, lines).value;
      IssueConserves(average, RowOf(p.stock, lines[n].slot), lines[n].quantity);
      assert r == IssueOne(average, p, lines[n]).value;
      assert r.values[..n] == p.values;
    }
  }

  predicate AllPositive(lines: seq<IssueInput>)
  {
    forall i :: 0 <= i < |lines| ==> 0 < lines[i].quantity
  }

  /** Every row has what the lines naming it ask for between them. */
  ghost predicate OnHand(stock: Stock, lines: seq<IssueInput>)
  {
    forall k: Slot :: SumBy(lines, Issued(k)) <= RowOf(stock, k).quantity
  }

  lemma {:induction false} IssuedNonNegative(lines: seq<IssueInput>, k: Slot)
    requires AllPositive(lines)
    ensures 0 <= SumBy(lines, Issued(k))
  {
    if lines != [] {
      IssuedNonNegative(lines[..|lines| - 1], k);
    }
  }

  /** Taking the lines one by one is refused exactly when some quantity is not positive or the lines naming some row
      ask for more, between them, than it holds. */
  lemma {:induction false} IssueAccepts(average: Averaging, stock: Stock, lines: seq<IssueInput>)
    ensures IssueLines(average, stock, lines).Success? <==> AllPositive(lines) && OnHand(stock, lines)
  {
    if lines != [] {
      var n := |lines| - 1;
      var before, l := lines[..n], lines[n];
      IssueAccepts(average, stock, before);
      LastIssued(lines);
      if AllPositive(before) && OnHand(stock, before) {
        var p := IssueLines(average, stock, before).value;
        IssuePerRow(average, stock, before, l.slot);
        IssueConserves(average, RowOf(p.stock, l.slot), l.quantity);
        assert IssueLines(average, stock, lines) == IssueOne(average, p, l);
        OnHandMore(stock, lines);
      } else if AllPositive(lines) && OnHand(stock, lines) {
        OnHandLess(stock, lines);
      }
    }
  }

  lemma {:induction false} LastIssued(lines: seq<IssueInput>)
    requires lines != []
    ensures forall k :: SumBy(lines, Issued(k)) == SumBy(lines[..|lines| - 1], Issued(k)) + Issued(k)(lines[|lines| - 1])
    ensures AllPositive(lines) <==> AllPositive(lines[..|lines| - 1]) && 0 < lines[|lines| - 1].quantity
  {
    var n := |lines| - 1;
    if AllPositive(lines[..n]) && 0 < lines[n].quantity {
      assert forall i :: 0 <= i < n ==> lines[i] == lines[..n][i];
    }
  }

  lemma {:induction false} OnHandMore(stock: Stock, lines: seq<IssueInput>)
    requires lines != [] && OnHand(stock, lines[..|lines| - 1])
    ensures OnHand(stock, lines) <==>
      var l := lines[|lines| - 1]; SumBy(lines[..|lines| - 1], Issued(l.slot)) + l.quantity <= RowOf(stock, l.slot).quantity
  {
    var before, l := lines[..|lines| - 1], lines[|lines| - 1];
    LastIssued(lines);
    assert SumBy(lines, Issued(l.slot)) == SumBy(before, Issued(l.slot)) + l.quantity;
    forall k: Slot | k != l.slot ensures SumBy(lines, Issued(k)) <= RowOf(stock, k).quantity {
      assert SumBy(before, Issued(k)) <= RowOf(stock, k).quantity;
    }
  }

  lemma {:induction false} OnHandLess(stock: Stock, lines: seq<IssueInput>)
    requires lines != [] && AllPositive(lines) && OnHand(stock, lines)
    ensures OnHand(stock, lines[..|lines| - 1])
  {
    var before := lines[..|lines| - 1];
    LastIssued(lines);
    forall k: Slot ensures SumBy(before, Issued(k)) <= RowOf(stock, k).quantity {
      assert SumBy(lines, Issued(k)) <= RowOf(stock, k).quantity;
    }
  }

  // ---- sales ----

  /** What a line takes from a row; a service line takes nothing. */
  function SoldFrom(k: Slot): SalesInput -> int
  {
    (l: SalesInput) => if l.item == Some(k.item) && l.warehouse == Some(k.warehouse) then l.quantity else 0
  }

  /** The lines with an item and a warehouse, as goods to take out. */
  function Goods(lines: seq<SalesInput>): seq<IssueInput>
  {
    if lines == [] then []
    else
      var l := lines[|lines| - 1];
      Goods(lines[..|lines| - 1])
        + if l.item.Some? && l.warehouse.Some? then [IssueInput(Slot(l.item.value, l.warehouse.value), l.quantity)] else []
  }

  predicate Housed(lines: seq<SalesInput>)
  {
    forall i :: 0 <= i < |lines| ==> lines[i].item.Some? ==> lines[i].warehouse.Some?
  }

  lemma {:induction false} GoodsSnoc(lines: seq<IssueInput>, l: IssueInput)
    ensures (lines + [l])[..|lines|] == lines && (lines + [l])[|lines|] == l
  {
  }

  /** A sale takes out its goods as an issue of them would. */
  lemma {:induction false} SaleIsIssue(average: Averaging, stock: Stock, lines: seq<SalesInput>)
    ensures SellLines(average, stock, lines).Success? <==> Housed(lines) && IssueLines(average, stock, Goods(lines)).Success?
    ensures SellLines(average, stock, lines).Success? ==> SellLines(average, stock, lines) == IssueLines(average, stock, Goods(lines))
  {
    if lines != [] {
      var n := |lines| - 1;
      var before, l := lines[..n], lines[n];
      SaleIsIssue(average, stock, before);
      assert Housed(lines) <==> Housed(before) && (l.item.Some? ==> l.warehouse.Some?) by {
        assert forall i :: 0 <= i < n ==> before[i] == lines[i];
      }
      if l.item.Some? && l.warehouse.Some? {
        GoodsSnoc(Goods(before), IssueInput(Slot(l.item.value, l.warehouse.value), l.quantity));
      } else {
        assert Goods(lines) == Goods(before);
      }
    }
  }

  lemma {:induction false} GoodsSums(lines: seq<SalesInput>, k: Slot)
    ensures SumBy(Goods(lines), Issued(k)) == SumBy(lines, SoldFrom(k))
  {
    if lines != [] {
      var l, before := lines[|lines| - 1], Goods(lines[..|lines| - 1]);
      GoodsSums(lines[..|lines| - 1], k);
      if l.item.Some? && l.warehouse.Some? {
        SumBySnoc(before, IssueInput(Slot(l.item.value, l.warehouse.value), l.quantity), Issued(k));
      } else {
        assert Goods(lines) == before;
      }
    }
  }

  /** Sold goods leave the row of the item and warehouse their line names. */
  lemma {:induction false} SalePerRow(average: Averaging, stock: Stock, lines: seq<SalesInput>, k: Slot)
    requires SellLines(average, stock, lines).Success?
    ensures var r := SellLines(average, stock, lines).value;
      && |r.values| == |Goods(lines)|
      && RowOf(r.stock, k).quantity == RowOf(stock, k).quantity - SumBy(lines, SoldFrom(k))
      && RowOf(r.stock, k).value == RowOf(stock, k).value - ChargedTo(Goods(lines), r.values, k)
  {
    SaleIsIssue(average, stock, lines);
    IssuePerRow(average, stock, Goods(lines), k);
    GoodsSums(lines, k);
  }

  lemma {:induction false} GoodsPositive(lines: seq<SalesInput>)
    requires Housed(lines)
    ensures AllPositive(Goods(lines)) <==> forall i :: 0 <= i < |lines| && lines[i].item.Some? ==> 0 < lines[i].quantity
  {
    if lines != [] {
      var n := |lines| - 1;
      var before := lines[..n];
      assert forall i :: 0 <= i < n ==> before[i] == lines[i];
      GoodsPositive(before);
      assert lines == before + [lines[n]];
      if lines[n].item.Some? {
        GoodsSnoc(Goods(before), IssueInput(Slot(lines[n].item.value, lines[n].warehouse.value), lines[n].quantity));
        LastIssued(Goods(lines));
      } else {
        assert Goods(lines) == Goods(before);
      }
    }
  }

  /** A sale's goods can be taken out exactly when every item line names a warehouse and a positive quantity, and every
      row has what the lines naming it ask for between them. */
  lemma {:induction false} SaleAccepts(average: Averaging, stock: Stock, lines: seq<SalesInput>)
    ensures SellLines(average, stock, lines).Success? <==>
      && Housed(lines)
      && (forall i :: 0 <= i < |lines| && lines[i].item.Some? ==> 0 < lines[i].quantity)
      && (forall k: Slot :: SumBy(lines, SoldFrom(k)) <= RowOf(stock, k).quantity)
  {
    SaleIsIssue(average, stock, lines);
    if Housed(lines) {
      GoodsPositive(lines);
      IssueAccepts(average, stock, Goods(lines));
      forall k: Slot ensures SumBy(Goods(lines), Issued(k)) == SumBy(lines, SoldFrom(k)) {
        GoodsSums(lines, k);
      }
    }
  }

  // ---- returns ----

  function EntriesFor(which: nat -> bool): ((nat, int)) -> int { (e: (nat, int)) => if which(e.0) then e.1 else 0 }
  function WantsFor(which: nat -> bool): Want -> int { (w: Want) => if which(w.line) then w.quantity else 0 }

  lemma {:induction false} AddFor(t: Tally<nat>, k: nat, v: int, which: nat -> bool)
    ensures SumBy(Add(t, k, v), EntriesFor(which)) == SumBy(t, EntriesFor(which)) + if which(k) then v else 0
  {
    var i := IndexOf(t, k);
    if i < |t| {
      SumByUpdate(t, i, (k, t[i].1 + v), EntriesFor(which));
    } else {
      SumBySnoc(t, (k, v), EntriesFor(which));
    }
  }

  /** Totalling the request line by line loses nothing of it. */
  lemma {:induction false} RequestedFor(wants: seq<Want>, which: nat -> bool)
    ensures SumBy(Requested(wants), EntriesFor(which)) == SumBy(wants, WantsFor(which))
  {
    if wants != [] {
      var n := |wants| - 1;
      RequestedFor(wants[..n], which);
      AddFor(Requested(wants[..n]), wants[n].line, wants[n].quantity, which);
    }
  }

  function InRow(lines: seq<OrderLine>, warehouse: nat, k: Slot): nat -> bool
  {
    (i: nat) => Slot(ItemOn(lines, i), warehouse) == k
  }

  lemma {:induction false} IssueInputSums(lines: seq<OrderLine>, warehouse: nat, entries: Tally<nat>, k: Slot)
    ensures SumBy(IssueInputs(lines, warehouse, entries), Issued(k)) == SumBy(entries, EntriesFor(InRow(lines, warehouse, k)))
  {
    if entries != [] {
      var n := |entries| - 1;
      IssueInputSums(lines, warehouse, entries[..n], k);
      assert IssueInputs(lines, warehouse, entries)[..n] == IssueInputs(lines, warehouse, entries[..n]);
    }
  }

  lemma {:induction false} WantsInRow(lines: seq<OrderLine>, warehouse: nat, wants: seq<Want>, k: Slot)
    ensures SumBy(wants, WantsFor(InRow(lines, warehouse, k))) == SumBy(wants, AskedInto(lines, warehouse, k))
  {
    if wants != [] {
      WantsInRow(lines, warehouse, wants[..|wants| - 1], k);
    }
  }

  function ReturnInputs(lines: seq<OrderLine>, warehouse: nat, wants: seq<Want>): seq<IssueInput>
  {
    IssueInputs(lines, warehouse, SortByItem(lines, Requested(wants)))
  }

  lemma {:induction false} ReturnInputSums(lines: seq<OrderLine>, warehouse: nat, wants: seq<Want>, k: Slot)
    ensures SumBy(ReturnInputs(lines, warehouse, wants), Issued(k)) == SumBy(wants, AskedInto(lines, warehouse, k))
  {
    var which := InRow(lines, warehouse, k);
    IssueInputSums(lines, warehouse, SortByItem(lines, Requested(wants)), k);
    SortSum(lines, Requested(wants), EntriesFor(which));
    RequestedFor(wants, which);
    WantsInRow(lines, warehouse, wants, k);
  }

  lemma {:induction false} ReturnRows(average: Averaging, stock: Stock, lines: seq<OrderLine>, warehouse: nat, wants: seq<Want>, k: Slot)
    requires IssueLines(average, stock, ReturnInputs(lines, warehouse, wants)).Success?
    ensures var asked, r := SumBy(wants, AskedInto(lines, warehouse, k)), IssueLines(average, stock, ReturnInputs(lines, warehouse, wants)).value;
      && RowOf(r.stock, k).quantity == RowOf(stock, k).quantity - asked
      && (asked == 0 ==> RowOf(r.stock, k).value == RowOf(stock, k).value)
  {
    var inputs := ReturnInputs(lines, warehouse, wants);
    IssuePerRow(average, stock, inputs, k);
    ReturnInputSums(lines, warehouse, wants, k);
    IssueAccepts(average, stock, inputs);
    if SumBy(inputs, Issued(k)) == 0 {
      UnnamedRow(inputs, IssueLines(average, stock, inputs).value.values, k);
    }
  }

  /** Returned goods leave the rows of the ordered items in the warehouse given; other rows keep their value too. */
  lemma {:induction false} ReturnPerRow(average: Averaging, t: Tables, u: Tables, id: nat, date: Day, warehouse: nat, wants: seq<Want>, k: Slot)
    requires ReturnedFrom(average, t, u, id, date, warehouse, wants)
    ensures RowOf(u.stock, k).quantity == RowOf(t.stock, k).quantity - SumBy(wants, AskedInto(t.orderLines, warehouse, k))
    ensures SumBy(wants, AskedInto(t.orderLines, warehouse, k)) == 0 ==> RowOf(u.stock, k).value == RowOf(t.stock, k).value
  {
    ReturnRows(average, t.stock, t.orderLines, warehouse, wants, k);
  }

  lemma {:induction false} UnnamedRow(lines: seq<IssueInput>, values: seq<nat>, k: Slot)
    requires |values| == |lines| && AllPositive(lines) && SumBy(lines, Issued(k)) == 0
    ensures ChargedTo(lines, values, k) == 0
  {
    if lines != [] {
      var n := |lines| - 1;
      IssuedNonNegative(lines[..n], k);
      UnnamedRow(lines[..n], values[..n], k);
    }
  }

  // ---- counts ----

  /** What the difference between held and counted is worth, a shortage negative. */
  function Variance(held: nat, counted: nat, unitCost: nat): int
  {
    if held <= counted then ValueOf(counted - held, unitCost) else 0 - ValueOf(held - counted, unitCost)
  }

  /** One row through the lines that count it: the quantity is what was counted, the value moves by the variance but
      never below zero. */
  function Recount(s: StockState, lines: seq<CountLine>, k: Slot): StockState
  {
    if lines == [] then s
    else
      var before, l := Recount(s, lines[..|lines| - 1], k), lines[|lines| - 1];
      if l.slot != k then before
      else
        var value := before.value + Variance(before.quantity, l.counted, l.unitCost);
        StockState(l.counted, if value < 0 then 0 else value)
  }

  function VarianceOf(stock: Stock, lines: seq<CountLine>, i: nat): int
    requires i < |lines|
  {
    Variance(Recount(RowOf(stock, lines[i].slot), lines[..i], lines[i].slot).quantity, lines[i].counted, lines[i].unitCost)
  }

  function Gained(stock: Stock, lines: seq<CountLine>, n: nat): int
    requires n <= |lines|
  {
    if n == 0 then 0
    else Gained(stock, lines, n - 1) + if 0 < VarianceOf(stock, lines, n - 1) then VarianceOf(stock, lines, n - 1) else 0
  }

  function Lost(stock: Stock, lines: seq<CountLine>, n: nat): int
    requires n <= |lines|
  {
    if n == 0 then 0
    else Lost(stock, lines, n - 1) + if VarianceOf(stock, lines, n - 1) < 0 then 0 - VarianceOf(stock, lines, n - 1) else 0
  }

  lemma {:induction false} AdjustmentIs(s: StockState, counted: nat, unitCost: nat)
    ensures var r, v := ApplyCountAdjustment(s, counted, unitCost), Variance(s.quantity, counted, unitCost);
      && r.Success? && r.value.varianceValue == v
      && r.value.state == StockState(counted, if s.value + v < 0 then 0 else s.value + v)
  {
    if counted < s.quantity {
      var short := s.quantity - counted;
      assert (counted - s.quantity) * unitCost == -(short * unitCost);
      RoundDivNegates(short * unitCost, SCALE);
    }
  }

  /** Counting a table of rows is counting each row by itself. */
  lemma {:induction false} CountPerRow(stock: Stock, lines: seq<CountLine>, k: Slot)
    ensures RowOf(CountLines(stock, lines).stock, k) == Recount(RowOf(stock, k), lines, k)
  {
    if lines != [] {
      var n := |lines| - 1;
      CountPerRow(stock, lines[..n], k);
      AdjustmentIs(RowOf(CountLines(stock, lines[..n]).stock, lines[n].slot), lines[n].counted, lines[n].unitCost);
    }
  }

  lemma {:induction false} SamePrefixes(stock: Stock, lines: seq<CountLine>, m: nat, n: nat)
    requires n <= m <= |lines|
    ensures Gained(stock, lines[..m], n) == Gained(stock, lines, n) && Lost(stock, lines[..m], n) == Lost(stock, lines, n)
  {
    if n > 0 {
      SamePrefixes(stock, lines, m, n - 1);
      assert lines[..m][..n - 1] == lines[..n - 1];
    }
  }

  /** The reported surplus and shortage are the gains and the losses of the rows, each valued at its line's cost. */
  lemma {:induction false} CountReports(stock: Stock, lines: seq<CountLine>)
    ensures CountLines(stock, lines).surplus == Gained(stock, lines, |lines|)
    ensures CountLines(stock, lines).shortage == Lost(stock, lines, |lines|)
  {
    if lines != [] {
      var n := |lines| - 1;
      var p, l := CountLines(stock, lines[..n]), lines[n];
      CountReports(stock, lines[..n]);
      SamePrefixes(stock, lines, n, n);
      CountPerRow(stock, lines[..n], l.slot);
      AdjustmentIs(RowOf(p.stock, l.slot), l.counted, l.unitCost);
    }
  }

  /** A draft keeps, line by line, what the row held and its stored average, or the cost entered when it held nothing;
      it is refused exactly when a row holds nothing and no cost was entered. */
  lemma {:induction false} DraftRecords(average: Averaging, stock: Stock, lines: seq<CountInput>)
    ensures var r := RecordLines(average, stock, lines);
      && (r.Success? <==> forall i :: 0 <= i < |lines| ==> 0 < RowOf(stock, lines[i].slot).quantity || lines[i].unitCostIfNoStock.Some?)
      && (r.Success? ==> |r.value| == |lines| && forall i :: 0 <= i < |lines| ==>
            var row := RowOf(stock, lines[i].slot);
            && r.value[i].slot == lines[i].slot && r.value[i].systemQuantity == row.quantity && r.value[i].counted == lines[i].counted
            && r.value[i].unitCost == if 0 < row.quantity then average.cost(row) else lines[i].unitCostIfNoStock.value)
  {
    if lines != [] {
      DraftRecords(average, stock, lines[..|lines| - 1]);
      assert lines == lines[..|lines| - 1] + [lines[|lines| - 1]];
    }
  }

  // ---- every run ----

  function GoodsInto(k: Slot): DirectLine -> int { (l: DirectLine) => if l.slot == k then l.quantity else 0 }

  /** The last count of a row among the lines, or what it held. */
  function LastCounted(lines: seq<CountLine>, k: Slot, held: int): int
  {
    if lines == [] then held
    else if lines[|lines| - 1].slot == k then lines[|lines| - 1].counted
    else LastCounted(lines[..|lines| - 1], k, held)
  }

  /** What a row holds after an accepted command: what came in, less what went out, or what was counted. */
  function HeldAfter(t: Tables, c: Command, k: Slot, held: int): int
  {
    match c
    case DirectReceipt(_, goods) => held + SumBy(goods, GoodsInto(k))
    case StockIssue(_, issues) => held - SumBy(issues, Issued(k))
    case CountPosted(id) => if id < |t.counts| then LastCounted(t.counts[id].lines, k, held) else held
    case OrderReceipt(_, _, warehouse, wants) => held + SumBy(wants, AskedInto(t.orderLines, warehouse, k))
    case GoodsReturn(_, _, warehouse, wants) => held - SumBy(wants, AskedInto(t.orderLines, warehouse, k))
    case Sale(_, _, _, sold) => held - SumBy(sold, SoldFrom(k))
    case _ => held
  }

  function HeldBy(average: Averaging, commands: seq<Command>, k: Slot): int
  {
    if commands == [] then 0
    else
      var before, c := commands[..|commands| - 1], commands[|commands| - 1];
      var t, held := Run(average, before), HeldBy(average, before, k);
      if Apply(average, t, c).Success? then HeldAfter(t, c, k, held) else held
  }

  lemma {:induction false} DirectSums(goods: seq<DirectLine>, k: Slot)
    ensures SumBy(DirectInputs(goods), Received(k)) == SumBy(goods, GoodsInto(k))
  {
    if goods != [] {
      var n := |goods| - 1;
      DirectSums(goods[..n], k);
      assert DirectInputs(goods)[..n] == DirectInputs(goods[..n]);
    }
  }

  lemma {:induction false} RecountIsLast(s: StockState, lines: seq<CountLine>, k: Slot)
    ensures Recount(s, lines, k).quantity == LastCounted(lines, k, s.quantity)
  {
    if lines != [] {
      RecountIsLast(s, lines[..|lines| - 1], k);
    }
  }

  lemma {:induction false} ComesIn(average: Averaging, t: Tables, c: Command, k: Slot)
    requires (c.DirectReceipt? || c.OrderReceipt?) && Apply(average, t, c).Success?
    ensures RowOf(Apply(average, t, c).value.stock, k).quantity == HeldAfter(t, c, k, RowOf(t.stock, k).quantity)
  {
    match c
    case DirectReceipt(date, goods) =>
      ReceiptDoes(t, date, DirectInputs(goods));
      ReceiptPerRow(t.stock, DirectInputs(goods), k);
      DirectSums(goods, k);
    case OrderReceipt(id, date, warehouse, wants) =>
      ReceiveOrderDoes(t, id, date, warehouse, wants);
      OrderReceiptPerRow(t, Apply(average, t, c).value, id, date, warehouse, wants, k);
  }

  lemma {:induction false} GoesOut(average: Averaging, t: Tables, c: Command, k: Slot)
    requires (c.StockIssue? || c.GoodsReturn? || c.Sale?) && Apply(average, t, c).Success?
    ensures RowOf(Apply(average, t, c).value.stock, k).quantity == HeldAfter(t, c, k, RowOf(t.stock, k).quantity)
  {
    match c
    case StockIssue(date, issues) => IssuePerRow(average, t.stock, issues, k);
    case GoodsReturn(id, date, warehouse, wants) =>
      CreateReturnDoes(average, t, id, date, warehouse, wants);
      ReturnPerRow(average, t, Apply(average, t, c).value, id, date, warehouse, wants, k);
    case Sale(_, _, _, sold) => SalePerRow(average, t.stock, sold, k);
  }

  lemma {:induction false} IsCounted(average: Averaging, t: Tables, c: Command, k: Slot)
    requires !(c.DirectReceipt? || c.OrderReceipt? || c.StockIssue? || c.GoodsReturn? || c.Sale?) && Apply(average, t, c).Success?
    ensures RowOf(Apply(average, t, c).value.stock, k).quantity == HeldAfter(t, c, k, RowOf(t.stock, k).quantity)
  {
    match c
    case CountPosted(id) =>
      CountPerRow(t.stock, t.counts[id].lines, k);
      RecountIsLast(RowOf(t.stock, k), t.counts[id].lines, k);
    case SupplierInvoice(supplier, date, due, accept, invoiced) => SupplierInvoicing.CreateInvoiceDoes(t, supplier, date, due, accept, invoiced);
    case _ =>
  }

  /** On every run, what any warehouse holds of any item is what came in less what went out since it was last counted. */
  lemma {:induction false} HeldOnEveryRun(average: Averaging, commands: seq<Command>, k: Slot)
    ensures RowOf(Run(average, commands).stock, k).quantity == HeldBy(average, commands, k)
  {
    if commands != [] {
      var before, c := commands[..|commands| - 1], commands[|commands| - 1];
      var t := Run(average, before);
      HeldOnEveryRun(average, before, k);
      if Apply(average, t, c).Success? {
        if c.DirectReceipt? || c.OrderReceipt? {
          ComesIn(average, t, c, k);
        } else if c.StockIssue? || c.GoodsReturn? || c.Sale? {
          GoesOut(average, t, c, k);
        } else {
          IsCounted(average, t, c, k);
        }
      }
    }
  }
}
