/** The tables the posting services read and write, and the transaction that commits them. */
module Books {
  import opened Wrappers
  import opened Sums
  import opened Journal
  import opened WeightedAverage

  datatype Slot = Slot(item: nat, warehouse: nat)

  type Stock = map<Slot, StockState>

  /** A table row is named by its position: rows are only ever appended or updated in place. */
  datatype OrderStatus = PendingApproval | Approved | Rejected | Cancelled | PartiallyReceived | Received

  /** The order's lines are the rows first .. first + count of the order-line table. */
  datatype Order = Order(supplier: nat, status: OrderStatus, first: nat, count: nat)

  datatype OrderLine = OrderLine(order: nat, item: nat, ordered: nat, price: nat, received: int, invoiced: int)

  datatype CountLine = CountLine(slot: Slot, systemQuantity: nat, counted: nat, unitCost: nat)
  datatype Count = Count(date: Day, lines: seq<CountLine>, posted: bool)

  datatype ReceiptLine = ReceiptLine(slot: Slot, orderLine: Option<nat>, quantity: nat, unitCost: nat, value: int)

  /** price is the order line's own, which never changes once the order is placed. */
  datatype ReturnLine = ReturnLine(orderLine: nat, price: nat, quantity: int, value: nat, orderValue: int)
  datatype MatchedLine = MatchedLine(orderLine: nat, price: nat, quantity: nat, net: int, orderValue: int)

  /** Receivables and payables share one shape: SALES against customers, SUPPLIER against suppliers. */
  datatype Side = Sales | Supplier
  datatype Kind = Invoice | CreditNote | DebitNote
  datatype Doc = Doc(side: Side, kind: Kind, party: nat, original: Option<nat>, date: Day, due: Option<Day>, gross: int)
  datatype Allocation = Allocation(invoice: nat, amount: nat)
  datatype Payment = Payment(side: Side, party: nat, date: Day, amount: nat, allocations: seq<Allocation>)

  datatype Tables = Tables(
    stock: Stock,
    counts: seq<Count>,
    orders: seq<Order>,
    orderLines: seq<OrderLine>,
    receipts: seq<ReceiptLine>,
    returned: seq<ReturnLine>,
    matched: seq<MatchedLine>,
    docs: seq<Doc>,
    payments: seq<Payment>,
    ledger: Ledger)

  const EMPTY := Tables(map[], [], [], [], [], [], [], [], [], [])

  datatype Refusal =
    | Empty | BadLine(error: StockError) | EntryRejected
    | CountNotFound | AlreadyPosted | UnitCostRequired
    | OrderNotFound | OrderNotReceivable | OrderNotReturnable | NotPendingApproval | NotCancellable
    | LineNotOnOrder | OverReceipt | OverReturn | InsufficientOnHand
    | SupplierMismatch | QuantityExceedsReceived | VarianceNotAccepted | ZeroDocument
    | InvoiceNotFound | NotAnInvoice | NoteExceedsInvoice
    | WarehouseRequired | BadAmount | DuplicateAllocation | OverAllocated | AllocationExceedsPayment

  /** The database, seen by one service at a time: a service works on a copy and assigns it on commit. */
  class Database {
    var tables: Tables

    constructor ()
      ensures tables == EMPTY
    {
      tables := EMPTY;
    }
  }

  /** lockStockRow: a missing row is created empty. */
  function RowOf(stock: Stock, slot: Slot): StockState
  {
    if slot in stock then stock[slot] else EMPTY_ROW
  }

  function ValuesOf(stock: Stock): map<Slot, int>
  {
    map k | k in stock :: stock[k].value
  }

  /** The stock sub-ledger: the value of every row. */
  ghost function StockValue(stock: Stock): int
  {
    SumMap(ValuesOf(stock))
  }

  lemma {:induction false} SaveRow(stock: Stock, slot: Slot, s: StockState)
    ensures StockValue(stock[slot := s]) == StockValue(stock) + s.value - RowOf(stock, slot).value
  {
    assert ValuesOf(stock[slot := s]) == ValuesOf(stock)[slot := s.value];
    SumMapUpdate(ValuesOf(stock), slot, s.value);
  }

  /** postEntry: the entry is appended or the whole document is refused. */
  function Post(t: Tables, date: Day, lines: seq<Line>): Result<Tables, Refusal>
  {
    if ValidShape(lines) then Success(t.(ledger := t.ledger + [Entry(date, lines)])) else Failure(EntryRejected)
  }

  /** A journal line that is left out when it has nothing to say. */
  function DrIf(account: Account, amount: int): (s: seq<Line>)
    ensures forall a :: Net(s, a) == if a == account then amount else 0
  {
    if amount == 0 then [] else [Dr(account, amount)]
  }

  function CrIf(account: Account, amount: int): (s: seq<Line>)
    ensures forall a :: Net(s, a) == if a == account then -amount else 0
  {
    if amount == 0 then [] else [Cr(account, amount)]
  }

  /** A signed amount goes to the side it belongs on. */
  function DrSigned(account: Account, amount: int): (s: seq<Line>)
    ensures forall a :: Net(s, a) == if a == account then amount else 0
  {
    if 0 <= amount then DrIf(account, amount) else CrIf(account, -amount)
  }
}
