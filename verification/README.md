# The posting core, modelled and proved

Money arithmetic and the services that turn a document into stock changes, counters, sub-ledger rows and one
journal entry. Amounts, quantities and prices are integers in ten-thousandths; rounding to four decimals is written
out (`Rounding`). What is proved is mostly about whole runs: a sub-ledger equals its control account, one report
agrees with another, several transactions may interleave.

The form follows the code. An operation the code performs step by step is a method with the same loop, proved equal
to a function of its inputs or of the old tables; what the code promises is proved about that function. Services
work on a `Database` (`Books`) and either commit the function's result or leave everything as it was.

How the files build on each other:

- `rounding`, `sums`, `wrappers`, `digits`, `calendar`: arithmetic, running totals per key, results, numerals, dates.
- `journal`, `engine`: what an entry must look like; idempotent posting and reversal.
- `weighted_average`, `books`, `inventory`, `invoicing`, `purchasing`, `purchase_orders`, `supplier_invoicing`, `settlement`:
  the documents. `history` puts them together as thirteen commands on one set of tables.
- `invariants`, `party_accounts`, `reconciliation`, `clearing`: what every run keeps. Inventory, GRNI, Receivable and
  Payable against their sub-ledgers, with rounding in the loop.
- `statements`, `ageing`, `reports_party`, `financial_reports`: the reports and the identities between them.
- `roll_up`, `account_code`, `chart_of_accounts`, `chart_service`: the account tree.
- `payroll`, `hr_books`, `hr_locks`, `hr_service`, `end_of_service`: HR sub-ledgers and the gratuity.
- `stock_effects`, `document_effects`, `goods_effects`, `hr_effects`, `report_figures`, `chart_rules`: what each operation
  does, read off its input alone and not off the functions the services share: rows, documents, counters, the entry on
  every account, and exactly when it is accepted. `postings` adds the entries up over every run.
- `counterexamples`: inputs on which the plain form of a claim fails.
- `order_locks`, `settlement_locks`, `hr_locks`, `numbering`: small-step models in which transactions take locks,
  read, write and commit or abort in any order. A step that would have to wait changes nothing, so a list of events is
  any interleaving.
- `decimal_text`, `csv`: the codecs.

Reading the main results:

- Mapped accounts are distinct (`Journal.Role`); an account a document names itself is `Own`, or possibly a mapped one.
  The ties hold on every run: what documents put on a control account by naming it is a term of its own
  (`History.PutBy`), which is zero when none does (`UnnamedPutsNothing`).
- The average cost, as it is used and as a count stores it, is any pair of functions (`Averaging`) in the ties, so they
  hold however decimal.js rounds it; it is the exact quotient in `ClampsNeverBind` and `AverageStaysHonest`.
- Where the plain claim is false of the code, the true one is stated with its exact condition for all inputs, and an
  input on which the plain one fails is proved beside it (`counterexamples`, or the file of the claim):
  - the header of the valuation file says the ledger "can never drift" from stock, but the zero floor of a count changes
    stock only (`InventoryTies`, `CountMoves`; `FloorPartsStockFromLedger`);
  - a count to zero can strand value (`CountStrandsValue`; `CountCanStrandValue`);
  - documents dated before their invoice set the ageing apart from the ledger (`AgeingTiesToLedger`; `PaidBeforeInvoiced`);
  - supplier debit notes take no lock: they stay within the invoice exactly when none is committed that would fail its
    check by then (`DebitsWithinGross`; `UnlockedNotesExceedInvoice`);
  - accounts can be created or moved under a stopped group (`StaysActiveOnly`; `ActiveUnderStopped`);
  - returns race invoices but for the database's check (`RefusedWrites`; `ReturnMeetsInvoice`);
  - the cash flow relies on the codes of the chart (`CashFlowTies`; `CodeOutsideSections`).

## Model

| member | source | states |
|---|---|---|
| `Rounding.RoundDivUnique` | packages/core/src/inventory/weighted-average.util.ts:44 | `toDecimalPlaces(4)` gives the nearest multiple, halves away from zero, and nothing else is that |
| `Rounding.RoundDivNegates` | packages/core/src/inventory/weighted-average.util.ts:113 | rounding is the same on both sides of zero |
| `Rounding.WorthIsNearest` | packages/core/src/inventory/weighted-average.util.ts:44 | a stored worth is the nearest ten-thousandth of quantity x price, and only that |
| `Rounding.ExactProductHasNoResidue` | packages/core/src/purchasing/supplier-invoice.util.ts:24-33 | a product that fits four decimals is not changed by rounding, and only such a product |
| `WeightedAverage.IssueConserves` | packages/core/src/inventory/weighted-average.util.ts:60-86 | for any rounding of the average: 0 <= issued <= value, issued + remaining = value, an emptied row is left worth nothing, and the unit cost is the nearest to issued / quantity |
| `WeightedAverage.ClampsNeverBind` | packages/core/src/inventory/weighted-average.util.ts:64-82 | with exact division the `min` and `max` clamps never change the issued value |
| `WeightedAverage.CountMoves` | packages/core/src/inventory/weighted-average.util.ts:102-117 | a count moves the row by the worth of the difference, a shortage negative, plus exactly what the zero floor adds |
| `WeightedAverage.CountStrandsValue` | packages/core/src/inventory/weighted-average.util.ts:110-116 | when a count to zero leaves value behind: exactly when the old value exceeds the rounded variance |
| `WeightedAverage.AverageStaysHonest` | packages/core/src/inventory/weighted-average.util.ts:34-86 | after k rounded receipts and partial issues since a row was last emptied, lowest cost x quantity - k/2 <= value <= highest cost x quantity + k/2 |
| `Books.SaveRow` | packages/core/src/inventory/stock-row.repo.ts:16-43 | overwriting one row moves the stock sub-ledger by that row's change |
| `Journal.ValidateShape` | packages/core/src/accounting/accounting-engine.service.ts:201-223 | accepts exactly two or more one-sided balanced lines, and otherwise reports the first offending line or the two totals |
| `Journal.ReversalCancels` | packages/core/src/accounting/accounting-engine.service.ts:180-193 | a mirrored entry is acceptable exactly when the original is, cancels it on every account, and mirrored again is the original |
| `Engine.AccountingEngine.PostEntry` | packages/core/src/accounting/accounting-engine.service.ts:26-124 | one more entry, the command's own, exactly when the shape is valid, the key new, the period open and every account postable and active; the entry already under the key, or a refusal, changes nothing |
| `Engine.PostAppends` | packages/core/src/accounting/accounting-engine.service.ts:36-83 | the same of the posting rule: when it answers, and with which entry |
| `Engine.ReverseAppends` | packages/core/src/accounting/accounting-engine.service.ts:126-199 | a reversal is accepted exactly for an entry there is, a new key and an open period around today; it is the entry with its sides swapped, dated today in such a period |
| `Engine.EveryEntryWasPut` | packages/core/src/accounting/accounting-engine.service.ts:56-83 | on every run every entry was posted under a setting with its period open and its accounts postable and active, or is a reversal in a period open around its day |
| `Engine.AccountingEngine.ReverseEntry` | packages/core/src/accounting/accounting-engine.service.ts:126-199 | what a reversal leaves: the mirrored entry in the open period around today, or a refusal that changes nothing |
| `Engine.RunKept` | packages/core/src/accounting/accounting-engine.service.ts:36-199 | every run of postings and reversals keeps every entry sound, one entry a key, every reversal the mirror of an earlier entry |
| `Engine.OnlyAppends` | packages/core/src/accounting/accounting-engine.service.ts:85-123 | the ledger of a run is a prefix of the ledger of every longer run: nothing posted is ever changed or removed |
| `Engine.ReplayAnswersTheSame` | packages/core/src/accounting/accounting-engine.service.ts:39-44 | a key posted once answers with the same entry after every further run, whatever became of the period and the accounts |
| `Engine.ReversalUndoes` | packages/core/src/accounting/accounting-engine.service.ts:126-199 | a reversal takes the original off every account from its own date on and changes nothing else |
| `Inventory.GoodsReceiptService.Create` | packages/core/src/inventory/goods-receipt.service.ts:190-326 | the loop over the lines leaves the rows, records and entry of ReceiveLines, or refuses and changes nothing; which rows those are is in StockEffects.ReceiptPerRow |
| `Inventory.StockIssueService.Create` | packages/core/src/inventory/stock-issue.service.ts:155-275 | the loop over the lines leaves the rows and entry of IssueLines, or refuses and changes nothing |
| `Inventory.StockCountService.Record` | packages/core/src/inventory/stock-count.service.ts:171-253 | a draft stores what the system held and the stored average cost, whatever the average, or the cost entered when nothing was on hand |
| `Inventory.StockCountService.Post` | packages/core/src/inventory/stock-count.service.ts:255-359 | the loop over the lines leaves the rows, the posted draft and the entry of PostCount, or refuses and changes nothing |
| `Inventory.ReceiveLinesMove` | packages/core/src/inventory/goods-receipt.service.ts:231-243 | receipt lines add their total to the stock sub-ledger, record by record |
| `Inventory.ReceiptAccepted` | packages/core/src/inventory/goods-receipt.service.ts:244-262 | a receipt is posted exactly when its lines are and it is worth something |
| `Inventory.IssueLinesMove` | packages/core/src/inventory/stock-issue.service.ts:188-206 | issue lines take exactly their cost out of the stock sub-ledger |
| `Inventory.CountLinesMove` | packages/core/src/inventory/stock-count.service.ts:271-283 | a count moves the rows by surplus less shortage plus what the floor adds, and leaves each row at the last count of it |
| `Inventory.CountEntryAccepted` | packages/core/src/inventory/stock-count.service.ts:285-308 | the count entry is acceptable exactly with a shortage or a surplus, puts each on its own account and the difference on Inventory |
| `StockEffects.ReceiptPerRow` | packages/core/src/inventory/goods-receipt.service.ts:231-243 | for every item and warehouse, quantity and value rise by exactly the lines that name that row |
| `StockEffects.OrderReceiptPerRow` | packages/core/src/purchasing/purchase-receipt.service.ts:84-106 | received goods enter the rows of the ordered items in the warehouse given, at the order's prices |
| `StockEffects.ReceiptAccepts` | packages/core/src/inventory/goods-receipt.service.ts:190-262 | a receipt is accepted exactly when every quantity is positive and the goods are worth something |
| `StockEffects.IssuePerRow` | packages/core/src/inventory/stock-issue.service.ts:188-206 | issued goods leave the rows their lines name, with exactly the values charged for those lines |
| `StockEffects.IssueAccepts` | packages/core/src/inventory/stock-issue.service.ts:188-206 | taking the lines one by one is refused exactly when a quantity is not positive or the lines naming some row ask together for more than it holds |
| `StockEffects.SalePerRow` | packages/core/src/sales/sales-invoice.service.ts:188-215 | sold goods leave the rows of the item and warehouse their lines name; service lines move nothing |
| `StockEffects.SaleAccepts` | packages/core/src/sales/sales-invoice.service.ts:188-215 | a sale's goods can leave exactly when item lines name a warehouse and a positive quantity and every row holds what is asked of it |
| `StockEffects.ReturnPerRow` | packages/core/src/purchasing/goods-return.service.ts:204-255 | returned goods leave the rows of the ordered items in the warehouse given, and no other row changes in value |
| `StockEffects.CountPerRow` | packages/core/src/inventory/stock-count.service.ts:271-283 | counting a table of rows is counting each row by itself: the last quantity counted, the value moved by each difference and never below zero |
| `StockEffects.CountReports` | packages/core/src/inventory/stock-count.service.ts:271-283 | shortage and surplus are the losses and the gains of the rows at their lines' costs |
| `StockEffects.DraftRecords` | packages/core/src/inventory/stock-count.service.ts:171-253 | a draft keeps what each row held and its stored average, or the cost entered; it is refused exactly when a row holds nothing and no cost was entered |
| `StockEffects.HeldOnEveryRun` | packages/core/src/inventory/stock-row.repo.ts:16-43 | over every run, what a warehouse holds of an item is what came in less what went out since it was last counted |
| `GoodsEffects.ReceiptBooks` | packages/core/src/inventory/goods-receipt.service.ts:231-300 | a receipt debits Inventory and credits GRNI by its worth, nothing else, and keeps a row of each line |
| `GoodsEffects.OrderReceiptBooks` | packages/core/src/purchasing/purchase-receipt.service.ts:84-106 | a receipt against an order books its goods at the order's prices |
| `GoodsEffects.OrderReceiptCounts` | packages/core/src/purchasing/purchase-receipt.service.ts:108-116 | every order line's received quantity rises by what was asked of it in all |
| `GoodsEffects.OrderReceiptAccepted` | packages/core/src/purchasing/purchase-receipt.service.ts:48-106 | a receipt is accepted exactly when the order is open, the lines are its own, each sum was ordered and not received, and the goods are of positive quantity and worth |
| `GoodsEffects.IssueBooks` | packages/core/src/inventory/stock-issue.service.ts:206-224 | an issue moves the cost of what left stock from Inventory to project expense, nothing else |
| `GoodsEffects.IssueAccepted` | packages/core/src/inventory/stock-issue.service.ts:155-240 | an issue is accepted exactly when its goods can leave and are worth something |
| `GoodsEffects.CountBooks` | packages/core/src/inventory/stock-count.service.ts:285-359 | posting a count books losses, gains and their difference on their three accounts, on the count's day, or nothing when no value changed |
| `GoodsEffects.ReturnBooks` | packages/core/src/purchasing/goods-return.service.ts:204-282 | a return gives GRNI each line's total at the order's price, takes the cost out of Inventory and puts the difference on price variance |
| `GoodsEffects.ReturnCounts` | packages/core/src/purchasing/goods-return.service.ts:338-352 | every order line's received quantity falls by what was given back of it in all |
| `GoodsEffects.ReturnAccepted` | packages/core/src/purchasing/goods-return.service.ts:158-282 | a return is accepted exactly when the order was received, the lines are its own, each sum is received and not invoiced, the goods can leave and are worth something |
| `Invoicing.TaxOn` | packages/core/src/purchasing/supplier-invoice.util.ts:20-22 | tax is the nearest ten-thousandth of net x rate, halves up |
| `Invoicing.GroupByAccount` | packages/core/src/sales/sales-invoice.service.ts:599-625 | the grouping loop totals each account once |
| `Invoicing.ByAccountGroups` | packages/core/src/sales/sales-invoice.service.ts:599-625 | grouping keeps each account once, loses no amount and books to each account what the lines naming it are worth |
| `Invoicing.DocumentEntryAccepted` | packages/core/src/sales/sales-invoice.service.ts:216-231 | an invoice or note entry is acceptable exactly when its gross is not zero, whatever accounts its lines name |
| `Invoicing.DocumentEntryNet` | packages/core/src/sales/sales-invoice.service.ts:216-231 | what such an entry puts on each account |
| `PurchaseOrders.PurchaseOrderService.Create` | packages/core/src/purchasing/purchase-order.service.ts:153-244 | an order starts approved, or pending when a policy is set and the sum of its rounded line totals exceeds the threshold, with nothing received or invoiced; every order stays in step |
| `PurchaseOrders.PurchaseOrderService.Decide` | packages/core/src/purchasing/purchase-order.service.ts:296-325 | only a pending order can be approved or rejected; every order stays in step |
| `PurchaseOrders.PurchaseOrderService.Cancel` | packages/core/src/purchasing/purchase-order.service.ts:327-348 | only a pending or approved order can be cancelled; every order stays in step |
| `Purchasing.SumRequested` | packages/core/src/purchasing/purchase-receipt.service.ts:70-76 | the `requested` map holds each line's total over the request, and only lines of the order |
| `Purchasing.CheckFits` | packages/core/src/purchasing/purchase-receipt.service.ts:77-82 | the bound loop passes exactly when every requested total is within what is left |
| `Purchasing.MoveCounters` | packages/core/src/purchasing/goods-return.service.ts:338-352 | the counter loop moves each line by what was requested of it and reports the status flags of the order |
| `Purchasing.PurchaseReceiptService.Receive` | packages/core/src/purchasing/purchase-receipt.service.ts:48-134 | a receipt leaves the stock, counters, status and entry of ReceiveOrder, or refuses and changes nothing |
| `Purchasing.GoodsReturnService.Create` | packages/core/src/purchasing/goods-return.service.ts:158-352 | a return leaves the stock, counters, status and entry of CreateReturn, or refuses and changes nothing |
| `Purchasing.BoundsKeepCounters` | packages/core/src/purchasing/purchase-receipt.service.ts:77-116 | 0 <= invoiced <= received <= ordered after a move exactly when the aggregate bound held |
| `Purchasing.MoveOpenValue` | packages/core/src/purchasing/purchase-receipt.service.ts:108-116 | moving a counter changes (received - invoiced) x price by the weight of what moved |
| `Purchasing.ReturnEntryAccepted` | packages/core/src/purchasing/goods-return.service.ts:256-274 | a return posts unless both values are zero; it clears GRNI by the order value and Inventory by the average cost |
| `PurchaseOrders.ApprovalRule` | packages/core/src/approvals/approval-policy.ts:13-19 | an order waits for approval exactly when there is a policy and the worth of its lines is above the threshold |
| `GoodsEffects.OrderPlaces` | packages/core/src/purchasing/purchase-order.service.ts:153-244 | a placed order keeps every line's item, quantity and price as asked, nothing received or invoiced, and waits or not as asked; it is refused exactly when empty or a quantity is nil |
| `GoodsEffects.OrderDecides` | packages/core/src/purchasing/purchase-order.service.ts:296-325 | approving approves and rejecting rejects the order alone, exactly while it is pending |
| `GoodsEffects.OrderCancels` | packages/core/src/purchasing/purchase-order.service.ts:327-348 | cancelling cancels the order alone, exactly while it is pending or approved |
| `SupplierInvoicing.EvaluateLines` | packages/core/src/purchasing/supplier-invoice.service.ts:653-705 | the evaluation loop with its `claimed` map is Evaluate |
| `SupplierInvoicing.PrefixCheckIsAggregate` | packages/core/src/purchasing/supplier-invoice.service.ts:653-683 | checking each line against what earlier lines claimed refuses exactly when the claimed totals exceed what is left to invoice |
| `SupplierInvoicing.AddUp` | packages/core/src/purchasing/supplier-invoice.util.ts:57-78 | the totals loop adds up net, tax, order value and variance of every line |
| `SupplierInvoicing.BuildEntry` | packages/core/src/purchasing/supplier-invoice.service.ts:285-305 | the lines pushed one by one are the entry of the evaluation |
| `SupplierInvoicing.MatchWeighs` | packages/core/src/purchasing/supplier-invoice.util.ts:24-33 | order values of the matched lines are claimed quantity x order price up to their own rounding |
| `SupplierInvoicing.SupplierInvoiceEntryAccepted` | packages/core/src/purchasing/supplier-invoice.service.ts:285-305 | the entry is acceptable exactly when the gross is not zero, debits GRNI by the order values, credits Payable by the gross and books to every other account what the lines naming it cost |
| `SupplierInvoicing.SupplierInvoiceService.Create` | packages/core/src/purchasing/supplier-invoice.service.ts:257-396 | a matched invoice leaves the counters, document and entry of CreateInvoice, or refuses and changes nothing; what those are is in the five rows below |
| `DocumentEffects.InvoiceIsBilled` | packages/core/src/purchasing/supplier-invoice.service.ts:270-306 | the invoice's gross is the sum over its lines of net and tax at the prices billed |
| `DocumentEffects.InvoiceBooks` | packages/core/src/purchasing/supplier-invoice.service.ts:285-305 | on every account: GRNI at the order's prices, price variance by what is billed beyond them, VAT by the lines' tax, each account by the expense lines naming it, Payable by the gross |
| `DocumentEffects.InvoiceAccepted` | packages/core/src/purchasing/supplier-invoice.service.ts:257-284 | an invoice is accepted exactly when its goods are on the supplier's orders, no order line is claimed beyond what is received and not invoiced, prices agree or the differences were accepted, and it is worth something |
| `DocumentEffects.VarianceRefused` | packages/core/src/purchasing/supplier-invoice.service.ts:271 | it is refused for its prices exactly when it otherwise matches, some goods are billed at other than the order's price, and that was not accepted |
| `DocumentEffects.InvoiceCounts` | packages/core/src/purchasing/supplier-invoice.service.ts:308-396 | every order line's invoiced quantity rises by what the invoice claims of it in all, and each line about goods keeps its row |
| `Invariants.OrderReceiptHolds` | packages/core/src/purchasing/purchase-receipt.service.ts:58-118 | a receipt keeps counters in order and every status as the counters say |
| `Invariants.GoodsReturnHolds` | packages/core/src/purchasing/goods-return.service.ts:167-352 | a return keeps counters in order and every status as the counters say |
| `Invariants.CancelledOrderIsEmpty` | packages/core/src/purchasing/purchase-order.service.ts:327-348 | a cancelled order has nothing received or invoiced |
| `OrderLocks.RefusedWrites` | packages/core/src/purchasing/goods-return.service.ts:190-201 | under the locks an update breaks the database's check exactly when it is a return of more than is now received and not invoiced, which takes an invoice committed since the read |
| `OrderLocks.InEveryInterleaving` | packages/db/prisma/migrations/20261006120000_m5_supplier_invoices_and_tax_codes/migration.sql:125-126 | in every interleaving of receipts, returns and invoices 0 <= invoiced <= received <= ordered and no update is lost - with the check, or without it when returns and invoices are not mixed |
| `OrderLocks.ReturnMeetsInvoice` | packages/core/src/purchasing/goods-return.service.ts:190-201 | the run in which a return and an invoice of the same goods meet: refused with the check, invoiced above received without it |
| `OrderLocks.ReceiptsCheck` | packages/core/src/purchasing/purchase-receipt.service.ts:70-116 | an accepted receipt asked for and wrote what a session of the lock model does when nobody comes between |
| `OrderLocks.ReturnsCheck` | packages/core/src/purchasing/goods-return.service.ts:190-201 | so did an accepted return |
| `OrderLocks.InvoicesCheck` | packages/core/src/purchasing/supplier-invoice.service.ts:653-705 | so did an accepted supplier invoice |
| `Settlement.SellLinesMove` | packages/core/src/sales/sales-invoice.service.ts:188-215 | a sale takes exactly its cost out of the stock sub-ledger |
| `Settlement.SalesEntryAccepted` | packages/core/src/sales/sales-invoice.service.ts:216-229 | a sale with something to pay is accepted at whatever cost, debits Receivable by the gross, credits Inventory by the cost and every account by what the lines naming it are worth |
| `Settlement.AllocationsChecked` | packages/core/src/payments/payment.service.ts:150-163 | the allocation loop passes exactly when each invoice is the party's and owes at least what is allocated to it |
| `Settlement.PaymentService.Create` | packages/core/src/payments/payment.service.ts:138-240 | a payment leaves the row and entry of CreatePayment and returns its unallocated part, never negative, or refuses and changes nothing |
| `Settlement.SalesInvoiceService.CreateInvoice` | packages/core/src/sales/sales-invoice.service.ts:151-337 | a sale leaves the stock, document and entry of CreateSale, or refuses and changes nothing; what those are is in the rows of DocumentEffects and StockEffects |
| `Settlement.SalesInvoiceService.CreateSalesNote` | packages/core/src/sales/sales-invoice.service.ts:339-556 | a credit or debit note leaves the document and entry of CreateNote, or refuses and changes nothing |
| `DocumentEffects.SaleInvoices` | packages/core/src/sales/sales-invoice.service.ts:207-231 | the invoice's gross is the sum over its lines of net and tax; it is the customer's, due as given or on its date |
| `DocumentEffects.SaleBooks` | packages/core/src/sales/sales-invoice.service.ts:216-231 | on every account: Receivable by the gross, VAT by the lines' tax, each line's net on the account it names or sales revenue, and what left stock from Inventory to cost of goods sold |
| `DocumentEffects.SaleAccepted` | packages/core/src/sales/sales-invoice.service.ts:151-231 | a sale is accepted exactly when its goods can leave and it is worth something |
| `DocumentEffects.NoteRaises` | packages/core/src/sales/sales-invoice.service.ts:402-421 | a note is the invoice's party's, for its lines' net and tax |
| `DocumentEffects.NoteBooks` | packages/core/src/sales/sales-invoice.service.ts:374-383 | on every account: a debit note charges the control account against VAT and the accounts its lines name, a credit note gives the same back |
| `DocumentEffects.NoteAccepted` | packages/core/src/sales/sales-invoice.service.ts:349-368 | a note is accepted exactly when it is of an invoice of its side, worth something, and with the notes of its kind already raised within the invoice |
| `DocumentEffects.PaymentBooks` | packages/core/src/payments/payment.service.ts:169-179 | a customer's payment moves the amount from Receivable to cash, one to a supplier from cash to Payable |
| `DocumentEffects.PaymentAccepted` | packages/core/src/payments/payment.service.ts:138-163 | a payment is accepted exactly when it is of something and its allocations name the party's invoices once each, within what they owe and together within the payment |
| `PartyAccounts.NoteHolds` | packages/core/src/sales/sales-invoice.service.ts:361-368 | the note check keeps the notes of its kind within the invoice's gross |
| `PartyAccounts.PaymentHolds` | packages/core/src/payments/payment.service.ts:139-163 | allocating no more than is owed keeps allocations within gross plus debit notes |
| `PartyAccounts.OutstandingWithin` | packages/core/src/payments/outstanding.ts:38-91 | with the bounds, -credits <= outstanding <= gross + debits on the sales side and -debits <= outstanding <= gross on the supplier side |
| `SettlementLocks.PaymentsCheck` | packages/core/src/payments/payment.service.ts:139-163 | a payment that is created passed the checks and inserted the row of the lock model |
| `SettlementLocks.NotesCheck` | packages/core/src/sales/sales-invoice.service.ts:349-368 | a note that is created passed the checks and inserted the row of the lock model |
| `SettlementLocks.CommitSpares` | packages/core/src/sales/sales-lines.ts:115-123 | what a payment or sales note read under the party's lock still stands whoever else commits |
| `SettlementLocks.InEveryInterleaving` | packages/core/src/payments/payment.service.ts:139-163 | in every interleaving allocations stay within what the invoice charges, credit notes within gross, and sales debit notes within gross |
| `SettlementLocks.LockingEveryNoteSuffices` | packages/core/src/purchasing/supplier-invoice.service.ts:404-446 | were supplier debit notes to take the party's lock, every bound of serial runs would hold in every interleaving |
| `SettlementLocks.UnlockedNotesExceedInvoice` | packages/core/src/purchasing/supplier-invoice.service.ts:438-446 | as it is, two debit notes can each pass the check and debit the invoice twice over |
| `SettlementLocks.DebitsWithinGross` | packages/core/src/purchasing/supplier-invoice.service.ts:438-446 | on every run, an invoice's debit notes stay within its gross exactly when no committed debit note of it would have failed its check at the commit |
| `SettlementLocks.OutstandingInEveryInterleaving` | packages/core/src/payments/outstanding.ts:38-91 | so in every interleaving -credits <= outstanding <= gross + debits on the sales side and -debits <= outstanding <= gross on the supplier side |
| `Reconciliation.CountAlwaysPosts` | packages/core/src/inventory/stock-count.service.ts:285-308 | a recorded count can always be posted, once |
| `Reconciliation.StepKeeps` | packages/core/src/purchasing/goods-return.service.ts:226-282 | a command moves a control account away from its sub-ledger by what its lines naming that account put on it, and a count's floor moves Inventory's gap by what it adds: nothing else does |
| `Reconciliation.RunHolds` | packages/core/src/purchasing/purchase-receipt.service.ts:84-118 | every run keeps counters and statuses in step, settlements within bounds, links whole and every entry sound |
| `Reconciliation.InventoryTies` | packages/core/src/inventory/weighted-average.util.ts:5-10 | over every run Inventory's net debit is the sum of stock values, less exactly what the zero floor of counts added, plus what documents naming the account put on it |
| `Reconciliation.InventoryTiesUnnamed` | packages/core/src/inventory/weighted-average.util.ts:5-10 | so when no document names the account, only the floor parts the two |
| `Reconciliation.GrniTies` | packages/core/src/purchasing/goods-return.service.ts:226-274 | over every run GRNI's credit is direct receipts plus (received - invoiced) x order price plus exactly the rounding of the lines posted, less what documents naming the account put on it |
| `Reconciliation.ControlTies` | packages/core/src/payments/party-statement.service.ts:92-134 | over every run, on every day, Receivable and Payable are what the statements say is owed, plus what documents dated by then put on them by name |
| `History.UnnamedPutsNothing` | packages/core/src/sales/sales-invoice.service.ts:599-625 | documents that do not name an account put nothing on it: the correction of the ties is zero there |
| `Postings.LedgerIsBooked` | packages/core/src/accounting/accounting-engine.service.ts:85-123 | over every run, for every account and on every day, the balance is exactly what the accepted documents dated by then say |
| `Clearing.GrniClears` | packages/core/src/purchasing/supplier-invoice.util.ts:24-33 | over every run that rounding is within half a ten-thousandth per order line posted, and zero when no product needed rounding |
| `Clearing.EmptyRowsHoldNothing` | packages/core/src/inventory/weighted-average.util.ts:60-86 | on every run without counts a row with nothing on hand holds no value |
| `Clearing.CountCanStrandValue` | packages/core/src/inventory/weighted-average.util.ts:110-116 | a count of 3 units worth 1.0000 down to zero leaves 0.0001 on zero units |
| `Ageing.AgeingAgreesWithStatement` | packages/core/src/payments/outstanding.ts:38-91 | for one party or all, on any day, buckets less on-account equal the statement's closing balance plus exactly what was settled before it was invoiced |
| `Ageing.AgeingTiesToLedger` | packages/core/src/payments/aging.service.ts:62-139 | over every run and for every day the report less the control balance is exactly that less what documents naming the account put on it; zero when nothing predates its invoice and no document names it |
| `PartyReports.BucketsCover` | packages/core/src/payments/aging.service.ts:74-79 | every open invoice is in exactly one bucket |
| `PartyReports.BucketsByDays` | packages/core/src/payments/aging.util.ts:8-20 | the columns by days past due: none, to 30, to 60, to 90, beyond |
| `PartyReports.Report` | packages/core/src/payments/aging.service.ts:62-121 | the loops fill each cell with its party's open invoices in the bucket, each row adds up to the party's ageing, the totals to the side's |
| `PartyReports.RowsAddUp` | packages/core/src/payments/party-statement.service.ts:62-92 | the rows dated by a day add up to the party's balance on it |
| `PartyReports.RowsInOrder` | packages/core/src/payments/party-statement.service.ts:62-92 | the rows come in date order, none after the end of the period |
| `PartyReports.ColumnsAddUp` | packages/core/src/payments/party-statement.service.ts:62-92 | the charge column holds the party's invoices and sales debit notes, the settlement column its other notes and payments |
| `PartyReports.Running` | packages/core/src/payments/party-statement.service.ts:92-118 | opening is everything before the period, each line's balance everything up to it, closing everything |
| `PartyReports.Statement` | packages/core/src/payments/party-statement.service.ts:58-134 | opening is what the party owed the day before, each line's balance what the rows up to it leave owed, closing what it owes at the end |
| `FinancialReports.ChangeIsNet` | packages/core/src/accounting/revenue-expense.util.ts:42-57 | debits less credits of a period are what changes the balance over it |
| `FinancialReports.DebitsAreCredits` | packages/core/src/accounting/trial-balance.service.ts:168-219 | over any period the debits of all accounts equal their credits |
| `FinancialReports.BalancesCancel` | packages/core/src/accounting/trial-balance.service.ts:136-165 | on any day the balances of all accounts add up to nothing |
| `FinancialReports.RevenueAndExpense` | packages/core/src/accounting/revenue-expense.util.ts:37-107 | the loop's totals are all revenue and all expense of the period |
| `FinancialReports.AccountingEquation` | packages/core/src/accounting/balance-sheet.service.ts:43-50 | over any period assets are liabilities plus equity plus what was earned |
| `FinancialReports.ComputeBalanceSheet` | packages/core/src/accounting/balance-sheet.service.ts:53-109 | the three totals by type and the earnings as revenue less expenses; over a sound ledger they balance |
| `ReportFigures.BalanceSheetReads` | packages/core/src/accounting/balance-sheet.service.ts:53-109 | the three totals are what the accounts of each type hold, the earnings what was ever earned |
| `FinancialReports.ComputeCashFlow` | packages/core/src/accounting/cash-flow.service.ts:56-143 | the loop's sections and cash balances, and net income of the period |
| `FinancialReports.CashFlowTies` | packages/core/src/accounting/cash-flow.service.ts:95-143 | net change misses the change in cash by exactly what accounts with a misleading code contribute; with every balance-sheet code in its section it ties for every period |
| `ReportFigures.CashFlowReads` | packages/core/src/accounting/cash-flow.service.ts:95-143 | each section is how the accounts with its codes grew over the period, cash what 11101 and 11102 held, net income what was earned |
| `ReportFigures.SectionsOf` | packages/core/src/accounting/cash-flow.service.ts:128-143 | growing assets use cash, growing debts and equity bring it, each in its section; the report tolerates a difference of one ten-thousandth |
| `FinancialReports.SplitNetBalance` | packages/core/src/accounting/trial-balance.service.ts:66-68 | one side carries the balance, the other nothing |
| `FinancialReports.BuildPeriodTrialBalance` | packages/core/src/accounting/trial-balance.service.ts:81-128 | a line for every row that shows anything, in order, and totals that are the sums of the lines' own columns |
| `FinancialReports.ComputeForPeriod` | packages/core/src/accounting/trial-balance.service.ts:136-165 | each line is its account's figures in the ledger, no account with a balance or movement is missing, totals are the columns' sums, and over a sound ledger the opening, movement and closing columns each balance |
| `FinancialReports.ComputeTrialBalance` | packages/core/src/accounting/trial-balance.service.ts:168-219 | total debit equals total credit over a sound ledger |
| `RollUp.SubtreeSplits` | packages/core/src/accounting/account-balances.util.ts:42-60 | on a forest the sum over an account's descendants is its own amount plus its children's sums |
| `RollUp.UnderOneChild` | packages/core/src/accounting/account-balances.util.ts:34-40 | a descendant is under exactly one child |
| `RollUp.BalanceRoller.constructor` | packages/core/src/accounting/account-balances.util.ts:28-40 | the loop builds each account's children, unknown and self parents counted as none |
| `RollUp.BalanceRoller.Total` | packages/core/src/accounting/account-balances.util.ts:42-60 | the memoised recursion ends on every graph and on a forest answers with the plain sum over the subtree |
| `RollUp.BalanceRoller.RollUpBalances` | packages/core/src/accounting/account-balances.util.ts:62-72 | every account's totals and the side of its balance |
| `RollUp.RootsAddUp` | packages/core/src/accounting/account-balances.util.ts:22-27 | the roots' totals add up to what all accounts were posted |
| `RollUp.LeafIsOwn` | packages/core/src/accounting/account-balances.util.ts:42-60 | an account nothing hangs under totals its own debits and credits |
| `AccountCode.LevelOf` | packages/core/src/accounting/account-code.ts:16-28 | the climb counts the levels and ends even on a cycle |
| `AccountCode.SuggestionHolds` | packages/core/src/accounting/account-code.ts:36-57 | a suggested code is free, fixed-width, above every numeric sibling with nothing free in between; there is none exactly when the parent is unknown or no number is left |
| `AccountCode.SuggestNextChildCode` | packages/core/src/accounting/account-code.ts:36-57 | the two loops compute that suggestion |
| `AccountCode.FirstChildCode` | packages/core/src/accounting/account-code.ts:30-57 | the first account under a group takes 1, 101 or 01 by the group's level, while that is free |
| `ChartOfAccounts.MoveRefusesCyclesOnly` | packages/core/src/accounting/chart-of-accounts.service.ts:362-381 | a move is refused for making a cycle exactly when the new parent is the account or somewhere below it |
| `ChartOfAccounts.ProvisionOneKeeps` | packages/core/src/hr/employee-accounts.ts:121-149 | each account an employee is given keeps the chart whole and touches no other account |
| `ChartOfAccounts.AfterKeeps` | packages/core/src/accounting/chart-of-accounts.service.ts:145-405 | every command keeps parents acyclic groups, colours on top, codes unique and normal balances by type |
| `ChartOfAccounts.RunHolds` | packages/core/src/accounting/chart-of-accounts.service.ts:145-405 | so does every run from the empty chart, whatever the rest of the books did |
| `ChartOfAccounts.StaysActiveOnly` | packages/core/src/accounting/chart-of-accounts.service.ts:282-319 | a command leaves no active account under a stopped one exactly unless it creates under, or moves an active account under, a stopped group |
| `ChartOfAccounts.ProvisionsActive` | packages/core/src/hr/employee-accounts.ts:42-60 | provisioning never hangs an account under a stopped group |
| `ChartOfAccounts.ChartIsForest` | packages/core/src/accounting/account-balances.util.ts:22-27 | on every such chart the roll-up works on a forest |
| `ChartRules.OnlyLawfully` | packages/core/src/accounting/chart-of-accounts.service.ts:145-405 | whatever is asked, an account only goes when unused, unlinked and childless, and only changes as its own command may: code and type never, used accounts stay postable, mapped ones active |
| `ChartRules.Creates` | packages/core/src/accounting/chart-of-accounts.service.ts:145-195 | an account is created exactly when its code is new, its parent a group, only a top account coloured and its party known; it is as asked, active, of the normal balance of its type |
| `ChartRules.Deletes` | packages/core/src/accounting/chart-of-accounts.service.ts:257-275 | an account is deleted exactly when nothing records against it, it is no party's and nothing hangs under it |
| `ChartRules.MakesGroup` | packages/core/src/accounting/chart-of-accounts.service.ts:328-349 | an account is made a group exactly when it is one, or is unused and no party's |
| `ChartRules.SetsActive` | packages/core/src/accounting/chart-of-accounts.service.ts:282-319 | an account is stopped exactly when unmapped, without active children, and without a balance or with that acknowledged; restarted exactly under an active group or none |
| `ChartService.ChartOfAccountsService.Create` | packages/core/src/accounting/chart-of-accounts.service.ts:145-195 | creates the account or refuses, as CreateAccount says; the chart stays in order |
| `ChartService.ChartOfAccountsService.Update` | packages/core/src/accounting/chart-of-accounts.service.ts:197-224 | changes party and colour or refuses, as UpdateAccount says; the chart stays in order |
| `ChartService.ChartOfAccountsService.Move` | packages/core/src/accounting/chart-of-accounts.service.ts:357-405 | the climb with `cursor` and `seen` decides as MoveAccount says, and ends on any chart; the chart stays in order |
| `ChartService.ChartOfAccountsService.MakeGroup` | packages/core/src/accounting/chart-of-accounts.service.ts:328-349 | makes the account a group or refuses, as MakeGroupOf says; the chart stays in order |
| `ChartService.ChartOfAccountsService.Delete` | packages/core/src/accounting/chart-of-accounts.service.ts:257-275 | deletes the account or refuses, as DeleteAccount says; the chart stays in order |
| `ChartService.ChartOfAccountsService.SetActive` | packages/core/src/accounting/chart-of-accounts.service.ts:282-319 | stops or restarts the account or refuses, as SetActiveOf says; the chart stays in order |
| `ChartService.ChartOfAccountsService.ProvisionEmployeeAccounts` | packages/core/src/hr/employee-accounts.ts:94-158 | creates the missing accounts against a growing chart, or none of them; the chart stays in order |
| `Numbering.PrintsApart` | packages/core/src/accounting/numbering.service.ts:45 | two numbers of a series never print alike, past the padding width too |
| `Numbering.PrintsPadded` | packages/core/src/accounting/numbering.service.ts:45 | a printed number is the prefix and the number in decimal, zeros in front up to the padding |
| `Numbering.SeriesTable.Next` | packages/core/src/accounting/numbering.service.ts:9-46 | the next number, its printed form, and the row advanced by one |
| `Numbering.InEveryInterleaving` | packages/core/src/reference.ts:28-59 | in every interleaving of commits and aborts the numbers of a series are 1..lastNumber in order, printed by their row, and each idempotency key has at most one entry |
| `Numbering.PrintedOnce` | packages/core/src/accounting/numbering.service.ts:9-46 | no two documents of a series print the same |
| `Numbering.ReplaysDrawNothing` | packages/core/src/accounting/accounting-engine.service.ts:39-83 | in every run a session answered with an issued key has drawn nothing under it, and its commit leaves that key with its one entry |
| `Numbering.NextFollowsOn` | packages/core/src/accounting/numbering.service.ts:9-46 | in every run the next number drawn follows the committed ones and the session's own: what was rolled back is drawn again |
| `Calendar.AnniversaryInYear` | packages/core/src/hr/eosb.ts:32 | an anniversary lies in its year, 365 or 366 days from the next |
| `Calendar.LeapDayReturns` | packages/core/src/hr/eosb.ts:32 | the anniversary of 29 February is 29 February of a leap year and 1 March of any other |
| `EndOfService.ServiceOnAnniversary` | packages/core/src/hr/eosb.ts:31-44 | exactly n years on the n-th anniversary |
| `EndOfService.ServiceInYear` | packages/core/src/hr/eosb.ts:31-44 | n years up to the next anniversary, with a fraction in [0,1) |
| `EndOfService.ServiceRises` | packages/core/src/hr/eosb.ts:31-44 | leaving a day later is strictly more service |
| `EndOfService.YearsOfServiceBetween` | packages/core/src/hr/eosb.ts:31-44 | the year difference adjusted once finds the completed years, days and length of the current year |
| `EndOfService.LaterNeverPaysLess` | packages/core/src/hr/eosb.ts:49-79 | gross and net never fall when leaving later, for every reason, and net <= gross, as stored |
| `EndOfService.GrossIs` | packages/core/src/hr/eosb.ts:64-68 | half the wage a year to the fifth, the whole wage for every part of a year beyond |
| `EndOfService.ResignationKeeps` | packages/core/src/hr/eosb.ts:49-55 | by the calendar: nothing before the second anniversary, a third to the fifth included, two thirds before the tenth, then all of it |
| `EndOfService.OthersKeepAll` | packages/core/src/hr/eosb.ts:49-55 | any other reason is paid in full |
| `EndOfService.FixedIsNearest` | packages/core/src/hr/eosb.ts:70-79 | the stored amounts are the nearest ten-thousandth, a tie upwards |
| `EndOfService.AwardForWholeYears` | packages/core/src/hr/eosb.ts:66-68 | half a month's wage for each year to the fifth, a whole one after |
| `EndOfService.ComputeEndOfServiceSettlement` | packages/core/src/hr/eosb.ts:57-79 | computes that settlement |
| `HrEffects.RunTakes` | packages/core/src/hr/payroll-run.service.ts:228-240 | for every advance: the smaller of its instalment and what is left of it when its employee is on the roster and both are positive, else nothing |
| `HrEffects.RunOwes` | packages/core/src/hr/payroll-run.service.ts:198-276 | each line owes its employee gross less share less exactly what was taken from their own advances |
| `HrEffects.RunTotals` | packages/core/src/hr/payroll-run.service.ts:198-276 | gross and shares are the sums over the roster |
| `HrEffects.RunInserts` | packages/core/src/hr/payroll-run.service.ts:278-395 | an accepted run inserts those takes and lines, the contributions owed and one entry, nothing else |
| `HrEffects.RunBooks` | packages/core/src/hr/payroll-run.service.ts:278-284 | the entry on every account: salaries and employer's shares expensed, contributions, advances and net pay credited |
| `HrEffects.RunAccepts` | packages/core/src/hr/payroll-run.service.ts:125-290 | a run is accepted exactly when its period has none, gross and employer's shares are positive, no line is negative and every account owed on is owed something |
| `HrEffects.GrantBooks` | packages/core/src/hr/salary-advance.service.ts:97-162 | a grant is accepted exactly when positive and moves it from cash to the receivable |
| `HrEffects.RepaymentBooks` | packages/core/src/hr/salary-advance.service.ts:169-243 | a repayment is accepted exactly when positive and within what is left, and takes it off the receivable |
| `HrEffects.RemittanceBooks` | packages/core/src/hr/hr-payment.service.ts:277-288 | a remittance is accepted exactly when positive and within what is owed, and takes it off the payable |
| `HrEffects.SalariesAccept` | packages/core/src/hr/hr-payment.service.ts:237-250 | salaries are paid exactly when the run has a positive unpaid line of those chosen |
| `HrEffects.SalariesBook` | packages/core/src/hr/hr-payment.service.ts:250-274 | each such line is paid once, every debt on its own account and all of it from cash |
| `Payroll.ComputeConsistent` | packages/core/src/hr/payroll-run.service.ts:164-276 | totals, maps and rows of a run agree with one another for every roster |
| `Payroll.PayrollEntryAccepted` | packages/core/src/hr/payroll-run.service.ts:278-284 | the entry balances for every roster and is accepted exactly when gross, employer share and every account's net pay are positive |
| `Payroll.PayrollEntryNet` | packages/core/src/hr/payroll-run.service.ts:278-284 | what the entry puts on each account |
| `Payroll.ComputeRun` | packages/core/src/hr/payroll-run.service.ts:198-276 | the loop over the roster computes those figures |
| `HrBooks.RemainingIsGrantedLessTaken` | packages/core/src/hr/salary-advance-balance.ts:18-25 | granted less taken, account by account, is what remains, advance by advance |
| `HrBooks.PlanTied` | packages/core/src/hr/payroll-run.service.ts:278-284 | each grant, repayment, run, remittance and salary payment books exactly what it inserts into the sub-ledgers |
| `HrLocks.PayrollTakesFit` | packages/core/src/hr/payroll-run.service.ts:228-240 | a run takes from each advance no more than is left of it, under its employee's lock |
| `HrLocks.PlanStillStands` | packages/core/src/hr/salary-advance-balance.ts:36-48 | a commit under other locks leaves standing what a session read and planned |
| `HrLocks.InEveryInterleaving` | packages/core/src/hr/salary-advance-balance.ts:36-48 | in every interleaving no advance is overdrawn, no employee has two lines of one run, no salary line is paid twice, no more contributions are remitted than owed, and every account is its sub-ledger |
| `HrLocks.SubLedgersTie` | packages/core/src/hr/hr-payment.service.ts:151-155 | a receivable account is the sum of what remains on it, and the contributions payable is `gosiOutstanding` >= 0 |
| `HrLocks.NoDeadlock` | packages/core/src/hr/salary-advance-balance.ts:40-48 | sorted locks cannot deadlock: while a session is open one can step |
| `HrService.HrTransactions.GrantAdvance` | packages/core/src/hr/salary-advance.service.ts:97-162 | inserts the advance and its entry, or nothing; the books stay in order |
| `HrService.HrTransactions.RepayAdvance` | packages/core/src/hr/salary-advance.service.ts:169-243 | inserts a repayment within what remains and its entry, or nothing; the books stay in order |
| `HrService.HrTransactions.CreatePayrollRun` | packages/core/src/hr/payroll-run.service.ts:125-395 | inserts the run's deductions, lines, contributions and entry, or nothing: a second run of a period is refused; the books stay in order; what a run takes and owes is in HrEffects |
| `HrService.HrTransactions.RemitGosi` | packages/core/src/hr/hr-payment.service.ts:277-288 | inserts a remittance within what is owed and its entry, or nothing; the books stay in order |
| `HrService.HrTransactions.PayNetSalaries` | packages/core/src/hr/hr-payment.service.ts:237-274 | inserts the unpaid lines paid and the entry by account, or nothing; the books stay in order |
| `Counterexamples.FloorPartsStockFromLedger` | packages/core/src/inventory/weighted-average.util.ts:106-117 | two receipts and a count to zero after which Inventory is 0.0001 below the stock it controls |
| `Counterexamples.PaidBeforeInvoiced` | packages/core/src/payments/aging.service.ts:62-139 | an invoice paid before its date, and the day on which the report is above the account by the whole of it |
| `Counterexamples.ActiveUnderStopped` | packages/core/src/accounting/chart-of-accounts.service.ts:145-195 | a run from the empty chart that creates an active account under a stopped group |
| `Counterexamples.CodeOutsideSections` | packages/core/src/accounting/cash-flow.service.ts:95-143 | a loan on an account coded 29: cash rises by it and the cash flow reports no change |
| `DecimalText.ReadsBack` | packages/core/src/accounting/decimal-sum.util.ts:5-17 | `toScaledBigInt(fromScaledBigInt(n)) = n` for every integer, those between -1 and 0 included |
| `DecimalText.WritesBack` | packages/core/src/accounting/decimal-sum.util.ts:5-17 | text that can be read is written back unchanged exactly when it is canonical |
| `DecimalText.AcceptedIsExact` | apps/api/src/common/decimal-string.validator.ts:8-13 | every accepted string is read with no digit lost and below 10^19 |
| `DecimalText.PositiveIsNonZero` | apps/api/src/common/decimal-string.validator.ts:10-13 | `positive` refuses exactly zero |
| `Csv.RoundTrip` | apps/api/src/common/csv.util.ts:5-20 | a reader for section 2 of RFC 4180 recovers the rows from the document exactly when there is a row and none is empty |
| `Csv.Injective` | apps/api/src/common/csv.util.ts:5-20 | two different tables never export alike |

## Left out

- decimal.js keeps about twenty significant digits: intermediate products are exact here, and the award of
  `EndOfService` is computed over the reals before it is rounded to four decimals.
- Lookups that only refuse: fiscal periods, tax codes, active items, warehouses, parties and employees, postable and
  active accounts on documents (the engine's own check of them is in `Engine`), a supplier invoice number seen before.
- Idempotency keys of the services: every command is taken as fresh. What a replay does is in `Engine` and `Numbering`.
- Stock movement rows and document rows that nothing here reads (a count variance worth nothing writes no movement row).
- Sales order counters, quotations, purchase requests and the approval records behind a pending order.
- Currency: documents post in the company currency, so base amounts are the amounts.
- Manual journals and reversals of document entries are not commands of `History`: they legitimately part a control
  account from its sub-ledger. Reversals are in `Engine`.
- Two postings of one count draft, or two stock movements of one row, at the same time: each is one atomic step.
- Lock waits are steps that change nothing; deadlock is studied for the HR locks only.
- Payment dates against the run or the settlement they pay, end-of-service payments, and the posting of a settlement.
- The contribution rate table: an employee comes with its two shares, not negative.
- Audit records, names, notes, paging, exports, the wage protection file.
- Days after 9999-12-31: that day stands for "no cut-off".
- `BigInt` spellings other than digits with an optional minus are taken as refused.
- ReturnLine.price and MatchedLine.price are copies of the order line's price, which no operation changes.
- OrderLocks.InEveryInterleaving: without the database's check it says nothing of runs that mix returns and invoices,
  because the property fails there (`ReturnMeetsInvoice`).
- Engine.AccountingEngine.PostEntry: leaves out the entry's document number; how numbers are drawn is in `Numbering`.
- Engine.AccountingEngine.ReverseEntry: leaves out the reversal's document number, likewise.
- SupplierInvoicing.SupplierInvoiceService.Create: leaves out the refusal of a supplier invoice number seen before, which
  only refuses.
- Settlement.SalesInvoiceService.CreateInvoice: leaves out the checks and counters of the sales order invoiced.
- EndOfService.ComputeEndOfServiceSettlement: leaves out the years and fraction printed beside the amounts.
- HrService.HrTransactions.PayNetSalaries: leaves out the refusal of a payment dated before its run.
