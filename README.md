# KERAVEP back office — a verified model of the sales, stock and receivables ledger

KERAVEP is a back office for a business that sells out of several warehouses, for cash or on
credit. This project models its ledger core in Dafny and proves properties of the model.

The model covers five parts:

- **Stock ledger** (`warehouses.dfy`). Each (warehouse, product) pair has a quantity that never goes
  negative, and there is an append-only log of stock movements with before/after snapshots. A class
  invariant (`Database.StockAudited`) ties the two together: every quantity equals its opening value
  plus the net of the movements logged for that pair.
- **Sale engine** (`sales.dfy`, `sale_numbers.dfy`). It validates a credit sale, computes the totals
  and formats the daily sale number `V{yyyy}{mm}{dd}-{nnnn}`. It then inserts the sale and its items,
  takes one VENTA movement per item out of stock, and, for a credit sale, opens a receivable and
  raises the customer's debt. Cancellation restores the stock, marks the sale CANCELADA, and writes
  off the receivable and the debt. There is no transaction: the writes are modelled in the order the
  service issues them, and a stock failure part-way leaves the earlier writes in place.
- **Receivable ledger** (`receivables.dfy`). It validates payments, updates the account's
  paid/balance/status, lowers the debt (never below 0), and builds the five-bucket aging report.
- **Cash closing** (`cash_closings.dfy`). It allows one closing per (warehouse, user, day) and
  computes the day's cash, credit and total sales and the user's collections.
- **Point-of-sale cart** (`cart.dfy`). It models add, update-quantity, remove and total, and the
  reset when the cashier switches warehouse.

`credit_sync.dfy` relates the customer's debt to the balances of the customer's accounts (see Findings).

All tables live in one `Schema.Database` object, one field per table. The service classes share it,
and each method's `modifies` clause names exactly the tables it writes. A row's id is its position in
its table. Money is integer cents, because the columns are `decimal(10,2)`. "Today" is passed in as a
day number and a calendar date.

## Model

| member | source | states |
|---|---|---|
| Schema.Database.constructor | backend/src/database/schema.ts:76-97 | an empty movement log over the opening stock satisfies the audit invariant (quantity = opening + net movements) |
| Schema.RaiseDebt | backend/src/modules/sales/sales.service.ts:130-137 | only the customer's debt changes, by +amount; the limit and all other customers are unchanged |
| Schema.LowerDebt | backend/src/modules/accounts-receivable/accounts-receivable.service.ts:137-143 | debt becomes max(debt − amount, 0), so it is never negative; nothing else changes |
| Warehouses.Adjust | backend/src/modules/warehouses/warehouses.service.ts:92-108 | a missing row counts as 0; accepted iff previous + delta ≥ 0; on acceptance newStock − previousStock = delta; a refusal reports the available quantity |
| Warehouses.Stored | backend/src/modules/warehouses/warehouses.service.ts:110-121 | update or insert leaves the pair at newStock and every other pair unchanged |
| Warehouses.ReplayAddsAcceptedDeltas | backend/src/modules/warehouses/warehouses.service.ts:103-121 | across any sequence of calls a pair's quantity is its initial value plus the deltas of the accepted calls |
| Warehouses.AdjustEachNonNegativeSucceeds | backend/src/modules/sales/sales.service.ts:236-247 | a run of adjustments that only add stock never fails |
| Warehouses.AdjustEachLength | backend/src/modules/sales/sales.service.ts:104-115 | a run writes at most one movement per line, and it applied every line iff it did not fail |
| Warehouses.AdjustEachLog | backend/src/modules/warehouses/warehouses.service.ts:124-134 | a run logs one movement per applied line, in order, with that line's product, delta, kind, reason, reference and a consistent snapshot |
| Warehouses.AdjustEachAudited | backend/src/modules/warehouses/warehouses.service.ts:103-134 | after a run, failed or not, stock = old stock + net of the movements it wrote |
| Warehouses.AdjustEachNet | backend/src/modules/sales/sales.service.ts:104-115 | a completed run moves each product of its warehouse by the sum of its lines and leaves other warehouses unchanged |
| Warehouses.AdjustFromSuffix | backend/src/modules/sales/sales.service.ts:105-115 | the run from item `i` on, as the loop walks it by index, is the run over the remaining items |
| Warehouses.WarehousesService.AdjustStock | backend/src/modules/warehouses/warehouses.service.ts:90-137 | result is `Adjust` of the old table; on success the row is written and exactly one movement appended; on refusal nothing is written; the audit invariant is kept |
| Warehouses.WarehousesService.AddStockEntry | backend/src/modules/warehouses/warehouses.service.ts:198-200 | always succeeds, with delta \|quantity\| and an ENTRADA movement |
| Warehouses.WarehousesService.RemoveStock | backend/src/modules/warehouses/warehouses.service.ts:202-204 | applies delta −\|quantity\| (never positive) as SALIDA, refused like any adjustment |
| SaleNumbers.NatToString | backend/src/modules/sales/sales.service.ts:26 | decimal digits only; one digit exactly below 10, two digits for 10..99 |
| SaleNumbers.PadStart | backend/src/modules/sales/sales.service.ts:26 | left-pads with '0' to max(length, width) |
| SaleNumbers.ParsePadded | backend/src/modules/sales/sales.service.ts:26 | a zero-padded decimal reads back as the number |
| SaleNumbers.SaleNumberRoundTrip | backend/src/modules/sales/sales.service.ts:24-34 | `SaleNumber` (prefix `V` + year + padded month and day, `-`, padded count + 1) is decodable: every sale number parses back to its year, month, day and 1-based daily sequence (count + 1) |
| SaleNumbers.SaleNumberInjective | backend/src/modules/sales/sales.service.ts:24-34 | two sale numbers are equal only for the same date and the same count |
| SaleNumbers.SaleNumberLength | backend/src/modules/sales/sales.service.ts:26-33 | with a four-digit year and fewer than 9999 earlier sales that day, the number has 14 characters |
| Sales.CheckCredit | backend/src/modules/sales/sales.service.ts:37-64 | a credit sale without a customer, with an unknown customer, or with total > limit − debt is refused; the last refusal is exactly `CreditExceeded(limit − debt, total)`; a total equal to the available credit is accepted; cash sales are not checked |
| Sales.ItemRows | backend/src/modules/sales/sales.service.ts:94-100 | one item row per requested item, with subtotal = unitPrice × quantity and the sale's id |
| Sales.ItemRowsAddUp | backend/src/modules/sales/sales.service.ts:67-72 | the item subtotals add up to the sale subtotal |
| Sales.SubtotalOrderFree | backend/src/modules/sales/sales.service.ts:67-70 | `Subtotal`, the `reduce` of unitPrice × quantity, depends only on the multiset of items, not on their order |
| Sales.SaleTotalMatchesItems | backend/src/modules/sales/sales.service.ts:67-100 | `Total`: the stored sale's subtotal is the sum of its stored item subtotals and its total is that sum less the discount (0 when absent), the same total the credit check compares |
| Sales.SalesSinceCounts | backend/src/modules/sales/sales.service.ts:28-31 | `SalesSince` is the number of sales (any status) created on or after today's first instant: the size of the set of such rows |
| Sales.SaleLines | backend/src/modules/sales/sales.service.ts:105-115 | one stock line of −quantity per item |
| Sales.RestoreLines | backend/src/modules/sales/sales.service.ts:237-247 | one stock line of +quantity per stored item |
| Sales.ItemsOf | backend/src/modules/sales/sales.service.ts:212-224 | exactly the item rows whose saleId is the sale's, each as many times as it is stored (two identical request lines give two rows, both restored) |
| Sales.WriteOff | backend/src/modules/sales/sales.service.ts:257-260 | every account of the sale becomes PAGADA with balance 0, paidAmount untouched; other accounts unchanged |
| Sales.CancelRestoresStock | backend/src/modules/sales/sales.service.ts:236-247 | if every item quantity is ≥ 0 and the sale's deductions all succeeded, its cancellation cannot fail on stock and returns every pair to its quantity before the sale |
| Sales.CancelMixedSignsRefused | backend/src/modules/sales/sales.service.ts:236-247 | with item quantities −5 and +5 of one product at stock 0 the sale goes through, and its cancellation is refused at its first line with 0 available |
| Sales.ItemsOfFreshSale | backend/src/modules/sales/sales.service.ts:94-102 | the items a cancellation reads for a newly created sale are exactly the rows its creation stored |
| Sales.DayNumbersInjective | backend/src/modules/sales/sales.service.ts:24-34 | for a date with month and day below 100, different daily counts give different sale numbers |
| Sales.NumberingExtends | backend/src/modules/sales/sales.service.ts:24-34 | appending the sale numbered from the current count of the day's sales keeps every sale of the day numbered by the count of the day's sales before it |
| Sales.NewSaleNumberFresh | backend/src/database/schema.ts:118 | under that numbering, the number the next sale gets is carried by no stored sale of the day, so the `unique()` sale number column accepts it |
| Sales.NumberedSalesDistinct | backend/src/database/schema.ts:118 | under that numbering, no two sales of the day share a number |
| Sales.SalesService.GenerateSaleNumber | backend/src/modules/sales/sales.service.ts:24-34 | the number is built from today's date and the count of sales created since today began, of any status |
| Sales.SalesService.AdjustLine | backend/src/modules/sales/sales.service.ts:105-115 | one iteration of the per-item loop: a refusal writes nothing and is where the whole run stops; otherwise exactly one movement is appended and the run resumes at the next item |
| Sales.SalesService.AdjustLines | backend/src/modules/sales/sales.service.ts:105-115 | the per-item loop leaves stock and log exactly as `AdjustEach` says, stopping at the first refusal, and keeps the audit invariant |
| Sales.SalesService.InsertSale | backend/src/modules/sales/sales.service.ts:74-102 | appends one COMPLETADA sale carrying subtotal, discount (0 if absent), total = subtotal − discount and today's number, then its item rows; keeps every item row pointing at a stored sale, and the new sale's items are then exactly its rows |
| Sales.SalesService.OpenCredit | backend/src/modules/sales/sales.service.ts:118-137 | appends one receivable with paid 0 and balance = total, and raises the customer's debt by total |
| Sales.SalesService.SettleSale | backend/src/modules/sales/sales.service.ts:104-140 | after the sale row: the VENTA run; a stock refusal returns OutOfStock with the earlier writes kept and no receivable; otherwise a credit sale with a customer opens its receivable due in 30 days and raises the debt by the total, and a cash sale touches neither |
| Sales.SalesService.RecordSale | backend/src/modules/sales/sales.service.ts:66-141 | the writes after the credit check, as `SaleRecorded` states them against the tables before the call |
| Sales.SalesService.Create | backend/src/modules/sales/sales.service.ts:36-141 | a refused check writes nothing; otherwise `SaleRecorded` holds: sale, items and the VENTA run happen in that order; a stock refusal returns its error with the earlier writes kept; a completed credit sale also opens a receivable due in 30 days and raises the debt; a cash sale touches neither |
| Sales.SalesService.Cancel | backend/src/modules/sales/sales.service.ts:229-272 | an unknown or CANCELADA sale is refused with nothing written; otherwise the AJUSTE restore run, then CANCELADA, then for a credit sale write-off and debt − total clamped at 0 |
| Receivables.MethodOrDefault | backend/src/modules/accounts-receivable/accounts-receivable.service.ts:114 | the method given, or EFECTIVO when missing or empty; never empty |
| Receivables.Pay | backend/src/modules/accounts-receivable/accounts-receivable.service.ts:102-134 | accepted iff 0 < amount ≤ balance (non-positive checked first, then the excess, reporting the balance); paid += amount, balance −= amount ≥ 0; PAGADA iff the new balance is 0, else PARCIAL; keeps balance = total − paid |
| Receivables.PaymentsSettle | backend/src/modules/accounts-receivable/accounts-receivable.service.ts:105-134 | positive payments that sum to at most the balance are all accepted, and the account is PAGADA iff they cover the balance |
| Receivables.DaysOverdue | backend/src/modules/accounts-receivable/accounts-receivable.service.ts:169 | 0 when not yet due, otherwise today − due day |
| Receivables.BucketOf | backend/src/modules/accounts-receivable/accounts-receivable.service.ts:184-188 | every overdue count satisfies exactly one of the five bucket conditions |
| Receivables.OpenAccounts | backend/src/modules/accounts-receivable/accounts-receivable.service.ts:174-180 | exactly the PENDIENTE, PARCIAL and VENCIDA accounts, each as many times as in the table |
| Receivables.BucketsPartition | backend/src/modules/accounts-receivable/accounts-receivable.service.ts:184-201 | bucket counts add up to the number of accounts and bucket totals to their total balance |
| Receivables.GetAgingReport | backend/src/modules/accounts-receivable/accounts-receivable.service.ts:156-204 | the report lists exactly the open accounts, in table order; each bucket's count and total are those of the open accounts whose days overdue fall in it; counts sum to their number; the five totals sum to totalPending = Σ balance |
| Receivables.AccountsReceivableService.RegisterPayment | backend/src/modules/accounts-receivable/accounts-receivable.service.ts:96-154 | unknown account or a refused amount writes nothing; otherwise one payment row, the account updated as `Pay` says, and debt lowered by the amount clamped at 0 |
| CashClosings.CountedSales | backend/src/modules/cash-closings/cash-closings.service.ts:41-47 | exactly the COMPLETADA sales of that user in that warehouse on that day, each as many times as in the table |
| CashClosings.AppendFreeKeyKeepsOnePerKey | backend/src/modules/cash-closings/cash-closings.service.ts:22-38 | `HasClosing`: appending a closing only when no closing has its (warehouse, user, day) keeps at most one closing per key, and the key is then taken |
| CashClosings.ClosingTotalsOrderFree | backend/src/modules/cash-closings/cash-closings.service.ts:49-56 | `CashTotal`, `CreditTotal` and `SalesTotal` are SQL sums: the same sales in any order give the same three totals |
| CashClosings.CollectionsOrderFree | backend/src/modules/cash-closings/cash-closings.service.ts:58-70 | `Collections` is an SQL sum: the same payments in any order give the same amount |
| CashClosings.ClosingIgnoresRowOrder | backend/src/modules/cash-closings/cash-closings.service.ts:40-84 | the closing row depends only on the multisets of sale and payment rows, not on table order |
| CashClosings.SalesTotalSplits | backend/src/modules/cash-closings/cash-closings.service.ts:51-53 | total sales = cash total + credit total |
| CashClosings.CollectionsIgnoreOthers | backend/src/modules/cash-closings/cash-closings.service.ts:59-70 | a payment by another user or on another day does not change the collections |
| CashClosings.CollectionsCountMatching | backend/src/modules/cash-closings/cash-closings.service.ts:59-70 | a payment received by the user on the day adds exactly its amount to the collections |
| CashClosings.Closing | backend/src/modules/cash-closings/cash-closings.service.ts:49-84 | the row carries the warehouse, user, day and notes; totalCash and totalCredit are the CONTADO and CREDITO totals of the counted sales and totalSales their sum; and the user's collections for the day |
| CashClosings.CashClosingsService.Create | backend/src/modules/cash-closings/cash-closings.service.ts:15-100 | a duplicate (warehouse, user, day) is refused with nothing written; otherwise exactly one closing is appended; afterwards the closing exists either way, and at most one closing per key is kept |
| Cart.StockFor | frontend/src/app/dashboard/ventas/page.tsx:135 | a product missing from the loaded stock has stock 0 |
| Cart.Find | frontend/src/app/dashboard/ventas/page.tsx:140 | the first line of the product, or none iff no line has it |
| Cart.AddToCart | frontend/src/app/dashboard/ventas/page.tsx:134-159 | no stock or a line already at stock: unchanged; existing line: only that product's quantity + 1; else one new line with quantity 1 and maxStock = stock appended |
| Cart.RemoveFromCart | frontend/src/app/dashboard/ventas/page.tsx:171-173 | keeps exactly the lines of other products, each as many times as in the cart |
| Cart.UpdateQty | frontend/src/app/dashboard/ventas/page.tsx:161-169 | qty ≤ 0 removes the product; otherwise that product's lines get min(qty, maxStock) and the others stay |
| Cart.ChangeWarehouse | frontend/src/app/dashboard/ventas/page.tsx:128-132 | the cart is emptied (total 0, valid for any stock) and the new warehouse and stock are taken |
| Cart.AddToCartKeepsValid | frontend/src/app/dashboard/ventas/page.tsx:134-159 | adding keeps one line per product with 1 ≤ quantity ≤ maxStock = loaded stock |
| Cart.RemoveFromCartKeepsValid | frontend/src/app/dashboard/ventas/page.tsx:171-173 | removing keeps the cart invariant |
| Cart.UpdateQtyKeepsValid | frontend/src/app/dashboard/ventas/page.tsx:161-169 | updating keeps the cart invariant |
| Cart.RemoveFromCartTotal | frontend/src/app/dashboard/ventas/page.tsx:171-175 | removing a product lowers the total by exactly its lines' quantity × unitPrice |
| Cart.AddToCartTotal | frontend/src/app/dashboard/ventas/page.tsx:134-175 | for any cart with one line per product (whatever stock it was built against), an accepted add raises the total by one unit price (new line or existing line); a refused add leaves the cart as it was |
| Cart.CartTotalAppend | frontend/src/app/dashboard/ventas/page.tsx:175 | `CartTotal`: a line appended adds its quantity × unitPrice |
| Cart.CartTotalOrderFree | frontend/src/app/dashboard/ventas/page.tsx:175 | `CartTotal`, the `reduce` of quantity × unitPrice, depends only on the multiset of lines, not on their order |
| CreditSync.CreditSaleKeepsSync | backend/src/modules/sales/sales.service.ts:118-137 | a credit sale with a non-negative total keeps every debt equal to the customer's outstanding balance |
| CreditSync.NegativeTotalDesyncs | backend/src/modules/sales/sales.service.ts:51-72 | a credit sale whose discount exceeds its subtotal (total −100) passes the credit check; after a later sale of 300 is paid in full, the clamped debt is 0 while the balances add up to −100 |
| CreditSync.PaymentKeepsSync | backend/src/modules/accounts-receivable/accounts-receivable.service.ts:122-143 | a payment keeps every debt equal to the outstanding balance; the clamp at 0 never applies |
| CreditSync.WriteOffBalance | backend/src/modules/sales/sales.service.ts:257-260 | the write-off removes exactly the sale's outstanding balance from each customer's total |
| CreditSync.ReverseCreditAsWritten | backend/src/modules/sales/sales.service.ts:256-269 | the reversal as written: write-off plus debt lowered by the sale total |
| CreditSync.AsWrittenCancelDesyncs | backend/src/modules/sales/sales.service.ts:262-268 | a partly paid credit sale whose customer has another open account leaves the debt 100 below the outstanding balance after cancellation |
| CreditSync.ReverseCredit | backend/src/modules/sales/sales.service.ts:256-269 | the corrected reversal: write-off plus debt lowered by the sale's outstanding balance |
| CreditSync.ReverseCreditKeepsSync | backend/src/modules/sales/sales.service.ts:256-269 | the corrected reversal keeps every debt equal to the customer's outstanding balance |

## Left out

- Database plumbing (queries, joins, pagination, `returning()`) is not modelled. Tables are sequences and a map. The listing and detail methods are out, except where `findOne` decides not-found.
- Referential integrity is not modelled. The inner joins of `findOne` can hide a row whose user, warehouse, sale or customer is missing; the model finds every row by its id alone.
- Uuid generation is not modelled: a new row's id is its position in its table.
- Row order of the queries is not modelled. The unordered items query of `cancel` returns table order; the aging report keeps table order rather than sorting by days overdue.
- Concurrency is not modelled, and neither is rollback, because the source has neither. Two requests could interleave between the sale-number count and the insert, or between the credit check and the debt update.
- Floating point is not modelled: `parseFloat`/`toFixed` and the NaN behaviour of malformed amounts. Amounts are integer cents.
- Overflow of the 32-bit `integer` quantity columns and the 10-digit `decimal` money columns is not modelled. Integers are unbounded.
- The clock is not modelled: `new Date()`, `setHours`, time zones and Postgres `EXTRACT(DAY …)`. A day number (`createdDay`, `dueDay`, today) replaces every timestamp, and a closing's day window is equality of day numbers.
- Timestamps (`createdAt`, `updatedAt`) are not stored. Neither are columns the core does not use (`tax`, names, SKUs of stored rows).
- Notifications (`notifyAdmins`) are not modelled: it has no effect on the ledger.
- Authentication, DTO validation decorators and controllers are not modelled. Item quantities are integers and prices are whole amounts in the model; the request checks only that a quantity is a number (backend/src/modules/sales/sales.controller.ts:12), so the fractional case is not covered (next line).
- CreditSync.CreditSaleKeepsSync: proved only for a total ≥ 0. The request bounds neither the discount nor the price or quantity (backend/src/modules/sales/sales.controller.ts:11-21), and the credit check (backend/src/modules/sales/sales.service.ts:59) never refuses a negative total. Such a sale opens an account with a negative balance and lowers the debt by the same amount; the debt then drifts from the balances at the next payment whose GREATEST(…, 0) clamp applies (`CreditSync.NegativeTotalDesyncs`).
- Sales.CancelRestoresStock: proved only when every item quantity is ≥ 0. The request validation checks only that a quantity is a number, and with mixed signs a sale can go through while its cancellation is refused (`Sales.CancelMixedSignsRefused`).
- Sales.SalesService.Create: a non-integer item quantity (such as 1.5) cannot be expressed, because the model's quantity is an `int`. In the source it passes validation, but the `integer` column `sale_items.quantity` (backend/src/database/schema.ts:137) refuses it at the item insert (backend/src/modules/sales/sales.service.ts:102). By then the COMPLETADA sale row already exists (lines 77-91), so the source leaves a sale with no items, no stock change and no receivable, and reports an error.
- Sales.SalesService.Create: a request with no items is modelled as a sale with no item rows. The item insert at sales.service.ts:102 then receives an empty list, and what the database library does with an empty insert (it may throw after the sale row exists) is not part of this model.
- Schema.Database: the stock map holds `nat`. The table's column allows negatives, but the only writer in the core (`adjustStock`) never stores one; seed data and other writers are not part of this model.
- Cart.AddToCart: the React state updates (`setCart`, toasts) are modelled as the returned cart. A rendering that reads stale state is not modelled.

## Findings

| source | as written | input that shows it | evidently intended | confidence | as-written member | corrected member |
|---|---|---|---|---|---|---|
| backend/src/modules/sales/sales.service.ts:262-268 | cancelling a credit sale lowers the customer's debt by the sale total, even when part of that sale's account was already paid (and already taken off the debt by `registerPayment`) | a customer owes 700: sale 0 of 300 with 100 paid (balance 200), and sale 1 of 500; cancel sale 0 → debt max(700 − 300, 0) = 400, while the open balances still sum to 500 | lower the debt by what was still outstanding on the sale's account, so the debt stays equal to the sum of open balances | medium — the 0 clamp hides the drift when the customer has a single account; not executed | CreditSync.AsWrittenCancelDesyncs | CreditSync.ReverseCreditKeepsSync |

`Sales.SalesService.Cancel` states the behaviour as written, so that it can be compared line by line with the service. `CreditSync.ReverseCredit` is the corrected reversal. `CreditSync.ReversalsAgreeWhenUnpaid` shows that the two coincide whenever nothing had been paid on the sale.
