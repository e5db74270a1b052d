# Verified model of the workshop back end

A Dafny model of the transactional core of a vehicle workshop: stock, purchase costing and
the item cache; the life cycle of a work order with its quote, parts and payments; refresh-token
rotation; cashbox sessions, expense signatures and QR payments; invoices; and the pure
algorithms around them (cursor pages, response masking, cycle-time averages).

Tables are fields of a class (`InventoryService`, `AuthService`, `CashDesk`, `PaymentDesk`,
`FinanceDesk`, `Workshop`, `BillingDesk`) and each service call is a method of it, with the
branches, guards and order of writes of the original. A database transaction is one step.
Beside each class stands a relation `Apply` on states, one case per operation; every method
is proved to do exactly what `Apply` says, and the theorems are about `Run`, all finite
sequences of operations in any order. Money is `real`, rounded where the services round.

    dafny verify dfyconfig.toml

| module | what it covers |
|---|---|
| `Money`, `Weighted` | rounding to céntimos; weighted sums and how rounding moves them |
| `LandedCost` | allocation of customs and commission, weighted average cost |
| `Stock`, `Dispatch`, `Receiving` | items, the movement ledger, the two batch transactions |
| `Inventory`, `StockLedger`, `Valuation` | the inventory operations, and what every run of them keeps |
| `OrderStatus`, `WorkOrders` | both transition tables, and every operation that writes an order, its quote or its parts |
| `OrderLaws` | what each operation on an order needs and leaves, in the columns of the order |
| `OrderRuns`, `OrderMoney`, `OrderExamples` | what runs of them keep: the life of an order; quotes, discounts, settlement and charges; runs that show the exceptions |
| `RefreshTokens` | login, rotation, replay detection, logout, revocation, with crashes |
| `Cashbox`, `Expenses`, `QrPayments` | three small finance protocols |
| `Invoices` | invoices and the payments recorded against them |
| `Pagination`, `Masking`, `CycleTime` | the algorithms |

## What the proofs found

The code is modelled as it is. Where an intended property fails, the exact condition under
which it holds is proved.

- A receipt batch that names a line twice books stock and movements for both entries but
  leaves on the line only the last of them, because every entry is computed from the
  snapshot read before the loop: the line gains what the ledger books exactly when no entry
  repeats a line (`Receiving.LedgerMatchesLines`), and a batch that breaks it is accepted
  (`Receiving.RepeatedLineIsBookedTwice`).
- A receipt that reaches an item more than once blends only its last arrival into the cost.
  A manual movement is booked at the sale price, a reservation without a price, a count
  replaces the stock without a value, and an edit is not booked at all.
  `Valuation.StepGapVanishes` says exactly when an operation makes no gap between stock and
  valued ledger, `Valuation.TwiceNamedItemLeavesGap` shows a receipt that makes one, and
  `Valuation.ValueFollowsLedger` adds the gaps up over any run.
- A purchase whose subtotal is not positive drops its customs and commission altogether
  (`LandedCost.SharesAreExact`).
- Editing an item with another stock value leaves the movement ledger wrong
  (`StockLedger.HandWrittenStock`), and a purchase may be declared RECEIVED while units are
  missing (`StockLedger.StepKeepsComplete`).
- Four operations write the status of an order beside the transition table: an edit with
  another status, a removal, and approval or conversion by the quotes service. A step keeps
  every order regular exactly when it is none of them (`OrderRuns.StepKeepsRegular`); the
  runs below are those without such a step.
- In those runs a quote of the order desk is only sent before the order can have parts, so
  the import surcharge is always nothing and the rule that refuses imported parts without
  customs never applies (`OrderRuns.QuotesCarryNoSurcharge`). After an edit that puts an order
  with parts back into BUDGETED (src/modules/orders/orders.service.ts:246) both matter, and
  the invoice draft counts the surcharge twice (`OrderRuns.DraftCountsSurchargeTwice`).
- A delivery charges the final amount of the order (`OrderMoney.DeliveriesChargeTheOrder`).
  That is the total of the approved quote as long as no discount, edit of costs or draft
  quote parted the two, and `OrderMoney.StepKeepsPriced` says exactly when one does:
  `OrderExamples.DiscountedOrderIsChargedLess` delivers an order quoted at 100.00 for 90.00.
- Discounts do not add up, and only the owner can go below four fifths of a total, or an
  edit that raises the total after the price was set (`OrderMoney.StepKeepsFair`).
- An order delivered on its payments stays settled unless hours are reported or labour is
  edited afterwards beyond what was paid (`OrderMoney.StepKeepsSettled`,
  `OrderExamples.LateHoursUnsettle`).
- Once a positive total is stored, every later quote has to stay within 2.5 céntimos of it:
  a rejected quote can only be sent again (`OrderMoney.TotalsAreNotRenegotiated`).
- Dying between the token row and its session key at issue, or between the key and the row
  at logout, are the only ways to separate a live token from its key
  (`RefreshTokens.StepKeepsPairs`). A replay locks the account out exactly when both its
  writes are done or had nothing to do (`RefreshTokens.ReplayOutcome`).
- The QR webhook pays at most once exactly when the processed mark lives as long as the QR
  (`QrPayments.AtMostOnceIffMarkOutlivesQr`); a crash after the mark and before the payment
  means the QR is never paid (`QrPayments.DyingBetweenMarkAndPayment` says exactly when a
  call leaves it so). That is a law of the QR and not of the order: the webhook does not mark
  the order paid, so two QRs of one order are both paid
  (`QrPayments.TwoQrsPayOneOrderTwice`). An order is paid at most as often as QRs were
  generated for it, that bound is reached, and so it is paid at most once exactly when it is
  offered one QR (`QrPayments.OrderPaidAsOftenAsOffered`).
- The cashbox history skips one session at every page boundary
  (`Pagination.HistoryWalkSkips`), and asks for a status that the close in use never writes
  (`Cashbox.HistoryIsAlwaysEmpty`).
- Response masking replaces every date by an empty object, every decimal column by an object
  of its sign, exponent and digits, and a client that is not an object by one: nothing else
  is lost exactly when none of these is in sight (`Masking.KeepsTheRestIffPlain`). Scalars
  survive in any case (`Masking.ScalarsSurvive`).
- A payment recorded against a cancelled invoice brings it back to life
  (`Invoices.PaymentRevivesCancelled`). Cancelling an invoice, and delivering a vehicle
  before its invoice is paid, are the only steps after which the order no longer repeats the
  status of its invoice (`Invoices.StepKeepsMirrored`).
- The draft that a quote leaves resets the total and the amount due of an invoice whatever has
  been paid. `Invoices.StepKeepsBalanced` says exactly when the invoice survives that, and
  `Invoices.DraftReopensPaid` shows a paid one that does not.

## Model

| member | source | states |
|---|---|---|
| Money.Round2 | src/domain/inventory/value-objects/landed-cost.vo.ts:21-23 | the result is a whole number of céntimos, less than half a céntimo below the value at most and at most half above it (ties go up) |
| Money.Round2Unique | src/domain/inventory/value-objects/landed-cost.vo.ts:21-23 | that contract leaves a single possible result for every value |
| Money.Round2Stays | src/domain/inventory/value-objects/landed-cost.vo.ts:21-23 | rounding never leaves an interval whose ends are céntimo amounts |
| Weighted.SumNear | src/domain/inventory/value-objects/landed-cost.vo.ts:61-76 | rounding each term of a weighted sum moves the sum by at most half a céntimo per unit of weight |
| LandedCost.SharesAreExact | src/domain/inventory/value-objects/landed-cost.vo.ts:61-69 | for any lines the unrounded shares times quantity add up to the declared amount if the subtotal is positive and to nothing otherwise |
| LandedCost.AllocationConservesCost | src/domain/inventory/value-objects/landed-cost.vo.ts:56-79 | for any lines with a positive subtotal, quantity times rounded customs per unit, the same for commission, and for landed cost against subtotal plus both, add up within half a céntimo per unit |
| LandedCost.NothingAllocated | src/domain/inventory/value-objects/landed-cost.vo.ts:61-77 | without a positive subtotal every line carries no customs, no commission and its own rounded price |
| LandedCost.AllocatedLine | src/domain/inventory/value-objects/landed-cost.vo.ts:56-79 | with a positive subtotal a line carries of each amount the part that its price is of the subtotal, and costs its price plus both parts, all within half a céntimo; item, quantity and price are those of the line |
| LandedCost.OneMoreLine | src/domain/inventory/value-objects/landed-cost.vo.ts:61-61 | the subtotal is quantity times price, line by line |
| LandedCost.BlendStaysInRange | src/domain/inventory/value-objects/landed-cost.vo.ts:83-102 | both blended costs stay in every céntimo interval that holds the existing and the incoming cost |
| LandedCost.BlendedValue | src/domain/inventory/value-objects/landed-cost.vo.ts:83-102 | stock worth after a blend is worth before plus worth of what came in, plus the gap of units that were not weighed in, within half a céntimo per unit |
| LandedCost.BlendedCustoms | src/domain/inventory/value-objects/landed-cost.vo.ts:83-102 | the same of the customs of an item |
| LandedCost.BlendIntoNothing | src/domain/inventory/value-objects/landed-cost.vo.ts:91-94 | into a stock that is nothing or less the incoming costs go as they are |
| LandedCost.UnweighedGapVanishes | src/domain/inventory/value-objects/landed-cost.vo.ts:83-102 | that gap is nothing if and only if the stock was empty, every unit was weighed in, or both costs are equal |
| Stock.ReplayConcat | src/modules/inventory/inventory.service.ts:250-255 | replaying two stretches of the ledger in turn is replaying the whole |
| Dispatch.Run | src/modules/orders/use-cases/dispatch-parts-to-order.use-case.ts:52-111 | a batch, possibly repeating items, goes through if and only if every item exists and holds the total asked of it; then stock drops by the totals and parts, movements and alerts are appended line by line in order; otherwise the error is that of the first line that cannot be served |
| Dispatch.UnitForUnit | src/modules/orders/use-cases/dispatch-parts-to-order.use-case.ts:66-85 | for every item the OUT units of the batch, the units of its parts and the units asked for are the same number |
| Dispatch.ValueOut | src/modules/orders/use-cases/dispatch-parts-to-order.use-case.ts:70-80 | the batch takes out of the valued ledger its total units at the cost of the item |
| Dispatch.PartsArePriced | src/modules/orders/use-cases/dispatch-parts-to-order.use-case.ts:66-80 | every line of the batch becomes a part at the sale price and an OUT movement at the cost of its item, both of the order and in its sequence |
| Dispatch.OnlyStockLeaves | src/modules/orders/use-cases/dispatch-parts-to-order.use-case.ts:82-85 | no other column of an item changes |
| Dispatch.AlertsTell | src/modules/orders/use-cases/dispatch-parts-to-order.use-case.ts:97-105 | an item raises an alert if and only if the batch takes from it and leaves it below its minimum |
| Dispatch.WhoGetsParts | src/modules/orders/use-cases/dispatch-parts-to-order.use-case.ts:24-50 | parts are for an order in progress, and for a mechanic or trainee only if it is assigned to them |
| Dispatch.WhatIsCovered | src/modules/orders/use-cases/dispatch-parts-to-order.use-case.ts:52-63 | a batch is covered if and only if each line names an item that exists and holds what the whole batch asks of it |
| Dispatch.WhyBatchesAreRefused | src/modules/orders/use-cases/dispatch-parts-to-order.use-case.ts:52-63 | the error of a refused batch is that of its first line that cannot be served |
| Receiving.FindLine | src/modules/purchases/purchases.service.ts:238-247 | the first line with the id, or none if no line has it |
| Receiving.Run | src/modules/purchases/purchases.service.ts:238-290 | the loop succeeds if and only if every entry names a line of the snapshot and fits in what it lacks; then tables and touched items are those of the batch as a whole; otherwise the error is that of the first entry that fails |
| Receiving.StaysWithinOrder | src/modules/purchases/purchases.service.ts:245-255 | no line ever holds more than was ordered, whatever a batch repeats |
| Receiving.DeliveryMakesProgress | src/modules/purchases/purchases.service.ts:238-290 | every booked non-empty delivery strictly lowers the units still to come |
| Receiving.LedgerMatchesLines | src/modules/purchases/purchases.service.ts:240-286 | the lines gain exactly the units that the ledger books if and only if no two entries of the batch name the same line |
| Receiving.RepeatedLineIsBookedTwice | src/modules/purchases/purchases.service.ts:238-286 | a purchase and a batch that are accepted, for which the ledger books six units and the line gains three |
| Receiving.CostOfItem | src/modules/purchases/purchases.service.ts:226-257 | every arrival is booked at the landed cost and customs of the first line of the purchase with its item |
| Receiving.OneCostPerItem | src/modules/purchases/purchases.service.ts:226-257 | all arrivals of a purchase for one item carry one landed cost |
| Receiving.ValueIn | src/modules/purchases/purchases.service.ts:277-286 | a delivery adds to the valued ledger its units of the item at that cost |
| Receiving.ArrivalCosts | src/modules/purchases/purchases.service.ts:226-265 | from the columns of the purchase: every arrival is of the line its entry names and carries, within half a céntimo, the price of the first line with its item plus its part of customs and commission |
| Receiving.CostsOutlastDeliveries | src/modules/purchases/purchases.service.ts:226-234 | a delivery does not change what the next one costs |
| Receiving.DeliveredInFull | src/modules/purchases/purchases.service.ts:226-286 | once every unit of a purchase with distinct items has arrived, in however many deliveries, the ledger has taken in what was ordered, the customs and the commission, within half a céntimo per unit |
| Receiving.DeliveredItem | src/modules/purchases/purchases.service.ts:267-275 | a delivered item gains its units and its costs and is imported if it or the purchase was; everything else stays |
| Receiving.DeliveriesComeIn | src/modules/purchases/purchases.service.ts:277-286 | one IN movement for each arrival, at its landed cost and of no order |
| Receiving.WhatFits | src/modules/purchases/purchases.service.ts:238-255 | an entry fits if and only if the first line with its id lacks as many units |
| Receiving.WhyDeliveriesAreRefused | src/modules/purchases/purchases.service.ts:238-255 | the error of a refused delivery is that of its first entry that does not fit |
| Receiving.PurchaseSteps | src/modules/purchases/purchases.service.ts:17-24 | no status is skipped, nothing leads back, and RECEIVED and CANCELLED are final |
| Receiving.PurchasesGoOn | src/modules/purchases/purchases.service.ts:17-24 | every other status can be cancelled and can go on |
| Inventory.InventoryService.FindOne | src/modules/inventory/inventory.service.ts:133-145 | returns the cached item if there is one, else the row, which it then caches |
| Inventory.InventoryService.AddMovement | src/modules/inventory/inventory.service.ts:235-274 | exact new state and exact acceptance: stock computed from the copy read, movement appended, cache entry dropped |
| Inventory.InventoryService.ReserveForOrder | src/modules/inventory/inventory.service.ts:364-439 | exact new state, the first failing guard, and the stock that is left |
| Inventory.InventoryService.UpdateItem | src/modules/inventory/inventory.service.ts:205-233 | refuses a SKU that another item has; else writes the given columns, stock included, and drops the cache entry |
| Inventory.InventoryService.DispatchPartsToOrder | src/modules/orders/use-cases/dispatch-parts-to-order.use-case.ts:18-135 | goes through if and only if the order admits it and the batch is covered; then the tables of the transaction, and no cache entry of an item it names |
| Inventory.InventoryService.ForgetRequested | src/modules/orders/use-cases/dispatch-parts-to-order.use-case.ts:114-116 | the loop over the batch drops the cache entries of the items it names and no other |
| Inventory.InventoryService.ForgetItems | src/modules/purchases/purchases.service.ts:292-295 | the loop over the touched items drops those cache entries and no other |
| Inventory.InventoryService.ReceiveItems | src/modules/purchases/purchases.service.ts:206-319 | books the batch if and only if the status admits it and every entry fits; new tables, derived status, and no cache entry of a touched item |
| Inventory.InventoryService.DeriveStatus | src/modules/purchases/purchases.service.ts:297-315 | RECEIVED when every line is complete, PARTIALLY_RECEIVED when some line has units, else unchanged |
| Inventory.InventoryService.UpdatePurchaseStatus | src/modules/purchases/purchases.service.ts:171-204 | moves a purchase along its transition table only |
| StockLedger.RunKeepsSound | src/modules/inventory/inventory.service.ts:133-286 | over every run, expiries included: each cached item equals its row, no stock is negative, no line is over-received |
| StockLedger.RunKeepsSkus | src/modules/inventory/inventory.service.ts:208-215 | no run ever gives two items the same SKU |
| StockLedger.StockIsReplay | src/modules/inventory/inventory.service.ts:235-274 | over every run that does not write the stock of the item by hand, its stock is the replay of the appended movements on the opening stock, although manual movements compute from the cache |
| StockLedger.HandWrittenStock | src/modules/inventory/inventory.service.ts:205-233 | a write by hand keeps the ledger right if and only if it is refused or writes the value already there |
| StockLedger.MovementNeedsFreshCopy | src/modules/inventory/inventory.service.ts:244-274 | from any state an accepted manual movement keeps the ledger right if and only if it is a count or the copy it read had the right stock |
| StockLedger.WhatMovesByHand | src/modules/inventory/inventory.service.ts:235-274 | a manual movement is booked if and only if the item exists and it is an IN, an OUT for an order that the stock covers, or an explained ADJUSTMENT; at the sale price, and with the cache entry dropped |
| StockLedger.WhatIsRead | src/modules/inventory/inventory.service.ts:133-145 | a read fills the entry of an item that exists and touches nothing else |
| StockLedger.WhatIsDispatched | src/modules/orders/use-cases/dispatch-parts-to-order.use-case.ts:18-116 | a batch goes through if and only if the order admits it and the items hold it; then the tables of the transaction, and no named item cached |
| StockLedger.WhatIsReserved | src/modules/inventory/inventory.service.ts:364-439 | a reservation is booked if and only if it is for an order in progress and an item whose stock covers it |
| StockLedger.WhatIsEdited | src/modules/inventory/inventory.service.ts:205-233 | an edit goes through if and only if the item exists and no other has the SKU; each column is the one given or the one there was, and costs stay |
| StockLedger.WhyStockIsRefused | src/modules/inventory/inventory.service.ts:235-439 | which error a refused movement, reservation or edit gives |
| StockLedger.StatusAfterDelivery | src/modules/purchases/purchases.service.ts:297-315 | the derived status is RECEIVED if and only if nothing is left to come |
| StockLedger.PartlyReceived | src/modules/purchases/purchases.service.ts:297-315 | with some units to come the purchase is PARTIALLY_RECEIVED if any came, and what it was if none did |
| StockLedger.WhichPurchasesReceive | src/modules/purchases/purchases.service.ts:217-223 | a delivery is booked if and only if the purchase is not in DRAFT, RECEIVED or CANCELLED and every entry fits |
| StockLedger.WhatIsDeclared | src/modules/purchases/purchases.service.ts:171-204 | a declared status moves the purchase along its table and touches nothing else |
| StockLedger.StepKeepsComplete | src/modules/purchases/purchases.service.ts:171-319 | a step keeps RECEIVED meaning that nothing is missing if and only if it is not an allowed declaration of RECEIVED on a purchase that lacks units |
| StockLedger.ReceivedStaysComplete | src/modules/purchases/purchases.service.ts:171-319 | over every run without such a declaration, a purchase in RECEIVED lacks no unit |
| Valuation.ValueFollowsLedger | src/modules/purchases/purchases.service.ts:226-286 | over every run of any operations, stock times cost is the opening value plus the valued ledger plus the gaps of the steps, within half a céntimo per unit in stock after each receipt |
| Valuation.RoundingIsTheOnlyError | src/modules/purchases/purchases.service.ts:226-286 | the same without gaps over every run whose steps each make none |
| Valuation.StepGapVanishes | src/modules/inventory/inventory.service.ts:244-274 | a step makes no gap if and only if: a receipt does not reach the item, finds it out of stock, comes in one piece or at its own cost; a movement is refused or priced at cost; a count, edit or reservation is refused, changes no stock, or the item costs nothing |
| Valuation.PlainReceiptIsGapless | src/modules/purchases/purchases.service.ts:257-275 | a receipt that names the item at most once makes no gap |
| Valuation.TwiceNamedItemLeavesGap | src/modules/purchases/purchases.service.ts:257-275 | a sound state and an accepted receipt that names an item twice, with a gap of 90/13 |
| Valuation.CostStaysInRange | src/modules/purchases/purchases.service.ts:257-275 | over every run of any operations, cost and customs of an item stay between the least and the greatest of the opening value and the values blended in |
| Valuation.ArrivalsAreCents | src/domain/inventory/value-objects/landed-cost.vo.ts:70-77 | every cost that a receipt blends in is a whole number of céntimos |
| OrderStatus.TablesAgree | src/domain/work-orders/value-objects/order-status.vo.ts:1-33 | the table of the domain, keyed by text, and the table of the service define the same relation on statuses |
| OrderStatus.CompletionFollowsTable | src/domain/work-orders/entities/work-order.entity.ts:151-180 | the completion target is always a step of the table, and READY only when asked for by somebody who is not a trainee |
| OrderStatus.WhyCompletionIsRefused | src/domain/work-orders/entities/work-order.entity.ts:151-180 | trainees go to review, others where they ask; which error a refusal gives |
| OrderStatus.PathShape | src/modules/orders/orders.service.ts:11-20 | on any path nothing follows DELIVERED or CANCELLED, and work once begun is left by cancellation only |
| WorkOrders.Workshop.CreateOrder | src/modules/orders/orders.service.ts:89-118 | a new order is RECEIVED, without history, quote, invoice or cost |
| WorkOrders.Workshop.PartsTotal | src/modules/orders/orders.service.ts:344-345 | unit price times quantity summed over the parts of the order |
| WorkOrders.Workshop.PaymentsTotal | src/modules/orders/orders.service.ts:347-347 | the payments of the order summed over the table |
| WorkOrders.Workshop.ValidateVehicleDelivery | src/modules/orders/orders.service.ts:334-370 | passes if and only if labour and parts cost something and the payments of the order cover them |
| WorkOrders.Workshop.ChangeStatus | src/modules/orders/orders.service.ts:268-332 | exact new state and the first failing guard: scope, table, parts before work, cost and payments before delivery |
| WorkOrders.Workshop.ImportCosts | src/modules/orders/use-cases/send-order-quote.use-case.ts:67-82 | customs of the imported parts with the import commission, summed over the parts of the order |
| WorkOrders.Workshop.SendOrderQuote | src/modules/orders/use-cases/send-order-quote.use-case.ts:23-158 | exact new state, invoice draft included, total and first failing guard of (re)issuing a quote |
| WorkOrders.Workshop.AssertQuotable | src/domain/work-orders/entities/work-order.entity.ts:98-118 | passes if and only if the costs are amounts of money, not both nothing, and agree with a stored total up to a céntimo |
| WorkOrders.Workshop.IssueQuote | src/modules/orders/use-cases/send-order-quote.use-case.ts:85-122 | the costs, total and final amount of the order, and its quote in SENT, written together |
| WorkOrders.Workshop.CreateInvoiceDraft | src/modules/finance/finance.service.ts:594-607 | the amounts that the invoice of the order has after it: subtotal of the three costs, tax, total and amount due |
| WorkOrders.Workshop.RecordOrderPayment | src/modules/payments/payments.service.ts:134-157 | appends a payment of an existing order |
| WorkOrders.Workshop.ApproveQuote | src/modules/orders/use-cases/approve-quote.use-case.ts:25-122 | approves quote, order and history together if and only if no guard fails |
| WorkOrders.Workshop.RejectQuote | src/modules/orders/use-cases/approve-quote.use-case.ts:124-160 | marks a sent quote rejected and leaves the order where it is |
| WorkOrders.Workshop.DispatchParts | src/modules/orders/use-cases/dispatch-parts-to-order.use-case.ts:18-111 | appends parts to an order in progress, all of the batch or nothing |
| WorkOrders.Workshop.CompleteWork | src/modules/orders/use-cases/complete-work-order.use-case.ts:20-100 | moves an order in progress to the resolved target, with history and odometer |
| WorkOrders.Workshop.DeliverVehicle | src/modules/orders/use-cases/deliver-vehicle.use-case.ts:15-95 | moves a READY order to DELIVERED, marks it paid and books its final amount as a payment of the first session opened today, or refuses at the first failing guard |
| WorkOrders.Workshop.ApplyDiscount | src/modules/orders/orders.service.ts:502-557 | exact new state and the first failing guard; a request instead of a discount when the share is too high for the role |
| WorkOrders.Workshop.ReportProgress | src/modules/orders/orders.service.ts:614-655 | adds the hours at 50.00 to the labour cost of an order in scope, in any status |
| WorkOrders.Workshop.UpdateOrder | src/modules/orders/orders.service.ts:236-266 | writes status and costs without the table, and the total as labour plus parts, unless the order is cancelled and a status is given |
| WorkOrders.Workshop.RemoveOrder | src/modules/orders/orders.service.ts:372-385 | cancels any order that is not cancelled, without history |
| WorkOrders.Workshop.AssignMechanic | src/modules/orders/orders.service.ts:387-416 | hands an order that is not finished to an eligible mechanic |
| WorkOrders.Workshop.CreateQuote | src/modules/quotes/quotes.service.ts:77-132 | a draft of the items total plus tax for a known client and an order without quote |
| WorkOrders.Workshop.PassQuoteDirectly | src/modules/quotes/quotes.service.ts:134-175 | approves a quote in DRAFT or SENT and puts its order into BUDGETED from any status |
| WorkOrders.Workshop.DropQuoteDirectly | src/modules/quotes/quotes.service.ts:177-198 | rejects a quote that is neither approved nor converted |
| WorkOrders.Workshop.ConvertToOrder | src/modules/quotes/quotes.service.ts:200-246 | converts an approved quote, puts its order into IN_PROGRESS and sets total and final amount |
| OrderLaws.MechanicsKeepToTheirOrders | src/modules/orders/orders.service.ts:77-87 | a mechanic or trainee never changes an order that is not assigned to them, by any operation |
| OrderLaws.ClientsKeepToTheirOrders | src/modules/orders/use-cases/approve-quote.use-case.ts:40-43 | a client never decides on the quote of another client |
| OrderLaws.OwnersMayDecide | src/modules/orders/use-cases/approve-quote.use-case.ts:25-160 | whose order it is may approve or reject its sent quote |
| OrderLaws.WhatIsApproved | src/modules/orders/use-cases/approve-quote.use-case.ts:44-62 | only a sent quote of an order in BUDGETED none of whose parts is short is approved |
| OrderLaws.WhenStatusChanges | src/modules/orders/orders.service.ts:268-370 | a status changes if and only if it is along the table, in scope, with parts before work and labour and parts paid before delivery; status and history are written and nothing else |
| OrderLaws.PartsAndPaymentsAddUp | src/modules/orders/orders.service.ts:344-347 | parts and payments count for the order they name, each with its amount |
| OrderLaws.WhatIsCompleted | src/modules/orders/use-cases/complete-work-order.use-case.ts:20-100 | completion is for an order in progress, in scope, with no fewer kilometres than before |
| OrderLaws.WhatIsDispatched | src/modules/orders/use-cases/dispatch-parts-to-order.use-case.ts:18-111 | parts reach an order if and only if it is in progress, in scope and the items hold them |
| OrderLaws.RunKeepsOdometer | src/domain/work-orders/entities/work-order.entity.ts:182-188 | in every run no vehicle leaves with fewer kilometres than it came with |
| OrderLaws.HoursCost | src/modules/orders/orders.service.ts:641-651 | each hour reported adds 50.00 of labour and moves no other figure |
| OrderLaws.WhatIsQuoted | src/modules/orders/use-cases/send-order-quote.use-case.ts:81-158 | labour, parts and surcharge, less the discount, with 18 per cent of tax; the same on the order; and the invoice draft |
| OrderLaws.PlainQuotesAreSent | src/modules/orders/use-cases/send-order-quote.use-case.ts:37-65 | an order in BUDGETED without parts, total or discount is quoted if and only if the amounts are not negative and not both nothing |
| OrderLaws.SameQuotesAreSentAgain | src/domain/work-orders/entities/work-order.entity.ts:111-118 | a quote of the figures already stored is not refused |
| OrderLaws.SurchargesAddUp | src/modules/orders/use-cases/send-order-quote.use-case.ts:67-72 | each imported part adds its customs with 18 per cent of commission |
| OrderLaws.ImportedPartsNeedCustoms | src/modules/orders/use-cases/send-order-quote.use-case.ts:75-79 | imported parts without any surcharge are not quoted |
| OrderLaws.DiscountsTakeTheirPercentage | src/modules/orders/orders.service.ts:513-553 | p per cent of a positive total leaves 100 - p per cent of it, up to 20 by anybody in scope and above by the owner |
| OrderLaws.DiscountsTakeTheirAmount | src/modules/orders/orders.service.ts:513-553 | an amount is taken off the total, down to nothing |
| OrderLaws.WhatIsEdited | src/modules/orders/orders.service.ts:236-266 | an edit writes what it is given, its costs make up the total, and the price stays |
| OrderLaws.WhatIsDrafted | src/modules/quotes/quotes.service.ts:77-132 | the items total with 18 per cent of tax, for an order without quote |
| OrderLaws.WhatTheQuotesServiceDoes | src/modules/quotes/quotes.service.ts:134-246 | which quotes it approves, drops and converts, and what that writes on the order |
| OrderLaws.WhatIsDelivered | src/modules/orders/use-cases/deliver-vehicle.use-case.ts:29-77 | a vehicle is delivered if and only if its order is READY and a session was opened today; then DELIVERED, marked paid, and its final amount in that session |
| OrderLaws.WhyStatusIsRefused | src/modules/orders/orders.service.ts:268-292 | which error a refused status change gives |
| OrderLaws.WhyDecisionsAreRefused | src/modules/orders/use-cases/approve-quote.use-case.ts:38-60 | which error a refused approval or rejection gives |
| OrderRuns.StepKeepsRegular | src/modules/orders/orders.service.ts:236-385 | a step keeps every order regular if and only if it writes no status beside the table |
| OrderRuns.RunKeepsRegular | src/modules/orders/orders.service.ts:268-370 | for every order of every run without such a step: RECEIVED and its history form a path of the table ending at its status; IN_PROGRESS was entered if and only if the quote is approved; parts only after that; at most one cash entry, and only when delivered |
| OrderRuns.OnlyApprovalBeginsWork | src/modules/orders/use-cases/approve-quote.use-case.ts:44-79 | after every such run, the first step of an order into IN_PROGRESS, whatever the step, is the approval of its quote |
| OrderRuns.QuotesCarryNoSurcharge | src/modules/orders/use-cases/send-order-quote.use-case.ts:37-126 | in every such run an order in BUDGETED has no parts, so the quote total is labour plus parts minus discount, and the invoice draft has its subtotal |
| OrderRuns.DraftCountsSurchargeTwice | src/modules/orders/use-cases/send-order-quote.use-case.ts:81-158 | for every surcharge the subtotal of the invoice draft is that of the quote plus the surcharge again |
| OrderRuns.FinishedOrdersRest | src/modules/orders/orders.service.ts:11-20 | after DELIVERED or CANCELLED no such run changes status, history, parts, cash, final amount or approved quote of the order |
| OrderMoney.DeliveriesChargeTheOrder | src/modules/orders/use-cases/deliver-vehicle.use-case.ts:50-77 | in every state of every such run, each cash entry of a delivery is the final amount of a delivered order with an approved quote, and a payment in the cashbox |
| OrderMoney.DeliveriesChargeTheQuote | src/modules/orders/use-cases/deliver-vehicle.use-case.ts:50-77 | if moreover no step parted the price from the quote, it is the total of the approved quote |
| OrderMoney.StepKeepsPriced | src/modules/orders/orders.service.ts:513-553 | a step keeps final amount and total of every quoted order equal to its quote if and only if it is no effective discount, no edit of costs to another sum and no draft quote at another total |
| OrderMoney.RunKeepsPriced | src/modules/orders/orders.service.ts:236-557 | and so does every run without those steps |
| OrderExamples.DiscountedOrderIsChargedLess | src/modules/orders/orders.service.ts:513-553 | a run from the empty workshop that quotes 100.00 and charges 90.00 |
| OrderMoney.PendingIsAFifth | src/modules/orders/orders.service.ts:513-520 | a request is needed if and only if somebody but the owner takes more than a fifth of a positive total |
| OrderMoney.StepKeepsFair | src/modules/orders/orders.service.ts:513-553 | a step takes an order under four fifths of its total if and only if it is a deeper discount by the owner or an edit that raises the total so far |
| OrderMoney.DiscountsStayWithinAFifth | src/modules/orders/orders.service.ts:513-553 | over every run without those two, however many discounts |
| OrderMoney.StepKeepsSettled | src/modules/orders/orders.service.ts:334-370 | along the table, a step leaves every delivered order settled or charged if and only if it neither reports hours nor edits labour beyond what was paid |
| OrderMoney.RunKeepsSettled | src/modules/orders/orders.service.ts:334-370 | over every run without those two, whoever was delivered paid at the cashbox or for labour and parts |
| OrderExamples.LateHoursUnsettle | src/modules/orders/orders.service.ts:614-655 | a run from the empty workshop that delivers a paid order and reports an hour on it |
| OrderMoney.NewQuoteIsTheOld | src/domain/work-orders/entities/work-order.entity.ts:111-118 | a quote accepted over a positive stored total is within 2.5 céntimos of it |
| OrderMoney.TotalsAreNotRenegotiated | src/modules/orders/use-cases/send-order-quote.use-case.ts:59-65 | over every run without edits of its costs a positive total moves by at most 2.5 céntimos for each quote sent |
| OrderMoney.RunKeepsDesk | src/modules/orders/use-cases/deliver-vehicle.use-case.ts:40-77 | deliveries and everything else beside them keep the invariant of the cashbox over every run |
| RefreshTokens.AuthService.GenerateTokens | src/modules/auth/auth.service.ts:529-589 | token row first, session key second, cut short after any number of writes |
| RefreshTokens.AuthService.LoginVerified | src/modules/auth/auth.service.ts:50-179 | a verified login begins a new family |
| RefreshTokens.AuthService.InvalidateAllSessions | src/modules/auth/auth.service.ts:430-435 | the scan drops the session keys of the account and no other |
| RefreshTokens.AuthService.RevokeAllUserSessions | src/modules/auth/auth.service.ts:440-447 | revokes every token of the account, then drops its keys |
| RefreshTokens.AuthService.RefreshToken | src/modules/auth/auth.service.ts:332-387 | accepted if and only if known, unrevoked and not past expiry; revokes before it issues; a revoked token ends all sessions of its account |
| RefreshTokens.AuthService.LogoutToken | src/modules/auth/auth.service.ts:389-404 | drops the key, then revokes the row |
| RefreshTokens.AuthService.RevokeOneSession | src/modules/auth/auth.service.ts:493-507 | revokes an own, unrevoked token, then drops its key |
| RefreshTokens.LoginOutcome | src/modules/auth/auth.service.ts:529-589 | a login cut anywhere: a row for 604800 seconds with the first write, its key with the second, nothing else |
| RefreshTokens.RotationOutcome | src/modules/auth/auth.service.ts:332-387 | a rotation cut anywhere: the spent row, the new row, its key, in that order; unknown, expired and unsigned tokens change nothing |
| RefreshTokens.RevokeSessionOutcome | src/modules/auth/auth.service.ts:493-507 | ending one's own session cut anywhere: the row is revoked if and only if the first write is done, the key gone if and only if the second is or it was not there, nothing else changes; others' and spent tokens change nothing |
| RefreshTokens.LogoutOutcome | src/modules/auth/auth.service.ts:389-404 | logging out cut anywhere: the key with the first write, the row with the second, nothing else |
| RefreshTokens.RevokeAllOutcome | src/modules/auth/auth.service.ts:440-447 | ending all sessions cut anywhere: all rows of the account with the first write, all its keys with the second, nobody else's |
| RefreshTokens.RevokedIsNeverAccepted | src/modules/auth/auth.service.ts:354-369 | in no later run is a revoked token accepted |
| RefreshTokens.NoTokenOutlivesItsWeek | src/modules/auth/auth.service.ts:371-373 | whoever got a token by login or rotation has it refused at every second after the 604800 that follow, in every run |
| RefreshTokens.RunKeepsSafe | src/modules/auth/auth.service.ts:332-447 | with fresh token values, every run with crashes anywhere: an unrevoked token is the youngest of its family, families have one owner, keys match their rows, and no token rotates twice |
| RefreshTokens.OneUsableTokenPerLogin | src/modules/auth/auth.service.ts:332-387 | two unrevoked tokens of one family are the same token |
| RefreshTokens.StepKeepsPairs | src/modules/auth/auth.service.ts:389-404 | a step keeps every live token paired with its session key if and only if it does not die between the two writes of issue or logout |
| RefreshTokens.LiveTokensHaveSessions | src/modules/auth/auth.service.ts:569-580 | over every run without those crashes each live token has its session key |
| RefreshTokens.ReplayOutcome | src/modules/auth/auth.service.ts:350-362 | a replay cut short anywhere leaves the account without live token if and only if its first write is done or had nothing to do, and locked out if and only if the same holds of both writes |
| RefreshTokens.ReplayLocksOut | src/modules/auth/auth.service.ts:350-362 | once that is so, the account has no live token and no session key until somebody logs in, whatever else happens |
| RefreshTokens.ReplayEndsTokens | src/modules/auth/auth.service.ts:350-362 | an account without live token has none in any later run until somebody logs in, crashes included |
| Cashbox.CashDesk.FindOpen | src/modules/finance/finance.service.ts:47-52 | the first open session, or none if there is none |
| Cashbox.CashDesk.OpenCashbox | src/modules/finance/finance.service.ts:47-64 | opens if and only if no session is open |
| Cashbox.CashDesk.AddCashTransaction | src/modules/finance/finance.service.ts:145-163 | books on an open session only |
| Cashbox.CashDesk.RecordDelivery | src/modules/orders/use-cases/deliver-vehicle.use-case.ts:40-77 | books a PAYMENT on the first session opened today if and only if there is one |
| Cashbox.CashDesk.Total | src/modules/finance/use-cases/close-cashbox-session.use-case.ts:36-48 | the sum of one kind of transaction of a session |
| Cashbox.CashDesk.CloseSession | src/modules/finance/use-cases/close-cashbox-session.use-case.ts:22-130 | closes if and only if a session is open and a middle difference is explained; expected balance, difference, status and closing time of the row |
| Cashbox.CashDesk.OverrideCashbox | src/modules/finance/finance.controller.ts:190-215 | lifts a block, given a valid code |
| Cashbox.RunKeepsSound | src/modules/finance/use-cases/close-cashbox-session.use-case.ts:26-114 | in every state of every run: at most one open session; a session not open carries opening plus PAYMENT minus EXPENSE, the difference to the cash counted, the status of its band or a lifted block, and no closing time exactly when BLOCKED |
| Cashbox.ClosedOnTheDrawer | src/modules/finance/use-cases/close-cashbox-session.use-case.ts:36-48 | in every run a session that is not open closed on its opening balance and its drawer, to which each PAYMENT adds and from which each EXPENSE takes |
| Cashbox.OneMoreBooking | src/modules/finance/use-cases/close-cashbox-session.use-case.ts:36-48 | one more PAYMENT raises the balance of the close by its amount, one more EXPENSE lowers it, and a REFUND, an ADJUSTMENT or a booking elsewhere leaves it |
| Cashbox.UnusedSessionClosesAsItOpened | src/modules/finance/use-cases/close-cashbox-session.use-case.ts:36-48 | a session without bookings closes on its opening balance |
| Cashbox.BandsOfTheClose | src/modules/finance/use-cases/close-cashbox-session.use-case.ts:48-114 | which status, difference and closing time each difference to the drawer leads to, and when it needs an explanation |
| Cashbox.BookingsAreWhatWasAsked | src/modules/finance/finance.service.ts:145-163 | exactly the transaction asked for, on an open session only; a delivery as a PAYMENT of a session of the same day |
| Cashbox.OnlyAnOwnerLiftsABlock | src/modules/finance/finance.controller.ts:190-215 | a block is lifted by a valid code and by nothing else |
| Cashbox.ClosedSessionsAreFrozen | src/modules/finance/finance.service.ts:145-163 | once a session left OPEN no run books on it or changes its figures; only a block may be lifted |
| Cashbox.HistoryIsAlwaysEmpty | src/modules/finance/finance.service.ts:375-380 | no state of any run has a session in the status that the history asks for |
| QrPayments.PaymentDesk.GeneratePaymentQR | src/modules/finance/finance.service.ts:519-549 | refuses an unknown order and one marked paid; else stores a QR of its final amount for 420 seconds |
| QrPayments.PaymentDesk.ConfirmPaymentWebhook | src/modules/finance/finance.service.ts:551-578 | exact state after any number of its five store operations, and success only after all five with a visible QR and no mark |
| QrPayments.ConfirmIsARun | src/modules/finance/finance.service.ts:551-578 | a call cut short anywhere is a run of the step machine in which handlers of different tokens interleave |
| QrPayments.RunKeepsGuarded | src/modules/finance/finance.service.ts:551-578 | with a mark that outlives the QR, in every run each token is paid at most once, and once paid it is sealed |
| QrPayments.AtMostOnceIffMarkOutlivesQr | src/modules/finance/finance.service.ts:519-578 | every run pays each QR at most once if and only if the mark lives at least as long as the QR |
| QrPayments.DeskPaysAtMostOnce | src/modules/finance/finance.service.ts:533-560 | with the lifetimes in use every run pays each QR at most once |
| QrPayments.QrLivesSevenMinutes | src/modules/finance/finance.service.ts:528-533 | in every run a generated QR that no handler dropped is found if and only if fewer than 420 seconds have passed |
| QrPayments.RepeatsAreRecognised | src/modules/finance/finance.service.ts:551-560 | in every run a repeat within 86400 seconds of the mark finds it and changes nothing |
| QrPayments.MarkLivesOneDay | src/modules/finance/finance.service.ts:560-560 | the mark is found if and only if fewer than 86400 seconds have passed |
| QrPayments.ConfirmedPaysTheOrder | src/modules/finance/finance.service.ts:519-578 | a QR confirmed is one payment of the final amount for its order |
| QrPayments.NoQrForPaidOrders | src/modules/finance/finance.service.ts:519-526 | orders that are unknown or marked paid get no QR, others do |
| QrPayments.ShortMarkPaysTwice | src/modules/finance/finance.service.ts:551-578 | for every pair of lifetimes with the mark the shorter, a run that pays twice |
| QrPayments.DyingBeforePaymentSeals | src/modules/finance/finance.service.ts:551-578 | a handler that dies after the mark and before the payment leaves the token sealed and unpaid |
| QrPayments.DyingBetweenMarkAndPayment | src/modules/finance/finance.service.ts:551-578 | a call that finds the QR and no mark leaves the token marked and unpaid if and only if it dies between the two writes |
| QrPayments.SealedIsNeverPaidAgain | src/modules/finance/finance.service.ts:551-578 | no run pays a sealed token |
| QrPayments.PaymentsMatchTheirQr | src/modules/finance/finance.service.ts:528-569 | in every run each payment is for the order and amount of its QR as generated, whatever is written to the order since |
| QrPayments.TwoQrsPayOneOrderTwice | src/modules/finance/finance.service.ts:519-578 | if QRs live at all, a run in which one order is paid twice by two QRs and is still not marked paid |
| QrPayments.OrderPaidAtMostPerQr | src/modules/finance/finance.service.ts:519-578 | with a mark that outlives the QR, in every run the payments of an order are at most the QRs generated for it |
| QrPayments.EveryQrMayPay | src/modules/finance/finance.service.ts:519-578 | for every n, a run that generates n QRs for an order and pays each |
| QrPayments.OrderPaidAsOftenAsOffered | src/modules/finance/finance.service.ts:519-578 | an order with at most n QRs is paid at most m times in every run if and only if n is at most m |
| Expenses.FinanceDesk.CreateExpense | src/modules/finance/finance.service.ts:165-227 | under S/ 100 disbursed by the requester, else pending at the level of its amount |
| Expenses.FinanceDesk.ApproveExpense | src/modules/finance/finance.service.ts:229-327 | exact new state and the first failing guard of a decision, first owner signature included |
| Expenses.FinanceDesk.ChangeRole | src/modules/personnel/personnel.service.ts:542-564 | never takes or gives the role of OWNER |
| Expenses.RunKeepsJustified | src/modules/finance/finance.service.ts:229-327 | in every run each expense rests on the signatures that its status and level require, in their order |
| Expenses.DisbursedWasApproved | src/modules/finance/finance.service.ts:165-327 | in every run a disbursed expense of S/ 100 or more was approved by somebody other than the requester with a sufficient role |
| Expenses.ApprovedByRank | src/modules/finance/finance.service.ts:428-443 | in every run a disbursed expense of exactly S/ 100 was approved by FINANCE, ADMIN or OWNER, up to 500 by ADMIN or OWNER, above by an OWNER, never by the requester |
| Expenses.WhoMayDecide | src/modules/finance/finance.service.ts:229-327 | a pending expense takes a decision if and only if it comes from a known account other than the requester with the rank for the amount, and not twice from the first owner |
| Expenses.WhatADecisionDoes | src/modules/finance/finance.service.ts:250-327 | a rejection ends it, an approval disburses it, but for the first of two owners above 2000 |
| Expenses.WhatARequestDoes | src/modules/finance/finance.service.ts:165-192 | under S/ 100 money leaves at once, from there on it waits |
| Expenses.TwoOwnersSigned | src/modules/finance/finance.service.ts:229-327 | above S/ 2000 two different accounts signed, on record together, both owners still whatever role updates came between |
| Expenses.AtMostTwoDecisions | src/modules/finance/finance.service.ts:229-327 | an expense takes at most two decisions, and one below the double signature |
| Expenses.DecisionsAreFinal | src/modules/finance/finance.service.ts:229-245 | no run changes the row of an expense once decided |
| Invoices.BillingDesk.CreateInvoice | src/modules/invoices/invoices.service.ts:78-132 | one draft per order, of the cost of the order less its discount plus tax, all of it due |
| Invoices.BillingDesk.IssueInvoice | src/modules/invoices/invoices.service.ts:134-166 | DRAFT to ISSUED only, repeated on the order |
| Invoices.BillingDesk.CancelInvoice | src/modules/invoices/invoices.service.ts:168-193 | any status but CANCELLED and PAID to CANCELLED, not repeated on the order |
| Invoices.BillingDesk.CreateInvoiceDraft | src/modules/finance/finance.service.ts:580-618 | a new draft for the order, or the total and amount due of the invoice it has, payments or not |
| Invoices.BillingDesk.MarkDelivered | src/modules/orders/use-cases/deliver-vehicle.use-case.ts:55-62 | delivering writes PAID on the order, whatever its invoice says |
| Invoices.BillingDesk.TotalPaid | src/modules/payments/payments.service.ts:275-278 | the sum of the payments of the invoice |
| Invoices.BillingDesk.UpdateInvoicePaymentStatus | src/modules/payments/payments.service.ts:268-305 | paid, due and status recomputed from the payments, repeated on the order |
| Invoices.BillingDesk.RecordPayment | src/modules/payments/payments.service.ts:55-171 | exact new state and the first failing guard |
| Invoices.StepKeepsBalanced | src/modules/finance/finance.service.ts:598-615 | a step keeps every invoice balanced if and only if it is no draft of something on an invoice with payments and none of nothing on one paid in part |
| Invoices.RunKeepsBalanced | src/modules/payments/payments.service.ts:268-305 | in every run without such a draft: paid is the sum of the payments, paid plus due is the larger of total and paid once a payment is in, and the status says which |
| Invoices.DraftedAmounts | src/modules/invoices/invoices.service.ts:97-118 | an invoice is of the cost less the discount with 18 per cent on top, all of it due |
| Invoices.DraftAmounts | src/modules/finance/finance.service.ts:594-615 | the draft of a quote is of its subtotal with 18 per cent on top, to the céntimo, and due in full, whatever has been paid |
| Invoices.WhatIsTaken | src/modules/payments/payments.service.ts:55-152 | a payment is taken if and only if it is for something that exists, cash for an invoice, a card with its receipt, a personal Yape with its account |
| Invoices.IssuedAndCancelled | src/modules/invoices/invoices.service.ts:134-193 | only a draft is issued, and only what is neither paid nor cancelled is cancelled |
| Invoices.DraftReopensPaid | src/modules/finance/finance.service.ts:598-607 | a paid invoice, a draft and a payment after which it is paid in part |
| Invoices.PaidStaysPaid | src/modules/invoices/invoices.service.ts:134-193 | no run without such a draft takes an invoice out of PAID |
| Invoices.PaymentRevivesCancelled | src/modules/payments/payments.service.ts:280-297 | CANCELLED is left by a step if and only if it is a payment accepted against that invoice |
| Invoices.StepKeepsMirrored | src/modules/invoices/invoices.service.ts:134-193 | a step keeps the payment status of the order equal to the status of its invoice if and only if it neither cancels the invoice nor delivers before it is paid |
| Invoices.OrdersRepeatInvoices | src/modules/payments/payments.service.ts:299-304 | over every run without those steps the order repeats the status of its invoice |
| Invoices.PaymentMirrors | src/modules/payments/payments.service.ts:289-304 | a payment accepted against the invoice makes the two equal from any state |
| Pagination.IndexOf | src/modules/orders/orders.service.ts:150-158 | the first position of a row from a given one on, or the end |
| Pagination.OrdersPageAt | src/modules/orders/orders.service.ts:150-164 | a page shows the next rows, and its cursor leads to the row after them |
| Pagination.OrdersWalkIsWhole | src/modules/orders/orders.service.ts:150-164 | following the cursors ends, and shows the whole listing in order, each row once, for every result set and limit |
| Pagination.AuditPagesLikeOrders | src/modules/audit/audit.service.ts:74-93 | the audit log pages as the order listing does with its limit capped at 100 |
| Pagination.OffsetWalkIsWhole | src/modules/audit/audit.service.ts:51-72 | asking for pages while another is promised shows the whole log |
| Pagination.PromisedPagesHaveRows | src/modules/audit/audit.service.ts:63-71 | another page is promised if and only if it has rows |
| Pagination.HistoryWalkSkips | src/modules/finance/finance.service.ts:375-396 | following the cursors of the cashbox history shows exactly the rows whose index is not take modulo take plus one |
| Pagination.HistoryLimits | src/modules/finance/finance.service.ts:376-376 | a limit from 1 to 100 is taken, any other is 20 |
| Pagination.HistoryWholeIffOnePage | src/modules/finance/finance.service.ts:375-396 | that walk is whole if and only if everything fits on the first page |
| Masking.DropFields | src/common/interceptors/data-masking.interceptor.ts:17-21 | the deleting loop keeps exactly the fields that are not masked |
| Masking.CleanClient | src/common/interceptors/data-masking.interceptor.ts:16-22 | only a truthy client is replaced, by its own properties without the masked ones |
| Masking.MaskValue | src/common/interceptors/data-masking.interceptor.ts:23-27 | the recursive call on a property gives the masked field |
| Masking.MaskFields | src/common/interceptors/data-masking.interceptor.ts:16-28 | cleaning the client and reassigning keys in any order gives each field its masked value |
| Masking.MaskObject | src/common/interceptors/data-masking.interceptor.ts:12-29 | the recursive procedure computes the masked value of any input |
| Masking.SensitivePathsAreGone | src/common/interceptors/data-masking.interceptor.ts:12-29 | for every value no path through a masked field directly under a client survives, at any depth |
| Masking.ClientDataIsGone | src/common/interceptors/data-masking.interceptor.ts:5-8 | by name: phone, email, address, dni, ruc, phone2, creditLimit and creditBalance of a client are gone at any depth |
| Masking.OtherClientDataStays | src/common/interceptors/data-masking.interceptor.ts:16-22 | a scalar of any other name under a client stays |
| Masking.WhichClientsAreReplaced | src/common/interceptors/data-masking.interceptor.ts:17-18 | a scalar client is left alone if and only if it is null, false, zero or the empty text |
| Masking.OtherPathsAreKept | src/common/interceptors/data-masking.interceptor.ts:12-29 | every other path leads to the same value as before, provided no date, decimal or odd client is in sight |
| Masking.KeepsTheRestIffPlain | src/common/interceptors/data-masking.interceptor.ts:12-29 | every other path is kept if and only if no date or decimal is in sight and each truthy client in sight is an object |
| Masking.DecimalsComeApart | src/common/interceptors/data-masking.interceptor.ts:16-28 | every decimal is replaced by a plain object of its own properties |
| Masking.ScalarsSurvive | src/common/interceptors/data-masking.interceptor.ts:12-29 | for every value, dates and decimals included, a scalar off the sensitive paths that does not stand for a client keeps its place and value |
| Masking.MaskIdempotent | src/common/interceptors/data-masking.interceptor.ts:12-29 | masking twice is masking once, for every value |
| CycleTime.GroupByMechanic | src/modules/analytics/use-cases/get-executive-summary.use-case.ts:65-82 | one group per mechanic with an order that counts, with the total hours and number of those orders |
| CycleTime.GetMechanicCycleTime | src/modules/analytics/use-cases/get-executive-summary.use-case.ts:43-99 | one row per such mechanic with the rounded average, in order of the averages, and the overall figure |
| CycleTime.SortingKeepsReport | src/modules/analytics/use-cases/get-executive-summary.use-case.ts:84-91 | any sorted permutation of the rows is a report on the same orders |
| CycleTime.SortedKeepsRows | src/modules/analytics/use-cases/get-executive-summary.use-case.ts:91-91 | sorting loses and invents no row |
| CycleTime.SortingIsStable | src/modules/analytics/use-cases/get-executive-summary.use-case.ts:91-91 | mechanics with the same average keep their order |
| CycleTime.OneMoreCounted | src/modules/analytics/use-cases/get-executive-summary.use-case.ts:67-79 | an order counts, with its hours, if and only if it has a mechanic and was READY no earlier than it came in |
| CycleTime.ReportCountsOrders | src/modules/analytics/use-cases/get-executive-summary.use-case.ts:65-93 | the counts of the rows add up to the orders that count, and the exact averages times counts to their hours |
| CycleTime.OverallNearMean | src/modules/analytics/use-cases/get-executive-summary.use-case.ts:93-98 | the overall average built from rounded averages is within 0.01 hours of the true mean |

## Left out

- Floating point: amounts are exact reals rounded only where the services call their rounding; binary error of the number type and silent rounding by decimal columns are not modelled.
- Concurrent check-then-act: service calls run one after another, except that webhook handlers of different tokens interleave and the named operations may die between two writes.
- Redis failures: every cache read, write and delete succeeds; a delete that is allowed to fail quietly would break coherence until the entry expires.
- Caches of the catalogue, low stock, critical stock and valuation: not every writer invalidates them, so only their lifetime bounds how stale they are.
- Dispatch and reservation take the order row as read in `Inventory`, through the guard that `WorkOrders` shares; only `WorkOrders` has the order table beside the transaction.
- Check-in of the vehicle with its photographs, event rows of progress reports, and the approval row of a discount request, which no service acts on.
- The payment status of an order is followed in `Invoices`; in `WorkOrders` it is only the mark that delivery sets.
- Items of an order, another table than its parts: a draft quote takes their total as a parameter.
- The older cashbox close of the finance service, which no route uses.
- Payments of nothing or less, which only a QR of an order with such an amount could make: payments of orders and invoices are positive, as the payment request demands.
- Creation of purchases, purchase numbers and supplier checks: runs of `Inventory` start from any state whose purchases point at existing items.
- Password, token and one-time-code verification are truth values, hashes are fresh: two tokens signed in the same second with the same payload could collide and are excluded.
- Failed-attempt lockout, the second-factor claim carried by tokens, and the list of sessions shown to a user.
- Order numbers, invoice numbers, dates of issue and due dates, names, notes and justification texts; a justification is only present or absent.
- The local time zone in "opened today": a day is 86400 seconds of the modelled clock.
- Audit rows other than that of the double signature, events, notifications, queues and sockets.
- Functions among the own properties of a masked class instance, which serialization drops, and objects whose keys are digits next to arrays with those indices.
- Cash flow and daily summaries, dashboards and the other reports: groupings with no further law.
- Clients, vehicles, settings, commissions and attendance: plain reads and writes.
