# Inventory batch ledger of a retail back end

This project models the inventory core of a small retail back end written in TypeScript on Firestore.
Stock is held in dated **inventory batches**. A product's stock is the sum of its batches' current quantities.
Five services change that ledger:

- **Purchases** (`PurchaseService`) are validated line by line. Marking one received creates one batch per line.
- **Sales** (`SaleService`) are validated against the stock that has not expired. They then consume batches first-in first-out inside one transaction, and each draw records a sale inventory movement.
- **Inventory adjustments** (`InventoryAdjustmentService`) record waste, damage, expiry or a correction. Each one sets a batch to its new quantity.
- **Purchase returns** (`PurchaseReturnService`) take returned units back out of the batches of one purchase.
- **Batches** (`InventoryBatchService`) are created directly, listed, updated in quantity and summed. They also raise low-stock and expiry alerts.

The read-only reports (`ReportService`) are modelled too: the dashboard counters, low stock, expiring products, top sellers, slow movers and the waste summary.
So are the helpers these services call: required-field, e-mail and password validation, pricing validation, pagination and the daily document numbers (`VENTA-YYYYMMDD-0001`).

## How the system is represented

- **Services are classes.** Each Firestore collection a service writes is a field: a `map` keyed by document id, or a `seq` in insertion order. A service method is a `method` whose `ensures` gives the new state as a specification function of the old state. A failed request leaves the state unchanged.
- **Transactions are one step.** A transaction is a working copy of the batch map that is committed at the end.
- **Validation is pure.** Each request's checks are pure functions returning `Result`. The errors are the source's own: bad request, not found, insufficient stock.
- **Numbers.** Quantities, prices and money are `real`. Timestamps are integer milliseconds. Batch ids are natural numbers taken from a counter.
- **Missing values.** A date field is absent, unparseable or a parsed instant. JavaScript truthiness is written out where the source relies on it: `|| default`, and `!field` in `validateRequiredFields`.
- **Sorting.** `Array.prototype.sort` and Firestore's `orderBy` are one stable sort by a numeric key.
- **Grouping.** The reports' grouping `Map`s keep their groups in insertion order.
- **Outside inputs are parameters.** The clock, the ISO date string, the count of today's documents and the start of today, of the week and of the month are passed in.

## Model

| member | source | states |
|---|---|---|
| Validation.MissingSound | back/src/utils/validation.util.ts:29 | every field reported missing is a listed field whose value is falsy |
| Validation.MissingComplete | back/src/utils/validation.util.ts:29 | every listed field whose value is falsy is reported |
| Validation.MissingAppend | back/src/utils/validation.util.ts:29 | the missing fields of two lists joined are the missing fields of each, in the given order |
| Validation.ValidateRequiredFields | back/src/utils/validation.util.ts:25-36 | `validateRequiredFields` fails exactly when some listed field is falsy, and the error lists the missing fields in order |
| Validation.ZeroIsMissing | back/src/utils/validation.util.ts:29 | a numeric field holding 0 is reported missing although the key is present |
| Validation.EmailMatchesPattern | back/src/utils/validation.util.ts:7 | the positional reading of the regular expression accepts exactly the strings local@domain.tld with three non-empty parts free of white space and '@' |
| Validation.EmailToPattern | back/src/utils/validation.util.ts:7 | an accepted string splits into the three parts of the pattern |
| Validation.PatternToEmail | back/src/utils/validation.util.ts:7 | a string built from three such parts is accepted |
| Validation.EmailHasOneAt | back/src/utils/validation.util.ts:7 | an accepted address has no white space and exactly one '@' |
| Validation.ValidateEmail | back/src/utils/validation.util.ts:6-11 | `validateEmail` passes exactly on the pattern's strings, and otherwise raises BadRequest |
| Validation.ValidatePassword | back/src/utils/validation.util.ts:16-20 | `validatePassword` passes exactly when the password's JavaScript length, in UTF-16 code units, is at least 6; any 6 characters suffice |
| Validation.EmojiPasswordAccepted | back/src/utils/validation.util.ts:17 | three emoji pass, since each is two UTF-16 code units |
| Validators.IsValidEmail | front/src/utils/validators.ts:4-7 | the form accepts an e-mail exactly when the backend's `validateEmail` does |
| Validators.IsValidPassword | front/src/utils/validators.ts:12-17 | true exactly when the length in UTF-16 code units reaches the minimum; with the default minimum, exactly when the backend's `validatePassword` passes |
| Validators.IsPositiveNumber | front/src/utils/validators.ts:22-24 | true exactly for a number above zero, and such a value is truthy |
| Pagination.Normalize | back/src/utils/pagination.util.ts:43-48 | the page is at least 1 (0, missing and negative give 1, others are kept); the limit lies in 1..100, defaults to 10 when missing or 0, and is clamped otherwise |
| Pagination.Calculate | back/src/utils/pagination.util.ts:23-38 | page, limit and total are echoed; the page count is the total divided by the limit rounded up; a next page exactly when page < page count; a previous page exactly when page > 1 |
| Pagination.PageSlice | back/src/services/inventory-batch.service.ts:160-162 | the slice holds at most `limit` items, item k being item (page-1)*limit+k of the listing; it is full when the listing reaches the page's end and empty past the listing |
| Pagination.HasNextPageIff | back/src/utils/pagination.util.ts:28-35 | there is a next page exactly when pages 1..page hold fewer items than the total |
| Pagination.ItemOnItsPage | back/src/utils/pagination.util.ts:28 | every item of the listing appears at its position on its page, and that page is within the page count |
| Products.FindProduct | back/src/services/inventory-batch.service.ts:51-54 | a lookup returns a product with that id, and none exactly when no product has it |
| Products.FindSupplier | back/src/services/inventory-batch.service.ts:57-62 | a lookup returns a supplier with that id, and none exactly when no supplier has it |
| Products.ValidateProductPricing | back/src/utils/product-validation.util.ts:7-74 | by weight: passes exactly with a positive price per kg and no price per piece; by piece: the converse; mixed: a positive price per kg, a positive price per piece when the flag is false, none when it is true, neither rule when it is undefined; any other sale type passes unchecked; every failure is BadRequest, a missing price per kg first for the two types that need one |
| Products.ValidatePriceValues | back/src/utils/product-validation.util.ts:79-91 | passes exactly when every defined value is a number at or above zero; otherwise reports the first bad entry's key |
| Numbering.DigitChar | back/src/services/sale.service.ts:309 | a digit value becomes the decimal character of that value |
| Numbering.NatToString | back/src/services/sale.service.ts:309 | `toString` of a count is a non-empty string of decimal digits |
| Numbering.NatToStringValue | back/src/services/sale.service.ts:309 | the digits read back as the number: `toString` loses nothing |
| Numbering.NatToStringShort | back/src/services/sale.service.ts:309 | a number below 10^width has at most `width` digits |
| Numbering.LeadingZeroValue | back/src/services/sale.service.ts:309 | a leading '0' does not change the value of a digit string |
| Numbering.PadStart4 | back/src/services/sale.service.ts:309 | `padStart(4, "0")` keeps the digits' value, ends with the original digits, and is exactly 4 long unless the digits are longer |
| Numbering.StripDashes | back/src/services/sale.service.ts:297 | `replace(/-/g, "")` leaves no dash and never lengthens the text |
| Numbering.StripDashesAppend | back/src/services/sale.service.ts:297 | removing dashes distributes over concatenation |
| Numbering.StripDashesOfDigits | back/src/services/sale.service.ts:297 | digits have no dash to remove |
| Numbering.StripDashesOfIsoDate | back/src/services/sale.service.ts:293-297 | the ISO date YYYY-MM-DD becomes YYYYMMDD |
| Numbering.CountPart | back/src/services/sale.service.ts:308-309 | the counter part reads as today's count plus one, has at least 4 digits, and exactly 4 while the count stays below 9999 |
| Numbering.DocumentNumberInjective | back/src/services/sale.service.ts:291-311 | two numbers of the same prefix and day are equal only for the same count, so a day's numbers are distinct |
| Numbering.FirstCountPart | back/src/services/purchase.service.ts:182-185 | the first document of a day carries 0001 |
| Numbering.FirstSaleNumber | back/src/services/sale.service.ts:291-311 | the first sale of 5 March 2024 is numbered VENTA-20240305-0001 |
| InventoryBatches.StockedBatchesMembers | back/src/services/inventory-batch.service.ts:235-242 | the records `getProductStock` reads are exactly the product's records in the collection with a quantity above zero |
| InventoryBatches.SumCurrentPositive | back/src/services/inventory-batch.service.ts:244-247 | a sum of positive quantities is non-negative, and zero exactly when no record is summed |
| InventoryBatches.StockedSum | back/src/services/inventory-batch.service.ts:235-247 | a product's stock is non-negative, and zero exactly when it has no record holding stock |
| InventoryBatches.PlanBatch | back/src/services/inventory-batch.service.ts:30-106 | `create`: a failed required-field check is reported as is; a zero or negative quantity and a negative price are refused; an unknown product or supplier, an unparseable entry or expiration date are refused; an accepted record has current quantity equal to the initial one (above zero), the parsed dates (entry defaulting to now, expiration to none), trimmed batch number and notes, and the creator |
| InventoryBatches.Ledger.Create | back/src/services/inventory-batch.service.ts:83-102 | an accepted record is stored under a fresh id and nothing else changes; a refused request changes nothing |
| InventoryBatches.Ledger.UpdateQuantity | back/src/services/inventory-batch.service.ts:405-414 | a negative quantity is refused and changes nothing; otherwise only that record's current quantity changes (an unknown id is refused, where the store's `update` fails) |
| InventoryBatches.ListingMembers | back/src/services/inventory-batch.service.ts:117-155 | a record is listed exactly when it passes the product, supplier, stock and expiry filters |
| InventoryBatches.FilterKeepsDescending | back/src/services/inventory-batch.service.ts:136-155 | the in-memory filters keep the descending entry-date order of the query |
| InventoryBatches.ListingNewestFirst | back/src/services/inventory-batch.service.ts:128-155 | the listing is ordered by entry date, newest first |
| InventoryBatches.ListBatches | back/src/services/inventory-batch.service.ts:111-168 | `getAll`: the total counts the whole filtered listing; the page holds at most `limit` (1..100) records, each from the collection and passing every filter, newest first, and is the page's slice of the listing |
| InventoryBatches.PageProperties | back/src/services/inventory-batch.service.ts:157-162 | every record of a page passes the filters, and a page keeps the newest-first order |
| InventoryBatches.PageMembers | back/src/services/inventory-batch.service.ts:160-162 | a property of every listed record holds for every record of any page |
| InventoryBatches.PageKeepsDescending | back/src/services/inventory-batch.service.ts:160-162 | a page of a descending listing is descending |
| InventoryBatches.MinEntry | back/src/services/inventory-batch.service.ts:254-259 | the oldest entry date is one of the records' dates and at or before every one of them |
| InventoryBatches.MinExpiration | back/src/services/inventory-batch.service.ts:262-272 | the nearest expiration is absent exactly when no record has one, and is otherwise a record's date at or before every other expiration |
| InventoryBatches.GetProductStock | back/src/services/inventory-batch.service.ts:229-291 | `getProductStock`: an unknown product is NotFound; otherwise the total is the sum and the count the number of the product's records in stock, the oldest entry date is present exactly when there is one and is the earliest, the nearest expiration is present exactly when some record has one and is the earliest; the total is zero exactly when there is no record |
| InventoryBatches.LowStockCandidatesFrom | back/src/services/inventory-batch.service.ts:297-324 | every low-stock alert names an active product, with its name, its summed stock and its minimum (`?? 0`) |
| InventoryBatches.LowStockCandidatesStatus | back/src/services/inventory-batch.service.ts:308-324 | an alert is critical exactly when the stock is zero, and otherwise a warning with stock below the minimum |
| InventoryBatches.LowStockCandidatesComplete | back/src/services/inventory-batch.service.ts:305-325 | every active product with no stock or stock below its minimum raises an alert that is in the list |
| InventoryBatches.LowStockCompareIsByStock | back/src/services/inventory-batch.service.ts:327-331 | on alerts whose status is critical exactly at zero stock, the comparator orders by stock alone |
| InventoryBatches.LowStockAlerts | back/src/services/inventory-batch.service.ts:296-332 | `getLowStockAlerts`: the collected alerts, stably sorted by stock |
| InventoryBatches.LowStockCriticalFirst | back/src/services/inventory-batch.service.ts:327-331 | in the sorted alerts every critical alert precedes every warning |
| InventoryBatches.ExpiringCandidatesSpec | back/src/services/inventory-batch.service.ts:353-390 | every expiry alert is for a record in stock with an expiration date, copies its id, product and quantity, has the rounded-up day count (at most 7) and the status that count gives; every record in stock at most 7 days from expiring raises one |
| InventoryBatches.ExpiringCompareIsByDays | back/src/services/inventory-batch.service.ts:393-399 | since the status follows the day count, "status, then days" orders by days alone |
| InventoryBatches.ExpiringAlerts | back/src/services/inventory-batch.service.ts:337-400 | `getExpiringProductsAlerts`: the alerts of the records in stock, stably sorted by day count |
| InventoryBatches.CollectExpiring | back/src/services/inventory-batch.service.ts:355-390 | the loop collects exactly the alerts of the records, in order |
| Common.DaysUntil | back/src/services/inventory-batch.service.ts:359-360 | the day count is the difference in days rounded up |
| Common.CeilDiv | back/src/utils/pagination.util.ts:28 | `Math.ceil(a / b)`: the least `r` with `a <= b * r` |
| Common.Trim | back/src/services/inventory-batch.service.ts:90 | `trim` removes white space only, and all of it at both ends: the result is the text with a run of white space cut before it and after it, and it neither starts nor ends with white space |
| Common.TrimCut | back/src/services/inventory-batch.service.ts:90 | trimming cuts only white space, at a known offset before the result and after it |
| Common.Utf16Length | back/src/utils/validation.util.ts:17 | JavaScript's string length counts one or two UTF-16 code units per character, and equals the character count when no character is beyond the Basic Multilingual Plane |
| InventoryAdjustments.AdjustmentRequiredPass | back/src/services/inventory-adjustment.service.ts:24 | the required-field check passes exactly when batch id, type, a non-zero quantity and a non-empty reason are all given |
| InventoryAdjustments.PlanAdjustmentOk | back/src/services/inventory-adjustment.service.ts:23-59 | an adjustment is accepted exactly when the fields are present, the batch exists, a waste type does not carry a positive quantity, and the batch's quantity plus the adjustment is not negative |
| InventoryAdjustments.PlanAdjustmentRecord | back/src/services/inventory-adjustment.service.ts:52-74 | an accepted adjustment records the batch id, the batch's product, the type, the quantity, the trimmed reason and the user; the new batch quantity is the old one plus the quantity, is not negative, and a waste lowers it |
| InventoryAdjustments.PlanAdjustmentBounds | back/src/services/inventory-adjustment.service.ts:52-66 | an accepted adjustment takes the id it was given, names an existing batch and leaves it non-negative |
| InventoryAdjustments.ZeroQuantityIsMissing | back/src/services/inventory-adjustment.service.ts:24-40 | a quantity of 0 is refused as a missing field by the required-field check, before the `=== 0` test is reached |
| InventoryAdjustments.PlanAdjustmentErrors | back/src/services/inventory-adjustment.service.ts:27-59 | with the fields present: an unknown batch is NotFound; a positive waste is refused; an adjustment taking the batch below zero is refused |
| InventoryAdjustments.CorrectionNotCapped | back/src/services/inventory-adjustment.service.ts:43-59 | a positive manual correction is accepted even when it lifts the batch above its initial quantity |
| InventoryAdjustments.ListAdjustments | back/src/services/inventory-adjustment.service.ts:95-157 | `getAll`: an unparseable start date, then an unparseable end date, is refused, and only those; otherwise the total counts the filtered listing, and the page is that listing's slice for the normalised page and limit (1..100): records that pass every filter and the inclusive date range, newest first |
| InventoryAdjustments.AdjustmentPageProperties | back/src/services/inventory-adjustment.service.ts:95-157 | every record on any page of the listing passes the filters and the date range, and the page is newest first |
| InventoryAdjustments.AdjustmentListingMembers | back/src/services/inventory-adjustment.service.ts:101-144 | an adjustment is listed exactly when it matches the batch, product and type filters and lies within the inclusive date bounds |
| InventoryAdjustments.AdjustmentListingNewestFirst | back/src/services/inventory-adjustment.service.ts:117 | the listing is ordered by creation time, newest first |
| InventoryAdjustments.ByType | back/src/services/inventory-adjustment.service.ts:224-227 | the per-type count is at most the number of adjustments, and the summed absolute quantity is not negative |
| InventoryAdjustments.SummaryPartitions | back/src/services/inventory-adjustment.service.ts:218-232 | the three types partition the summary: their counts add up to `total_adjustments` and their quantities to Σ\|quantity\| |
| InventoryAdjustments.Summarize | back/src/services/inventory-adjustment.service.ts:218-232 | the counting loop, starting every type at zero, computes the per-type summary |
| InventoryAdjustments.SetQuantityKeepsLedger | back/src/services/inventory-adjustment.service.ts:82-85 | setting a batch to a non-negative quantity keeps the ledger well formed and its ids unchanged |
| InventoryAdjustments.AdjustmentService.Create | back/src/services/inventory-adjustment.service.ts:23-90 | `create`: on a refusal neither the batches nor the adjustments change; on acceptance the record is appended and only that batch's quantity changes, to the planned value, in one step |
| InventoryAdjustments.AdjustmentService.GetSummary | back/src/services/inventory-adjustment.service.ts:187-233 | `getAdjustmentsSummary` is the per-type summary of the adjustments selected by product and date range |
| Purchases.ItemRequiredPass | back/src/services/purchase.service.ts:55 | a line's required fields pass exactly when it names a product and has a non-zero quantity and unit cost |
| Purchases.CheckItemSpec | back/src/services/purchase.service.ts:54-113 | a line is kept exactly when it is acceptable (product known, quantity above 0, cost not negative, expiration parseable and not past); the kept line has the product's name, subtotal = quantity × cost, the parsed expiration, and no batch yet |
| Purchases.FreeLineRejected | back/src/services/purchase.service.ts:55-63 | a line with unit cost 0 is refused as a missing field, although the explicit check only refuses a negative cost |
| Purchases.PurchaseRequiredPass | back/src/services/purchase.service.ts:31 | the purchase's required fields pass exactly when supplier, type and the item list are given |
| Purchases.EffectiveTax | back/src/services/purchase.service.ts:117 | the tax is never negative, and is either 0 or the given tax |
| Purchases.PlanPurchaseStored | back/src/services/purchase.service.ts:137-154 | a created purchase carries its id and is consistent (positive quantities, PENDING without batches or receipt date) |
| Purchases.NoItemsRejected | back/src/services/purchase.service.ts:33-35 | a purchase with an empty item list is refused |
| Purchases.PlanPurchaseFacts | back/src/services/purchase.service.ts:30-160 | a created purchase is PENDING with its number, one kept line per requested line, subtotal = Σ line subtotals, the effective tax, total = subtotal + tax, and the parsed purchase date or now |
| Purchases.RunCreate | back/src/services/purchase.service.ts:50-132 | the checks and the accumulating line loop of `create` produce exactly the planned purchase or error |
| Purchases.BatchNumberFallback | back/src/services/purchase.service.ts:216-218 | a line without a batch number gets the purchase number, a dash, and the first (up to) six characters of the product id |
| Purchases.Linked | back/src/services/purchase.service.ts:240-243 | the linked lines are as many as the purchase's lines |
| Purchases.AddReceivedSpec | back/src/services/purchase.service.ts:211-237 | receipt adds exactly one fresh batch per line under consecutive new ids, built from that line, and leaves every existing batch as it was |
| Purchases.ReceiveLines | back/src/services/purchase.service.ts:208-244 | the receipt loop stores the lines' batches and records each new batch id on its line |
| Purchases.AddReceivedWellFormed | back/src/services/purchase.service.ts:220-237 | batches of lines with positive quantities keep the ledger well formed and its ids below the counter |
| Purchases.PurchaseService.Create | back/src/services/purchase.service.ts:30-160 | `create` stores the planned purchase under a fresh id with the day's purchase number, or changes nothing |
| Purchases.PurchaseService.MarkAsReceived | back/src/services/purchase.service.ts:191-258 | an unknown purchase is NotFound and one not PENDING is refused, both changing nothing; a PENDING one becomes RECEIVED with its receipt date and linked lines, and the ledger gains exactly its batches, in one step |
| Purchases.PurchaseService.Update | back/src/services/purchase.service.ts:335-364 | only a PENDING purchase is edited; only a given invoice number or note changes, trimmed |
| Purchases.PurchaseService.Cancel | back/src/services/purchase.service.ts:369-383 | only a PENDING purchase is cancelled, and cancelling deletes it |
| PurchaseReturns.LineRequiredPass | back/src/services/purchase-return.service.ts:54 | a line's required fields pass exactly when batch, a non-zero quantity and a reason are given |
| PurchaseReturns.FindByBatch | back/src/services/purchase-return.service.ts:69-71 | the purchase line found carries that batch id, and none is found exactly when no line does |
| PurchaseReturns.LineFields | back/src/services/purchase-return.service.ts:54-58 | a line's own checks pass exactly when its fields are given and the quantity is above 0, and then yield those fields |
| PurchaseReturns.CheckLineSpec | back/src/services/purchase-return.service.ts:53-105 | a line is kept exactly when it is acceptable (fields, quantity above 0, known batch, batch of this purchase, quantity at most the batch's stock); the kept line has the batch's product and price as unit cost and subtotal = quantity × cost |
| PurchaseReturns.CheckLineValue | back/src/services/purchase-return.service.ts:80-98 | a kept line's batch exists, its quantity is above 0 and at most the batch's stock, and its subtotal is quantity × purchase price |
| PurchaseReturns.CheckLineOk | back/src/services/purchase-return.service.ts:53-84 | a line passes the checks exactly when it is acceptable |
| PurchaseReturns.Apply | back/src/services/purchase-return.service.ts:127-138 | the transaction's loop changes quantities only: the set of batches is unchanged |
| PurchaseReturns.Take | back/src/services/purchase-return.service.ts:132-137 | taking one line off a ledger keeps its set of batches |
| PurchaseReturns.ApplyTotals | back/src/services/purchase-return.service.ts:127-138 | after the loop each batch holds its quantity less everything the lines return of it, with no check against zero |
| PurchaseReturns.AsWrittenOverReturns | back/src/services/purchase-return.service.ts:53-138 | as written, two lines returning the whole of one 5-unit batch both pass, and the batch ends at -5 |
| PurchaseReturns.Cumulative | back/src/services/purchase-return.service.ts:53-105 | the corrected walk keeps one line per requested line when it succeeds |
| PurchaseReturns.TakeWellFormed | back/src/services/purchase-return.service.ts:132 | taking a line that fits its batch keeps the ledger well formed |
| PurchaseReturns.ApplySnoc | back/src/services/purchase-return.service.ts:127-138 | the loop over one more line is the loop followed by that line |
| PurchaseReturns.CumulativeWellFormed | back/src/services/purchase-return.service.ts:86-87 | for any check whose lines fit the ledger they were checked against, the batches stay non-negative and the refund is Σ line subtotals |
| PurchaseReturns.CumulativeLines | back/src/services/purchase-return.service.ts:80-98 | every kept line names a batch of the ledger, returns a positive quantity and is priced at that batch's purchase price |
| PurchaseReturns.PlanLinesSound | back/src/services/purchase-return.service.ts:53-138 | with the corrected check no batch goes below zero, the refund is Σ subtotals, and every line's batch is one of the purchase's |
| PurchaseReturns.CheckLineMonotone | back/src/services/purchase-return.service.ts:80-84 | a line accepted against a ledger holding less stock is accepted, identically, against the pre-read ledger |
| PurchaseReturns.CumulativeShrunk | back/src/services/purchase-return.service.ts:127-138 | the corrected walk only ever lowers quantities of existing batches |
| PurchaseReturns.CumulativeRefinesWalk | back/src/services/purchase-return.service.ts:53-105 | a cumulative walk whose check agrees with a ledger-free check on every shrunk ledger yields what the ledger-free walk yields |
| PurchaseReturns.CorrectedRefinesAsWritten | back/src/services/purchase-return.service.ts:53-105 | every return the corrected check accepts, the code as written accepts too, with the same lines and refund |
| PurchaseReturns.ReturnedOfNonNegative | back/src/services/purchase-return.service.ts:132 | positive lines return a non-negative total of each batch |
| PurchaseReturns.ReturnRequiredPass | back/src/services/purchase-return.service.ts:31 | the return's required fields pass exactly when purchase, items and type are given |
| PurchaseReturns.NoItemsRejected | back/src/services/purchase-return.service.ts:33-37 | a return with an empty item list is refused |
| PurchaseReturns.PlanReturnFacts | back/src/services/purchase-return.service.ts:27-162 | a recorded return has one line per requested line, refunds Σ subtotals, names the purchase's number, uses only the purchase's batches, rejects no valid date, and leaves every batch non-negative with the same set of batches |
| PurchaseReturns.RunLines | back/src/services/purchase-return.service.ts:53-138 | the line loop computes the corrected walk, and on success the ledger after it |
| PurchaseReturns.CumulativeStep | back/src/services/purchase-return.service.ts:53-105 | one more line either ends the walk with its error or extends the lines and the refund |
| PurchaseReturns.CumulativeErrSticky | back/src/services/purchase-return.service.ts:53-105 | once a line fails, the whole loop fails with that error |
| PurchaseReturns.RunPlan | back/src/services/purchase-return.service.ts:27-157 | the checks in the source's order and the line loop yield exactly the planned return and ledger, or the planned error |
| PurchaseReturns.ReturnService.Create | back/src/services/purchase-return.service.ts:27-162 | `create`: on an error neither batches nor returns change; on success the return is appended with the day's return number and the batches become the planned ledger, in one step |
| Allocation.Allocate | back/src/services/sale.service.ts:214-253 | the walk draws from at most as many batches as it is given |
| Allocation.AllocateAsWritten | back/src/services/sale.service.ts:214-253 | the walk as written, with no expiry skip, draws from at most as many batches as it is given |
| Allocation.AllocateConserves | back/src/services/sale.service.ts:223-252 | what the walk takes plus what remains is exactly the quantity asked for |
| Allocation.AllocateRemaining | back/src/services/sale.service.ts:214-255 | nothing remains when the non-expired stock covers the quantity, and otherwise the shortfall remains |
| Allocation.AvailableNonNegative | back/src/services/sale.service.ts:134-137 | the non-expired stock of batches with non-negative quantities is not negative |
| Allocation.AllocateFifo | back/src/services/sale.service.ts:214-227 | the walk draws from the non-expired batches in their order, oldest first, takes a positive quantity no larger than each batch holds, and empties every batch before the last it touches |
| Allocation.AllocateSkipsExpired | back/src/services/sale.service.ts:217-221 | no batch whose expiration date has come is drawn |
| Allocation.AsWrittenSellsExpired | back/src/services/sale.service.ts:188-221 | as written (the expiry test compares with a server-timestamp sentinel, so it never skips), an expired older batch is sold where the intended walk takes the sound one |
| Sales.ValidatePayment | back/src/services/sale.service.ts:37-70 | a payment passes exactly when it is not mixed, or is mixed with a breakdown whose sum is above 0 and whose parts are each non-negative; a missing breakdown and a non-positive sum are refused first; every failure is BadRequest |
| Sales.ItemRequiredPass | back/src/services/sale.service.ts:77 | an item's required fields pass exactly when it names a product and has a non-zero quantity and price |
| Sales.StockCheckPass | back/src/services/sale.service.ts:104-143 | for a positive quantity the stock pre-check passes exactly when the product's non-expired stock covers it |
| Sales.CheckItemSpec | back/src/services/sale.service.ts:76-158 | an item is accepted exactly when it is acceptable (fields, quantity above 0, price not negative, known active product, enough non-expired stock); it is then kept with the product's name and sale type, subtotal = quantity × price and no usages; a failed required-field check is reported as is |
| Sales.CheckItemInSpec | back/src/services/sale.service.ts:76-158 | the same acceptance and kept item, stated over the product's batches in stock |
| Sales.FreeItemRejected | back/src/services/sale.service.ts:77-85 | an item priced 0 is refused as a missing field, although the explicit check only refuses a negative price |
| Sales.Totals | back/src/services/sale.service.ts:161-182 | totals are accepted exactly when the discount does not exceed the subtotal and a mixed breakdown is within 0.01 of the total; discount and total are then non-negative and add up to the subtotal; a positive discount is applied as given |
| Sales.Usages | back/src/services/sale.service.ts:236-239 | one usage per draw |
| Sales.MovementsFor | back/src/services/sale.service.ts:242-250 | one movement per usage, for this sale, batch and product, with quantity = -used |
| Sales.ConsumeBatches | back/src/services/sale.service.ts:214-253 | the inner loop computes the walk: the remainder, the written batches and the usages |
| Sales.FifoCandidatesStocked | back/src/services/sale.service.ts:200-205 | the transaction reads only the product's batches that hold stock |
| Sales.DrawsFromLedger | back/src/services/sale.service.ts:200-227 | every draw is from a ledger batch of the product as stored, not expired, and takes a positive quantity no larger than the batch holds |
| Sales.ApplyDrawsWellFormed | back/src/services/sale.service.ts:227-233 | writing the drawn batches keeps every quantity non-negative and the set of batches unchanged |
| Sales.SumUsagesOfDraws | back/src/services/sale.service.ts:236-239 | the recorded usages add up to what the walk took |
| Sales.DrawnAll | back/src/services/sale.service.ts:197-259 | when nothing remains, the usages add up to exactly the item's quantity |
| Sales.ConsumeItemKeepsLedger | back/src/services/sale.service.ts:193-259 | a consumed item leaves every batch non-negative and the set of batches unchanged |
| Sales.ConsumeItemTakesQuantity | back/src/services/sale.service.ts:193-259 | a consumed item is unchanged but for its usages, which add up to its quantity and name batches of its product |
| Sales.CheckedItemIsDrawn | back/src/services/sale.service.ts:104-143 | an item the pre-check accepts is fully drawn when the transaction sees the same ledger |
| Sales.Transact | back/src/services/sale.service.ts:191-260 | a successful transaction yields one item per requested item |
| Sales.TransactErrSticky | back/src/services/sale.service.ts:255-259 | once an item fails, the whole transaction fails with that error |
| Sales.TransactStep | back/src/services/sale.service.ts:193-260 | one more item either ends the transaction with its error or extends the items, movements and written batches |
| Sales.ConsumeOne | back/src/services/sale.service.ts:194-259 | one pass of the outer loop computes the item's consumption |
| Sales.ConsumeAll | back/src/services/sale.service.ts:191-260 | the outer loop computes the whole transaction |
| Sales.TransactInvariant | back/src/services/sale.service.ts:191-260 | an invariant every item step keeps holds of the whole transaction, and a per-item property holds of every item |
| Sales.TransactSound | back/src/services/sale.service.ts:191-260 | after the transaction every batch is non-negative, the set of batches is unchanged, and every item's usages add up to its quantity |
| Sales.SaleRequiredPass | back/src/services/sale.service.ts:31 | the sale's required fields pass exactly when items and payment method are given |
| Sales.NoItemsRejected | back/src/services/sale.service.ts:33-35 | a sale with an empty item list is refused |
| Sales.PreCheck | back/src/services/sale.service.ts:30-182 | the validation before the transaction computes exactly the checked items and subtotal or the first error |
| Sales.CheckSaleWalk | back/src/services/sale.service.ts:73-159 | the validation's item loop is the walk of the item check over the request |
| Sales.WalkedItems | back/src/services/sale.service.ts:73-159 | the walked items are one acceptable, checked item per request line, and subtotal = Σ item subtotals |
| Sales.CheckSaleItems | back/src/services/sale.service.ts:73-159 | a validated sale has one acceptable checked item per requested item and subtotal = Σ item subtotals |
| Sales.PlanSaleItems | back/src/services/sale.service.ts:30-286 | a recorded sale has one item per requested one, each acceptable, equal to its checked form but for its usages, which add up to its requested quantity |
| Sales.ConsumedItems | back/src/services/sale.service.ts:191-260 | the transaction changes the checked items only in their usages, keeps the subtotal, and fills each item's usages up to its quantity |
| Sales.PlanSaleParts | back/src/services/sale.service.ts:30-286 | a recorded sale is the validation followed by a successful transaction over its items |
| Sales.PlanSaleTotals | back/src/services/sale.service.ts:161-182 | a recorded sale has total = subtotal - discount ≥ 0, the effective discount, the request's payment method and breakdown, and a mixed breakdown with sum above 0, non-negative parts and within 0.01 of the total |
| Sales.PlanSaleLedger | back/src/services/sale.service.ts:191-260 | a recorded sale leaves every batch non-negative and the set of batches unchanged |
| Sales.MovementsOfSale | back/src/services/sale.service.ts:242-250 | every movement of the transaction names the sale |
| Sales.PlanSaleMovements | back/src/services/sale.service.ts:242-264 | the sale carries its id, and so does every movement it writes |
| Sales.RunSale | back/src/services/sale.service.ts:30-286 | the validation and the transaction's loops compute exactly the planned sale or error |
| Sales.TallyPartitions | back/src/services/sale.service.ts:426-439 | the four payment methods partition the sales: their counts add up to the number of sales and their amounts to the total amount |
| Sales.TallyPayments | back/src/services/sale.service.ts:426-439 | the counting loop, starting every method at zero, computes the per-method tally |
| Sales.SaleService.Create | back/src/services/sale.service.ts:30-286 | `create`: on an error nothing changes; on success the sale (numbered for the day) and its movements are appended and the batches become the planned ledger, in one step |
| Sales.SaleService.GetStats | back/src/services/sale.service.ts:385-447 | `getStats` over the sales selected by seller and date range: their number, Σ totals, Σ item quantities and the per-method tally |
| Reports.NameOf | back/src/services/report.service.ts:485-491 | a product's name in the report is never empty ("Desconocido" stands in for a missing or empty one) |
| Reports.StockInSnoc | back/src/services/report.service.ts:437-441 | the stock map gains exactly the next batch's quantity under that batch's product |
| Reports.StockInFiltered | back/src/services/report.service.ts:429-441 | a product's stock over the batches in stock is the sum of that product's batches in stock |
| Reports.StockInIsStock | back/src/services/report.service.ts:429-441 | the report's per-product stock equals the batch service's stock of that product |
| Reports.StockMap | back/src/services/report.service.ts:437-441 | the stock-map loop maps every product to its summed quantity (0 when absent) |
| Reports.LowStockRowsSpec | back/src/services/report.service.ts:443-458 | every row is an active product, with its stock and the minimum `min_sale_quantity \|\| 1`, whose stock is below that minimum, critical exactly at zero; every such product has its row |
| Reports.LowStockProducts | back/src/services/report.service.ts:423-461 | `getLowStockProducts`: the rows, stably sorted by ascending stock |
| Reports.ThresholdsDiffer | back/src/services/report.service.ts:447 | the report's threshold (`\|\| 1`) and the alerts' threshold (`?? 0`) agree exactly when the product has a non-zero minimum; otherwise they are 1 and 0 |
| Reports.ReportedNotAlerted | back/src/services/report.service.ts:445-458 | a product without a minimum holding between 0 and 1 unit is in the low-stock report but raises no low-stock alert |
| Reports.AlertedIsReported | back/src/services/report.service.ts:445-458 | every product with a low-stock alert (and no negative minimum) is in the report, with the same status |
| Reports.ExpiringRowsSpec | back/src/services/report.service.ts:495-519 | every row is a batch in stock with an expiration date, copying its id, product and quantity, with the rounded-up day count at most the horizon and the status that count gives; every such batch has its row |
| Reports.ExpiringProducts | back/src/services/report.service.ts:466-524 | `getExpiringProducts`: the rows for the horizon (`days \|\| 7`), stably sorted by ascending day count |
| Reports.CollectExpiringRows | back/src/services/report.service.ts:495-519 | the loop collects exactly the rows, in batch order |
| Reports.ReportAgreesWithAlerts | back/src/services/report.service.ts:495-519 | with the 7-day horizon a batch is in the report exactly when it raises an expiry alert, with the same day count and status |
| Reports.LowStockCountIsReport | back/src/services/report.service.ts:94-97 | the dashboard's low-stock count is the length of the low-stock report |
| Reports.ExpiringSoonWithinReport | back/src/services/report.service.ts:99-106 | the dashboard's expiring-soon count is at most the 7-day report's length, and every batch it counts (1..7 days) has a non-expired row in that report |
| Reports.SliceTo | back/src/services/report.service.ts:359 | `slice(0, n)` is a prefix: n items when n is within the length, all of them beyond, and a negative n drops that many from the end |
| Reports.RankedSpec | back/src/services/report.service.ts:350-359 | the ranked rows are at most the limit, descending by key, each the row of one group, all rows when the limit covers every group, and distinct when the groups' rows are |
| Reports.WasteSelectionMembers | back/src/services/report.service.ts:617-636 | an adjustment is summarised exactly when it is a waste type within the date range |
| Reports.WasteLines | back/src/services/report.service.ts:677-703 | one grouping line per summarised adjustment |
| Reports.TypeWasteOf | back/src/services/report.service.ts:683-686 | a type's count is at most the number of adjustments and its quantity is not negative |
| Reports.WasteByTypePartition | back/src/services/report.service.ts:677-686 | the two waste types partition the waste: counts add up to the number of adjustments, quantities to Σ\|quantity\|, values to the total value |
| Reports.WasteLinesQuantity | back/src/services/report.service.ts:700-702 | the per-product quantities add up to Σ\|quantity\| |
| Reports.WasteSummaryByType | back/src/services/report.service.ts:661-716 | `by_type` holds both types (from zero) and they add up to the selection's count, to `total_waste` and to `total_waste_value` |
| Reports.WasteSummaryByProduct | back/src/services/report.service.ts:689-725 | `by_product` has at most 10 entries, descending by value, each the product's summed quantity and value (value = \|quantity\| × the batch's price, 0 without a batch) |
| Reports.WasteSummaryComplete | back/src/services/report.service.ts:689-725 | the per-product quantities add up to `total_waste`, and with at most 10 products every wasted product is listed |
| Reports.WasteSummaryOf | back/src/services/report.service.ts:607-727 | `getWasteSummary` computes the specified summary |
| Reports.WasteTally | back/src/services/report.service.ts:677-703 | the forEach computes the total value, both per-type tallies and the per-product groups |
| Reports.WasteStep | back/src/services/report.service.ts:677-703 | one more adjustment adds its value to the total, tallies its own type only, and adds its line to its product's group |
| Reports.ItemLines | back/src/services/report.service.ts:332-346 | one grouping line per sale item |
| Reports.SalesInMembers | back/src/services/report.service.ts:306-318 | a sale is counted exactly when it lies within the inclusive date bounds |
| Reports.TopSellingSpec | back/src/services/report.service.ts:296-362 | at most `limit \|\| 10` rows, descending by quantity, one per product, each with the product's summed quantity, amount and count of lines; every product sold is listed when the limit covers them all |
| Reports.TopSellingProducts | back/src/services/report.service.ts:296-362 | `getTopSellingProducts` computes the specified ranking |
| Reports.AddItems | back/src/services/report.service.ts:332-346 | the inner forEach adds one sale's items to the product groups |
| Reports.ItemLinesStep | back/src/services/report.service.ts:332-346 | one more item adds its line to its product's group |
| Reports.SaleLinesStep | back/src/services/report.service.ts:331-347 | one more sale contributes the lines of its items |
| Reports.NoteSaleSpec | back/src/services/report.service.ts:561-569 | after one sale a product's last sale is that sale's date when it sold the product later than the kept date, and is unchanged otherwise |
| Reports.LastSalesSpec | back/src/services/report.service.ts:559-569 | the last-sale map holds, for each product, its latest sale date |
| Reports.LastSaleOfIsLatest | back/src/services/report.service.ts:559-569 | a product has a last sale exactly when some sale sold it, and that date is the latest of those sales' dates |
| Reports.SlowRowsSpec | back/src/services/report.service.ts:573-597 | every row is an active product in stock whose last sale is missing or before the cutoff, with 999 days when there is none and otherwise the rounded-up days since; every such product has its row |
| Reports.DaysSinceBeyondWindow | back/src/services/report.service.ts:579-582 | a last sale before the cutoff lies more than the window's days in the past |
| Reports.SlowMovingSpec | back/src/services/report.service.ts:529-602 | the report is descending by days since the last sale; each row has the product's stock (non-zero), its last sale, and more days than the window (`days_without_sales \|\| 30`) or 999 |
| Reports.LastSaleMap | back/src/services/report.service.ts:559-569 | the forEach computes the last-sale map |
| Reports.SlowMovingProducts | back/src/services/report.service.ts:529-602 | `getSlowMovingProducts` computes the specified report |
| Reports.CollectSlowRows | back/src/services/report.service.ts:571-597 | the loop collects exactly the rows, in product order |
| Reports.PendingCount | back/src/services/report.service.ts:65-67 | the pending purchases are at most all purchases |
| Reports.ActiveCount | back/src/services/report.service.ts:82-85 | the active products are at most all products |
| Reports.WasteSince | back/src/services/report.service.ts:114-138 | a waste total is never negative |
| Reports.WasteSinceMonotone | back/src/services/report.service.ts:114-138 | the waste since a later start is at most that since an earlier start, which is at most the total |
| Reports.WasteSinceIsSelection | back/src/services/report.service.ts:114-138 | the dashboard's waste figures are Σ\|quantity\| over the waste adjustments from the start |
| Reports.SalesSinceIsSelection | back/src/services/report.service.ts:52-60 | the dashboard's sales figures are Σ totals over the sales from the start |
| Reports.DashboardMatchesReports | back/src/services/report.service.ts:41-165 | the dashboard's waste totals equal the waste summary's over the same ranges (week ≤ month ≤ total when the month starts first), its sales figures the dated selections' totals, its low-stock count the report's length, and its expiring-soon count at most the 7-day report's length |
| Reports.Dashboard | back/src/services/report.service.ts:41-164 | the pending count is at most the number of purchases; the low-stock count is at most the active products, which are at most all products; the expiring-soon count is at most the number of batches; the three waste figures are not negative; with no negative quantity or price, the inventory value read over the batches in stock equals the value of every batch and is not negative |
| Reports.InventoryValue | back/src/services/report.service.ts:77-80 | Σ quantity × purchase price is not negative when no quantity or price is |
| Reports.Worth | back/src/services/report.service.ts:78 | one batch's worth is not negative with a non-negative quantity and price, and zero with no quantity |
| Reports.InventoryValueAppend | back/src/services/report.service.ts:77-80 | the value of two batch lists put together is the sum of their values |
| Reports.InventoryValueOfStocked | back/src/services/report.service.ts:73-80 | keeping only the batches with quantity above zero does not change the value when no quantity is negative |
| Reports.DashboardValue | back/src/services/report.service.ts:73-80 | the dashboard's value over the stocked batches equals the value over all batches and is not negative, given no negative quantity or price |
| Reports.LowStockCount | back/src/services/report.service.ts:87-97 | the low-stock count is at most the number of products read |
| Reports.LowStockWithinActive | back/src/services/report.service.ts:82-97 | only active products are counted as low on stock |
| Reports.ExpiringSoonCount | back/src/services/report.service.ts:99-106 | the expiring-soon count is at most the number of batches read |
| Sorting.InsertElements | back/src/services/inventory-batch.service.ts:327-331 | inserting adds exactly the new element |
| Sorting.InsertSorted | back/src/services/inventory-batch.service.ts:327-331 | inserting into a sorted list keeps it sorted |
| Sorting.SortByCorrect | back/src/services/inventory-batch.service.ts:327-331 | `Array.prototype.sort` with a key comparator returns a sorted permutation of its input |
| Sorting.SortByMembers | back/src/services/inventory-batch.service.ts:327-331 | sorting keeps exactly the same elements |
| Sorting.Reverse | back/src/services/inventory-batch.service.ts:129 | element i of the reversal is element n-1-i |
| Sorting.ReverseDescending | back/src/services/inventory-batch.service.ts:129 | reversing an ascending order gives a descending one, as `orderBy(..., "desc")` |
| Sorting.Filter | back/src/services/inventory-batch.service.ts:136-142 | `filter` keeps only elements that pass, and no more than there were |
| Sorting.FilterMembers | back/src/services/inventory-batch.service.ts:136-142 | an element is kept exactly when it is present and passes |
| Sorting.SortedIds | back/src/services/inventory-batch.service.ts:345-351 | a query without `orderBy` returns each document once, by ascending document id |
| ItemLoop.SumSame | back/src/services/purchase.service.ts:93-94 | sums of amounts that agree item by item are equal |
| ItemLoop.WalkOk | back/src/services/purchase.service.ts:54-114 | a line loop succeeds exactly when every line passes its check |
| ItemLoop.WalkContents | back/src/services/purchase.service.ts:54-114 | a successful line loop keeps each line's checked form, in order, and its running total is their sum |
| ItemLoop.WalkFirstError | back/src/services/purchase.service.ts:54-114 | a line loop fails with the error of the first line that fails |
| ItemLoop.WalkErrSticky | back/src/services/purchase.service.ts:54-114 | once a prefix fails, the whole loop fails with the same error |
| ItemLoop.Prepare | back/src/services/purchase.service.ts:51-114 | the accumulating loop over the lines computes the walk: the kept lines and the running total, or the first error |
| Grouping.IndexOf | back/src/services/report.service.ts:333 | the index found is the first group of that product, and -1 exactly when there is none |
| Grouping.AddLookup | back/src/services/report.service.ts:333-345 | adding a line creates its product's group with count 1 or adds quantity, amount and 1 to it, and leaves every other group alone |
| Grouping.GroupAllDistinct | back/src/services/report.service.ts:321-347 | each product has at most one group |
| Grouping.GroupAllSpec | back/src/services/report.service.ts:321-347 | a product's group holds the first line's name and the sums of its lines' quantities and amounts and their number, and is absent when it has no line |
| Grouping.NoLinesNoTotals | back/src/services/report.service.ts:321-347 | a product without lines has no quantity and no amount |
| Grouping.GroupAllEntries | back/src/services/report.service.ts:350-357 | every group is the expected group of its product |
| Grouping.GroupAllKeys | back/src/services/report.service.ts:350-357 | a product has a group exactly when it has a line |
| Grouping.TotalQuantityUpdate | back/src/services/report.service.ts:343 | updating one group changes the total by that group's change |
| Grouping.GroupAllTotal | back/src/services/report.service.ts:321-347 | the groups' quantities add up to the lines' quantities |
| InventoryBatches.Ledger.constructor | back/src/services/inventory-batch.service.ts:22-25 | the ledger starts as an empty `inventory_batches` collection, with the id counter at 0 |
| InventoryBatches.InIdOrderMembers | back/src/services/inventory-batch.service.ts:345-351 | the unordered query returns exactly the stored batches |
| InventoryAdjustments.AdjustmentService.constructor | back/src/services/inventory-adjustment.service.ts:15-17 | the adjustment log starts empty |
| Purchases.PurchaseService.constructor | back/src/services/purchase.service.ts:21-25 | the `purchases` collection starts empty |
| PurchaseReturns.ReturnService.constructor | back/src/services/purchase-return.service.ts:19-22 | the `purchase_returns` collection starts empty |
| PurchaseReturns.ApplyStep | back/src/services/purchase-return.service.ts:125-157 | applying one more line takes that line's quantity from its batch in the ledger left by the earlier lines |
| PurchaseReturns.CumulativeAccepts | back/src/services/purchase-return.service.ts:53-105 | a line that passes its check against the ledger left by the earlier lines is kept, and its subtotal is added to the refund |
| PurchaseReturns.CumulativeRefuses | back/src/services/purchase-return.service.ts:53-105 | a line that fails its check ends the whole loop with that error |
| Sales.SaleService.constructor | back/src/services/sale.service.ts:21-25 | the `sales` and `sale_inventory_movements` collections start empty |
| Sales.AllocateSkips | back/src/services/sale.service.ts:214-253 | with units still to draw, an expired batch is passed over without drawing from it |
| Sales.AllocateTakes | back/src/services/sale.service.ts:214-253 | a batch that is not expired gives the smaller of the units still needed and its stock, and the rest is drawn from the later batches |
| Sales.ApplyDrawsStep | back/src/services/sale.service.ts:223-233 | one more draw updates only its own batch, to the drawn-down quantity |

## Left out

- Firestore I/O: each transaction is one atomic step over an in-memory map. Retries, contention and concurrent writers are not modelled.
- Reads inside a transaction see the transaction's own earlier writes. Firestore instead refuses any read after a write in the same transaction. The sale and purchase-return transactions both read after writing, as the lines below say.
- Sales.SaleService.Create: the sale transaction reads item k+1's batches (back/src/services/sale.service.ts:199) after writing item k's batches (line 228). Firestore refuses that read, so in the source every sale with two or more items fails and nothing is written. The model completes such sales, drawing each later item from the batches the earlier items left (`Sales.Transact`, `Sales.ConsumeAll`, `Sales.RunSale`, `Sales.TransactSound`). Single-item sales are not affected.
- PurchaseReturns.ReturnService.Create: the return transaction reads each line's batch (back/src/services/purchase-return.service.ts:128) after writing the previous line's batch (line 133). So in the source every return with two or more lines fails and nothing is written. The model completes it, checking each line against what the earlier lines left.
- Purchases.PurchaseService.MarkAsReceived: in the source no purchase can be received. `create` stores a line's expiration as a Date, which Firestore reads back as a Timestamp. `Timestamp.fromDate` (back/src/services/purchase.service.ts:229) then throws on it, because a Timestamp has no `getTime`. A line without a date writes `expiration_date: undefined`, which Firestore rejects. The model completes the receipt: a dated line's batch keeps the date, and an undated line's batch has none.
- `FieldValue.serverTimestamp()` stands for the commit time; the model uses the `now` parameter. The sale's expiry test against that sentinel is the first finding below.
- Date parsing (`new Date(...)`) is opaque: a date input is absent, invalid or a parsed instant in milliseconds.
- Local calendar arithmetic and daylight saving are not modelled. The start of today and the start of the month are parameters (local midnight). The week start (`setDate(getDate() - 7)` on today's start, report.service.ts:44-45) and the slow-mover cutoff (report.service.ts:533-534) are computed by `Reports.WeekStart` and `Reports.Cutoff` as whole days of milliseconds back from today's start and from now, so a week or window that crosses a daylight-saving change is off by that hour. The `toISOString` date used in document numbers is a parameter.
- The count of today's documents that document numbering reads is a parameter.
- Floating-point rounding and `NaN` are not modelled: numbers are exact reals.
- `getSalesByPeriod` (report.service.ts:169-232) with its average ticket, `getSalesComparison` (report.service.ts:234-294) with its growth percentages, and `getSalesByPaymentMethod` (report.service.ts:367-421) are not modelled. Each is a grouping or a ratio over sales like the reports that are.
- Queries without `orderBy` are modelled in ascending document-id order (`Sorting.SortedIds`, `InventoryBatches.InStock`). Firestore orders a query with an inequality filter by that field first (`current_quantity > 0` at inventory-batch.service.ts:346 and report.service.ts:74, 430, 475, 545; the FIFO query at sale.service.ts:107-108 filters on one field and orders by another). The reports re-sort or sum these rows, so only the order among rows with equal sort keys can differ.
- These read paths are not modelled: `getAll` and `getById` of sales, purchases and returns; the purchase service's `getStats`; the batch service's `update` and `getById`; the adjustment service's `getById` and `getByBatchId`.
- Purchase returns do not check the purchase's status, and neither does the model.
- InventoryAdjustments.AdjustmentService.Create: the adjustment type is one of the three declared values. The source stores any string (back/src/services/inventory-adjustment.service.ts:43-69), and `getAdjustmentsSummary` then throws on an unknown type at line 225.
- Sales.SaleService.GetStats: the payment method is one of the four declared values. The source stores any string (back/src/services/sale.service.ts:270), and `getStats` then throws on an unknown method at line 437.
- Purchases.PurchaseService.Create: the purchase type is one of the declared values, while the source stores any string (back/src/services/purchase.service.ts:142).
- PurchaseReturns.ReturnService.Create: the return type and each line's reason are one of the declared values, while the source stores any string (back/src/services/purchase-return.service.ts:97 and 149).
- Product and supplier lookups take the first document with the id, since Firestore ids are unique.
- Authentication, controllers, routes and the front end are not part of this model.
- Allocation.Allocate: its own contract only bounds the number of draws. What it takes, what remains and first-in first-out order are stated by `AllocateConserves`, `AllocateRemaining` and `AllocateFifo`.
- Reports.PendingCount: its own contract only bounds the count. Which purchases are pending is the selection it is defined by.
- Reports.ActiveCount: its own contract only bounds the count. Which products are active is the selection it is defined by.

## Findings

| source | as written | input that shows it | evidently intended | confidence | as-written member | corrected member |
|---|---|---|---|---|---|---|
| back/src/services/sale.service.ts:188-221 | `now` is the `FieldValue.serverTimestamp()` sentinel, not a date. So `expDate <= now` never holds, and the FIFO loop never skips an expired batch. | An expired older batch (expires at 5, now is 10, 5 units) and a sound batch; selling 5 units | Expired batches are skipped, as the stock check before the transaction assumes | not executed | Allocation.AsWrittenSellsExpired | Allocation.AllocateSkipsExpired |
| back/src/services/purchase-return.service.ts:53-138 | Every line is checked against the batch quantity read before the transaction. Two lines on the same batch each pass alone. | Two lines of 5 units on a batch holding 5: both pass the check, so 10 units are accepted for return against 5 in stock. Under the model's read-your-writes transaction the batch would end at -5. Firestore itself refuses the second line's read after the first line's write (line 128 after line 133), so the return fails | Each line is checked against what the earlier lines left, so no batch goes negative | not executed | PurchaseReturns.AsWrittenOverReturns | PurchaseReturns.PlanLinesSound |
