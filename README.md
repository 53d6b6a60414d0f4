# Loyverse back-office services in Dafny

This project models the logic core of a retail back-office API that mirrors a
Loyverse point-of-sale account into a document store and reports on it:

- the **Loyverse ingestion pipeline**: the webhook event state machine
  (signature check, idempotency short-circuit, `pending` record, dispatch by
  event type, then `processed`, `skipped` or `failed`), the five event
  handlers with their field-by-field transforms, the store, employee and
  item syncs, and the two cursor-paginated range syncs (receipts and shifts)
  with their buffered batches and per-record failure isolation;
- the **receipts service**: create, filtered and paged listing, lookups,
  partial update, upsert by Loyverse id, delete, and the two aggregation
  pipelines (sales per day, payments per day and method);
- the **shifts service**: the same document operations, the recalculation of
  a shift's sales figures and cash difference from the receipts, and the
  per-shift summary listing;
- the **reports service**: the sales summary, the shift summary and the
  dashboard figures.

Modules follow the source's structure:

| file | module | models |
|---|---|---|
| `wrappers.dfy` | `Wrappers` | `Option` and `Result` |
| `models.dfy` | `Models` | receipt and shift schemas, `meta`, stored documents, service errors |
| `collection.dfy` | `Collection` | the document collection and its unique index |
| `listing.dfy` | `Listing` | `sort({closed_at: -1}).skip().limit()`, order-independent sums |
| `receipt_totals.dfy` | `ReceiptTotals` | the two receipt aggregation pipelines |
| `receipts.dfy` | `Receipts` | `ReceiptsService` |
| `shifts.dfy` | `Shifts` | `ShiftsService`, the recalculation and the summary listing |
| `reports.dfy` | `Reports` | `ReportsService` |
| `loyverse_transforms.dfy` | `LoyverseTransforms` | upstream records and their transforms |
| `loyverse_paging.dfy` | `LoyversePaging` | the cursor walk, batching, and the two kinds of write loops |
| `loyverse_service.dfy` | `Loyverse` | the webhook state machine and `LoyverseService` |

The services that change their collections are classes: `ReceiptsService`
and `ShiftsService` each hold their documents as a sequence in natural
order, and `LoyverseService` holds one map per collection keyed by
`loyverse_id`, plus the webhook event records keyed by event id. Every
state-changing method is proved against a function of the old state. For
example, `HandleWebhookEvent` is proved to do what the pure `Deliver` does,
and the range syncs write what `Isolated` over the `Batching` of the `Walk`
writes. The lemmas then state what the source promises about those
functions.

Conventions:

- Money is integer cents.
- Timestamps are integer milliseconds.
- The day key of `$dateToString` is `Day(t) = t / 86400000`; the order of day numbers is the order of the formatted day strings.
- JavaScript truthiness of an optional string (`x || d`, `!!cursor`, `if (storeId)`) is `Truthy`.
- The HMAC of the payload and its JSON serialisation are parameters of the service's environment (`Env`).
- The document store's refusal of a write is also a parameter: `Env.faults` gives, per collection and key, the error the store raises, if any.
- The upstream API is a finite sequence of answers (`Upstream`): answer k is either a page with its cursor or an error. A request beyond the last answer fails with a connection error.

Four behaviours of the code are worth stating outright, since the model
keeps them:

- **A rejected signature.** The rejection goes through the same catch as every other failure: an existing event record, even a processed one, is marked `failed`, and no new record is created (`Loyverse.RejectedSignatureCreatesNothing`).
- **A missing signature header.** Only a truthy header is checked, so an event without one is accepted (`Loyverse.SignatureRejected`).
- **Failure handling in the store and employee syncs.** There is no per-record catch: the first failure ends the sync, and what was written before it stays written (`LoyversePaging.Aborting`).
- **Paging in the store and employee syncs.** They read one listing response and do not follow cursors.

The receipt and shift maps of `LoyverseService` and the document sequences
of `ReceiptsService` and `ShiftsService` stand for the same two collections
but are kept apart: a webhook or sync write in the model does not show up in
`ReceiptsService.FindAll`, nor the other way round.

## Model

| member | source | states |
|---|---|---|
| Listing.SortDesc | apps/api/src/modules/receipts/receipts.service.ts:51 | `sort({closed_at: -1})` yields a permutation of the matches, ordered by `closed_at` descending with missing dates last |
| Listing.InsertDescSorted | apps/api/src/modules/receipts/receipts.service.ts:51 | inserting one document into a descending listing keeps it descending |
| Listing.Paginate | apps/api/src/modules/receipts/receipts.service.ts:52-53 | `skip(s).limit(l)` holds min(l, n - s) elements (none past the end), element i being element s + i of the listing |
| Listing.Where | apps/api/src/modules/receipts/receipts.service.ts:50 | `find(filter)` yields only stored documents satisfying the filter, every one of them, none more often than stored |
| Listing.PageOfIndex | apps/api/src/modules/receipts/receipts.service.ts:22 | with `skip = (page - 1) * limit`, the i-th matching document is on page i / limit + 1 at position i % limit |
| Listing.PageOfSorted | apps/api/src/modules/receipts/receipts.service.ts:49-54 | a page of a sorted listing is sorted and holds only listed documents |
| Listing.SumByPermutation | apps/api/src/modules/reports/reports.service.ts:79-84 | a sum over the shifts does not depend on their order |
| Collection.InsertWellFormed | apps/api/src/modules/receipts/receipts.service.ts:16-17 | saving a document that does not clash keeps ids distinct and the `loyverse_id` index unique |
| Collection.PutWellFormed | apps/api/src/modules/receipts/receipts.service.ts:78-80 | an in-place update that does not clash keeps the collection invariant |
| Collection.DeleteWellFormed | apps/api/src/modules/receipts/receipts.service.ts:101 | a delete keeps the collection invariant |
| Collection.SameKeyNoClash | apps/api/src/modules/receipts/receipts.service.ts:92 | rewriting a document without changing its key never violates the unique index |
| Models.UniqueKeyCount | apps/api/src/modules/receipts/receipts.service.ts:87-98 | under the unique index a key is held by exactly one document when the lookup finds it, and by none otherwise |
| ReceiptTotals.Matching | apps/api/src/modules/receipts/receipts.service.ts:110-115 | `$match` keeps exactly the receipts of the store, with status `closed` and `closed_at` within [start, end] inclusive |
| ReceiptTotals.MatchingAppend | apps/api/src/modules/receipts/receipts.service.ts:110-115 | matching is per receipt: it distributes over concatenation |
| ReceiptTotals.AddToDayFind | apps/api/src/modules/receipts/receipts.service.ts:118-122 | adding a receipt changes only its day's group: a new group of count 1, or the old one with the total added and the count raised by one |
| ReceiptTotals.GroupByDayFind | apps/api/src/modules/receipts/receipts.service.ts:117-123 | a day has a group exactly when a receipt closed on it, and the group holds that day's sum of `total` and receipt count |
| ReceiptTotals.GroupByDaySums | apps/api/src/modules/receipts/receipts.service.ts:118-122 | the groups' sales add up to the sum over all grouped receipts and their counts to the number of receipts |
| ReceiptTotals.TotalsByDateRange | apps/api/src/modules/receipts/receipts.service.ts:108-126 | the day groups come out in ascending day order with one group per day |
| ReceiptTotals.DateRangeSums | apps/api/src/modules/receipts/receipts.service.ts:108-126 | the groups' `total_sales` add up to the total of the matching receipts and their `receipt_count`s to the number of matching receipts |
| ReceiptTotals.DateRangeGroups | apps/api/src/modules/receipts/receipts.service.ts:108-126 | every group is a day on which a matching receipt closed, with that day's sum and count, and every such day has a group |
| ReceiptTotals.LinesOf | apps/api/src/modules/receipts/receipts.service.ts:137 | `$unwind` yields one line per payment, in order, carrying the receipt's day, method and amount |
| ReceiptTotals.UnwindAppend | apps/api/src/modules/receipts/receipts.service.ts:137 | unwinding distributes over concatenation |
| ReceiptTotals.AddToMethods | apps/api/src/modules/receipts/receipts.service.ts:138-146 | adding a payment raises only its method's entry by the amount, or adds the entry; entries stay one per method; their sum rises by the amount |
| ReceiptTotals.AddLine | apps/api/src/modules/receipts/receipts.service.ts:138-158 | adding a payment line changes only its day's group and keeps the days ascending |
| ReceiptTotals.GroupLines | apps/api/src/modules/receipts/receipts.service.ts:147-159 | the day groups of the payment lines are in ascending day order |
| ReceiptTotals.BumpSummarises | apps/api/src/modules/receipts/receipts.service.ts:147-157 | adding the day's next payment to its day group keeps the group a summary of that day's payments |
| ReceiptTotals.GroupLinesFind | apps/api/src/modules/receipts/receipts.service.ts:138-158 | a day has a group exactly when it has a payment, and the group lists each method used once with that method's sum, with `total_day` equal to both the entries' sum and the day's payments |
| ReceiptTotals.TotalsByPaymentMethod | apps/api/src/modules/receipts/receipts.service.ts:128-161 | the payment-method groups come out in ascending day order |
| ReceiptTotals.PaymentMethodGroups | apps/api/src/modules/receipts/receipts.service.ts:128-161 | each group summarises a day with a matching payment (per-method sums, `total_day` the day's total), and every such day has a group |
| ReceiptTotals.NoPaymentsNoContribution | apps/api/src/modules/receipts/receipts.service.ts:137 | a receipt without payments, wherever it sits, leaves the payment-method totals as they are without it |
| Receipts.PatchLaws | apps/api/src/modules/receipts/receipts.service.ts:77-80 | an update with no fields changes nothing, and applying the same update twice equals applying it once |
| Receipts.UpsertOverwrites | apps/api/src/modules/receipts/receipts.service.ts:91-93 | updating with a payload yields exactly that payload iff every optional field it omits is already absent (omitted fields are kept, not cleared) |
| Receipts.InvalidPath | apps/api/src/models/receipt.model.ts:10-26 | apart from the `employee_id` cast (see Left out), a new receipt passes schema validation exactly when `loyverse_id`, `store_id` and `number` are non-empty, `status` is one of `closed`, `refunded`, `void`, and `closed_at` is present; `status` is reported when it is the first failing path, `closed_at` when it is the only one |
| Receipts.Selected | apps/api/src/modules/receipts/receipts.service.ts:24-46 | the filter keeps exactly the receipts meeting every truthy criterion (store, employee, status, `closed_at` bounds), each at most as often as stored |
| Receipts.ReceiptsService.constructor | apps/api/src/modules/receipts/receipts.service.ts:11-13 | the service starts with a well-formed empty collection |
| Receipts.ReceiptsService.Save | apps/api/src/modules/receipts/receipts.service.ts:16-17 | a receipt the schema refuses (`InvalidPath`) fails validation on that path and is not written, one whose `loyverse_id` is taken fails on the index, otherwise it is appended with a fresh id; the invariant is kept |
| Receipts.ReceiptsService.Create | apps/api/src/modules/receipts/receipts.service.ts:15-18 | as `Save`: the same validation and index errors, or the receipt appended under the next id |
| Receipts.ReceiptsService.FindAll | apps/api/src/modules/receipts/receipts.service.ts:20-59 | `data` is the requested page of the matches sorted latest first (at most `limit`, defaults 10 and page 1), only matching receipts, and `total` counts every match |
| Receipts.ReceiptsService.FindOne | apps/api/src/modules/receipts/receipts.service.ts:61-67 | the receipt with the id is returned exactly when one exists, otherwise NotFound carrying the id |
| Receipts.ReceiptsService.FindByLoyverseId | apps/api/src/modules/receipts/receipts.service.ts:69-75 | the receipt with the Loyverse id is returned exactly when one exists, otherwise NotFound carrying the key |
| Receipts.ReceiptsService.Update | apps/api/src/modules/receipts/receipts.service.ts:77-85 | NotFound for an unknown id; otherwise the receipt is patched in place (or the index refuses it) and no other document changes |
| Receipts.ReceiptsService.UpsertByLoyverseId | apps/api/src/modules/receipts/receipts.service.ts:87-98 | the holder of the key is patched in place, or the payload is saved as new under the same schema validation as `Save`; afterwards the receipt written is the only one with its Loyverse id |
| Receipts.ReceiptsService.Remove | apps/api/src/modules/receipts/receipts.service.ts:100-106 | NotFound for an unknown id; otherwise the receipt is returned and removed, the rest keeping their order, and no document has the id |
| Shifts.PatchLaws | apps/api/src/modules/shifts/shifts.service.ts:71-79 | an update with no fields changes nothing, and applying the same update twice equals applying it once |
| Shifts.MissingPath | apps/api/src/models/shift.model.ts:12-40 | a new shift passes validation exactly when `store_id` is non-empty and it has `expected_cash` and `cash_difference`; an empty `store_id` is the path reported |
| Shifts.Selected | apps/api/src/modules/shifts/shifts.service.ts:26-40 | the filter keeps exactly the shifts meeting every truthy criterion (store, `closed_at` bounds), each at most as often as stored |
| Shifts.SplitMethods | apps/api/src/modules/shifts/shifts.service.ts:113-129 | the loop over a day's methods assigns cash and card (the last entry wins) and adds every other method into other sales |
| Shifts.SplitOfDistinct | apps/api/src/modules/shifts/shifts.service.ts:120-128 | with one entry per method, cash and card are their entries' amounts and cash + card + other is the day's total |
| Shifts.RecalculatedFigures | apps/api/src/modules/shifts/shifts.service.ts:106-130 | the figures are all 0 when the window holds no payment; otherwise they come from the earliest day with a payment: cash and card are that day's cash and card payments and the three add up to that day's payments |
| Shifts.FiguresOfLines | apps/api/src/modules/shifts/shifts.service.ts:113-130 | the same, over the unwound payment lines |
| Shifts.FirstGroupIsEarliest | apps/api/src/modules/shifts/shifts.service.ts:117-118 | `receiptTotals[0]` is the earliest day that has a payment |
| Shifts.FirstGroupFigures | apps/api/src/modules/shifts/shifts.service.ts:117-128 | the figures read off the first day group are that day's cash, card and total payments |
| Shifts.RecalcPatchEffect | apps/api/src/modules/shifts/shifts.service.ts:132-145 | `expected_cash = opening_cash + cash_sales`, `expected_cash + cash_difference = counted_cash`, and no field other than the five figures changes |
| Shifts.RowsOf | apps/api/src/modules/shifts/shifts.service.ts:156-172 | `$project` maps each shift to its row, in order |
| Shifts.InWindowDocs | apps/api/src/modules/shifts/shifts.service.ts:150-155 | `$match` keeps exactly the store's shifts closed within [start, end], each at most as often as stored |
| Shifts.ShiftSummary | apps/api/src/modules/shifts/shifts.service.ts:148-175 | the rows are sorted by `closed_at` descending; each row is a projected shift of the window, and every shift of the window has a row |
| Shifts.SummaryRows | apps/api/src/modules/shifts/shifts.service.ts:148-175 | any descending arrangement of the window's shifts projects to rows with those properties |
| Shifts.ShiftsService.constructor | apps/api/src/modules/shifts/shifts.service.ts:12-15 | the service starts with a well-formed empty collection and the given receipts service |
| Shifts.ShiftsService.Save | apps/api/src/modules/shifts/shifts.service.ts:18-19 | a shift missing a required path (`MissingPath`) fails validation, one whose `loyverse_id` is taken fails on the sparse index, otherwise it is appended with a fresh id |
| Shifts.ShiftsService.Create | apps/api/src/modules/shifts/shifts.service.ts:17-20 | as `Save`: the same validation and index errors, or the shift appended under the next id |
| Shifts.ShiftsService.FindAll | apps/api/src/modules/shifts/shifts.service.ts:22-53 | `data` is the requested page of the matches sorted latest `closed_at` first (at most `limit`), and `total` counts every match |
| Shifts.ShiftsService.FindOne | apps/api/src/modules/shifts/shifts.service.ts:55-61 | the shift with the id is returned exactly when one exists, otherwise NotFound carrying the id |
| Shifts.ShiftsService.FindByLoyverseId | apps/api/src/modules/shifts/shifts.service.ts:63-69 | the shift with the Loyverse id is returned exactly when one exists, otherwise NotFound carrying the key |
| Shifts.ShiftsService.Update | apps/api/src/modules/shifts/shifts.service.ts:71-79 | NotFound for an unknown id; otherwise the shift is patched in place (or the index refuses it) and no other document changes |
| Shifts.ShiftsService.UpsertByLoyverseId | apps/api/src/modules/shifts/shifts.service.ts:81-92 | the holder of the key is patched in place, or the payload is saved as new; a shift written with a Loyverse id is the only one holding it |
| Shifts.ShiftsService.Remove | apps/api/src/modules/shifts/shifts.service.ts:94-100 | NotFound for an unknown id; otherwise the shift is returned and removed and no document has the id |
| Shifts.ShiftsService.RecalculateShiftTotals | apps/api/src/modules/shifts/shifts.service.ts:102-146 | NotFound for an unknown id; otherwise the shift is patched with the figures of the first payment-method day group of its store and window, and nothing else changes |
| Shifts.ShiftsService.GetShiftSummary | apps/api/src/modules/shifts/shifts.service.ts:148-175 | the rows are the summary of the store's shifts closed in the window, latest first |
| Reports.RowsSum | apps/api/src/modules/reports/reports.service.ts:79-84 | summing a figure over the projected rows equals summing it over the shifts |
| Reports.SummaryFigure | apps/api/src/modules/reports/reports.service.ts:76-85 | each summed figure of the summary rows is that figure summed over the window's shifts, missing ones as 0, and there is one row per shift |
| Reports.DayOverDayMeaning | apps/api/src/modules/reports/reports.service.ts:170-172 | with yesterday positive, the change is positive iff today beats yesterday, zero iff they are equal, and yesterday × (1 + change/100) = today; otherwise it is 0 |
| Reports.FirstGroupCountUndercounts | apps/api/src/modules/reports/reports.service.ts:178 | when today's window holds receipts of two UTC days, today's `receipt_count` is below the number of receipts its sales include |
| Reports.FirstGroupCountBound | apps/api/src/modules/reports/reports.service.ts:164-178 | the first group's count is at most the number of matched receipts, equal when the window holds at most one day, and the window's total covers every matched receipt |
| Reports.DashboardFigures | apps/api/src/modules/reports/reports.service.ts:128-179 | each period total is the sum of its matching receipts' totals (0 when none), today's count is bounded as above, and the change compares today with yesterday |
| Reports.ReportsService.constructor | apps/api/src/modules/reports/reports.service.ts:7-10 | the service keeps the receipts and shifts services it is given |
| Reports.ReportsService.GetSalesSummary | apps/api/src/modules/reports/reports.service.ts:12-56 | the daily and payment-method groups of the range, total sales and receipts equal to the matching receipts' total and number, and the average ticket guarded by a zero count |
| Reports.ReportsService.GetShiftSummary | apps/api/src/modules/reports/reports.service.ts:58-104 | shift count and the four totals are over the window's shifts with missing figures as 0, and total sales is cash + card + other |
| Reports.ReportsService.GetDashboardSummary | apps/api/src/modules/reports/reports.service.ts:106-197 | the dashboard is the one `DashboardFigures` describes, for the given day, week and month windows |
| LoyverseTransforms.PaymentsOf | apps/api/src/modules/integrations/loyverse/loyverse.service.ts:224-227 | payments keep their order, `type` renamed to `method` |
| LoyverseTransforms.LineItemsOf | apps/api/src/modules/integrations/loyverse/loyverse.service.ts:228-237 | line items keep their order, each renamed field by field |
| LoyverseTransforms.ReceiptFromWebhook | apps/api/src/modules/integrations/loyverse/loyverse.service.ts:209-245 | the webhook receipt is written exactly when `payments`, `line_items` and `closed_at` are present; a missing array throws the read-of-undefined error, a missing `closed_at` the Invalid Date refusal; the document copies every scalar field under its schema name (`number`, `status`, `discount_total`, `tax_total`, …), maps every payment and line item in order, and dates `last_modified_at` at `updated_at` or else `closed_at` |
| LoyverseTransforms.ReceiptFromBatch | apps/api/src/modules/integrations/loyverse/loyverse.service.ts:517-553 | the batch receipt never fails: it copies every scalar field under its schema name (a missing `closed_at` stays null), maps the payments and line items in order with a missing array as empty, and dates `last_modified_at` at `updated_at` or else `created_at` |
| LoyverseTransforms.ReceiptTransformsAgree | apps/api/src/modules/integrations/loyverse/loyverse.service.ts:550 | where the webhook transform succeeds both transforms write the same receipt, except the `last_modified_at` fallback when `updated_at` is missing |
| LoyverseTransforms.ShiftFromRaw | apps/api/src/modules/integrations/loyverse/loyverse.service.ts:261-281 | status is `closed` iff `closed_at` is present, amounts are renamed, `last_modified_at` falls back to `opened_at` |
| LoyverseTransforms.InventoryFromRaw | apps/api/src/modules/integrations/loyverse/loyverse.service.ts:577-592 | a missing or empty type is `adjustment`, missing notes are empty, `last_modified_at` falls back to `created_at` |
| LoyverseTransforms.ItemFromRaw | apps/api/src/modules/integrations/loyverse/loyverse.service.ts:613-632 | the item document copies name, reference, category, price, cost and stock; each of option groups, variants, taxes and modifiers is the webhook's array when present and empty otherwise; `last_modified_at` is `updated_at` or else `created_at` |
| LoyverseTransforms.ItemFromCatalog | apps/api/src/modules/integrations/loyverse/loyverse.service.ts:415-432 | names, category and price are mapped and the write is dated at the sync |
| LoyverseTransforms.EmployeeFromRaw | apps/api/src/modules/integrations/loyverse/loyverse.service.ts:653-667 | missing stores become empty; `last_modified_at` falls back to `created_at` |
| LoyverseTransforms.EmployeeFromSync | apps/api/src/modules/integrations/loyverse/loyverse.service.ts:360-373 | the sync transform throws exactly for an employee without stores, and otherwise keeps the store ids in order |
| LoyverseTransforms.StoreFromRaw | apps/api/src/modules/integrations/loyverse/loyverse.service.ts:312-329 | each of the six address fields is the upstream value when it is a non-empty string and the empty string otherwise, a missing address giving six empty strings; the write is dated at the sync |
| LoyversePaging.WalkFollowsCursors | apps/api/src/modules/integrations/loyverse/loyverse.service.ts:472-499 | the walk fetches the upstream's answers in order, goes on exactly while the cursor is truthy, and stops at the last page or at the failure it reports |
| LoyversePaging.FetchAll | apps/api/src/modules/integrations/loyverse/loyverse.service.ts:393-410 | the catalog fetch returns every record of every page in order, or the first failure |
| LoyversePaging.BatchingKeepsOrder | apps/api/src/modules/integrations/loyverse/loyverse.service.ts:481-491 | batching loses, duplicates and reorders nothing: batches then buffer are the fetched records in fetch order |
| LoyversePaging.BatchingSizes | apps/api/src/modules/integrations/loyverse/loyverse.service.ts:488-491 | every batch but the one flushed at the last page holds at least the batch size, and the buffer is empty after the last page |
| LoyversePaging.SyncBatchesCoverWalk | apps/api/src/modules/integrations/loyverse/loyverse.service.ts:466-499 | a completed sync writes every fetched record exactly once, in order; a failed one writes a prefix, in full batches |
| LoyversePaging.RequestsFollowCursors | apps/api/src/modules/integrations/loyverse/loyverse.service.ts:472-475 | one request per page; the first carries no cursor, each later one the cursor of the page before |
| LoyversePaging.RangeQuery | apps/api/src/modules/integrations/loyverse/loyverse.service.ts:459-464 | the query carries the date bounds, and a store filter exactly when the store id is truthy |
| LoyversePaging.Upsert | apps/api/src/modules/integrations/loyverse/loyverse.service.ts:249-253 | after a replace-upsert the key holds exactly the transformed record and every other entry is unchanged |
| LoyversePaging.Isolated | apps/api/src/modules/integrations/loyverse/loyverse.service.ts:514-569 | a batch never counts more writes than it has records |
| LoyversePaging.IsolatedCountsWrites | apps/api/src/modules/integrations/loyverse/loyverse.service.ts:514-569 | the batch count equals the batch size exactly when the store refuses no record |
| LoyversePaging.IsolatedAppend | apps/api/src/modules/integrations/loyverse/loyverse.service.ts:488-490 | writing two batches in turn is writing their concatenation, and the counts add up |
| LoyversePaging.IsolatedKeepsOthers | apps/api/src/modules/integrations/loyverse/loyverse.service.ts:563-566 | a refused record does not stop the others: a key that is refused, or that no record has, keeps its entry |
| LoyversePaging.IsolatedLastWins | apps/api/src/modules/integrations/loyverse/loyverse.service.ts:556-560 | an accepted record with no later record of the same key is what its key holds after the batch |
| LoyversePaging.Aborting | apps/api/src/modules/integrations/loyverse/loyverse.service.ts:311-338 | the count is the number of records before the first failure (none of which fails), the failure reported is that record's, and without a failure every record is counted |
| LoyversePaging.AbortingStops | apps/api/src/modules/integrations/loyverse/loyverse.service.ts:341-344 | after the first failure later records change nothing |
| LoyversePaging.AbortingKeepsOthers | apps/api/src/modules/integrations/loyverse/loyverse.service.ts:311-338 | a key none of the written records has keeps its entry |
| LoyversePaging.AbortingLastWins | apps/api/src/modules/integrations/loyverse/loyverse.service.ts:331-337 | of the written records, the last one of a key is what that key holds |
| Loyverse.ReceiptEvent | apps/api/src/modules/integrations/loyverse/loyverse.service.ts:206-254 | the receipt handler fails exactly when the payload is not a receipt, the transform throws or the store refuses the write, rethrowing that error unwrapped and writing nothing; otherwise it upserts the transformed receipt into the receipts collection alone and returns no result |
| Loyverse.ShiftEvent | apps/api/src/modules/integrations/loyverse/loyverse.service.ts:256-295 | the shift handler fails exactly when the payload is not a shift or the store refuses the write, with the message `Failed to process shift event: ` followed by the cause, and writes nothing; otherwise it upserts the transformed shift and returns `{processed: true, entity: 'shift'}` |
| Loyverse.InventoryEvent | apps/api/src/modules/integrations/loyverse/loyverse.service.ts:572-606 | the inventory handler fails exactly when the payload is not a inventory or the store refuses the write, with the message `Failed to process inventory event: ` followed by the cause, and writes nothing; otherwise it upserts the transformed movement and returns entity `inventory_movement` |
| Loyverse.ItemEvent | apps/api/src/modules/integrations/loyverse/loyverse.service.ts:608-646 | the item handler fails exactly when the payload is not a item or the store refuses the write, with the message `Failed to process item event: ` followed by the cause, and writes nothing; otherwise it upserts the transformed item and returns entity `item` |
| Loyverse.EmployeeEvent | apps/api/src/modules/integrations/loyverse/loyverse.service.ts:648-681 | the employee handler fails exactly when the payload is not a employee or the store refuses the write, with the message `Failed to process employee event: ` followed by the cause, and writes nothing; otherwise it upserts the transformed employee and returns entity `employee` |
| Loyverse.Dispatch | apps/api/src/modules/integrations/loyverse/loyverse.service.ts:137-160 | each known type upserts exactly its transformed document into its own collection or fails writing nothing; an unknown type is `{processed: false, reason: 'Unhandled event type'}` and does not throw |
| Loyverse.DispatchFailsAsItsHandler | apps/api/src/modules/integrations/loyverse/loyverse.service.ts:137-160 | each known event type fails exactly when its handler's condition holds (wrong payload shape, a receipt transform that throws, a refused write), and the four wrapped handlers' messages carry their `Failed to process … event: ` prefix |
| Loyverse.PendingRecord | apps/api/src/modules/integrations/loyverse/loyverse.service.ts:118-133 | the record before dispatch is `pending` with the event's type and payload, keeping an existing record's result and error |
| Loyverse.StatusOf | apps/api/src/modules/integrations/loyverse/loyverse.service.ts:166 | the status is `skipped` exactly when the result says it was not processed, `processed` otherwise |
| Loyverse.AlreadyProcessedWritesNothing | apps/api/src/modules/integrations/loyverse/loyverse.service.ts:112-115 | an event already processed is answered as idempotent and nothing is written |
| Loyverse.DeliveryRecordsEvent | apps/api/src/modules/integrations/loyverse/loyverse.service.ts:118-191 | afterwards exactly one record has the event id, holding its type and payload; it is `failed` iff the call throws (with the wrapped message), otherwise `skipped` iff the type is unknown; no other event record changes |
| Loyverse.RedeliveryIsIdempotent | apps/api/src/modules/integrations/loyverse/loyverse.service.ts:111-115 | after a delivery of a known type that did not throw, delivering the same event again is answered as idempotent and writes nothing |
| Loyverse.RejectedSignatureCreatesNothing | apps/api/src/modules/integrations/loyverse/loyverse.service.ts:103-108 | a mismatched signature fails with `Invalid webhook signature`, creates no record, marks an existing one failed, and changes no other collection |
| Loyverse.DeliveryUpserts | apps/api/src/modules/integrations/loyverse/loyverse.service.ts:137-191 | past the two checks, a delivery writes to the documents exactly what its handler writes and replies with the handler's result, or rethrows the handler's error wrapped and writes no document |
| Loyverse.LoyverseService.constructor | apps/api/src/modules/integrations/loyverse/loyverse.service.ts:27-44 | the service starts with the given environment and collections |
| Loyverse.LoyverseService.HandleWebhookEvent | apps/api/src/modules/integrations/loyverse/loyverse.service.ts:99-193 | the collections and reply afterwards are those of `Deliver`, about which the lemmas above speak |
| Loyverse.LoyverseService.ProcessEvent | apps/api/src/modules/integrations/loyverse/loyverse.service.ts:137-160 | the switch does what `Dispatch` describes to the collections |
| Loyverse.LoyverseService.ProcessReceiptEvent | apps/api/src/modules/integrations/loyverse/loyverse.service.ts:206-254 | the receipt handler changes the collections as `ReceiptEvent` describes |
| Loyverse.LoyverseService.ProcessShiftEvent | apps/api/src/modules/integrations/loyverse/loyverse.service.ts:256-295 | the shift handler changes the collections as `ShiftEvent` describes |
| Loyverse.LoyverseService.ProcessInventoryEvent | apps/api/src/modules/integrations/loyverse/loyverse.service.ts:572-606 | the inventory handler changes the collections as `InventoryEvent` describes |
| Loyverse.LoyverseService.ProcessItemEvent | apps/api/src/modules/integrations/loyverse/loyverse.service.ts:608-646 | the item handler changes the collections as `ItemEvent` describes |
| Loyverse.LoyverseService.ProcessEmployeeEvent | apps/api/src/modules/integrations/loyverse/loyverse.service.ts:648-681 | the employee handler changes the collections as `EmployeeEvent` describes |
| Loyverse.LoyverseService.SyncStores | apps/api/src/modules/integrations/loyverse/loyverse.service.ts:299-345 | a failed listing writes nothing; otherwise stores are upserted until the first failure, which fails the sync wrapped; the count covers every store; only the stores change |
| Loyverse.LoyverseService.SyncEmployees | apps/api/src/modules/integrations/loyverse/loyverse.service.ts:347-389 | as the store sync, an employee without stores being a failure; only the employees change |
| Loyverse.LoyverseService.SyncItems | apps/api/src/modules/integrations/loyverse/loyverse.service.ts:391-448 | a failed page aborts before any write; otherwise every item of every page is upserted until the first failure, and the count covers all items of all pages |
| Loyverse.LoyverseService.UpsertItems | apps/api/src/modules/integrations/loyverse/loyverse.service.ts:412-443 | the fetched items are upserted in order until the store refuses one |
| Loyverse.LoyverseService.ProcessReceiptBatch | apps/api/src/modules/integrations/loyverse/loyverse.service.ts:511-570 | each receipt is upserted with refused ones skipped, and the count is of the receipts written; only the receipts change |
| Loyverse.LoyverseService.ProcessShiftBatch | apps/api/src/modules/integrations/loyverse/loyverse.service.ts:744-787 | each shift is upserted with refused ones skipped, and the count is of the shifts written; only the shifts change |
| Loyverse.LoyverseService.SyncReceipts | apps/api/src/modules/integrations/loyverse/loyverse.service.ts:450-509 | the requests follow the cursors, the batches are the walk's records buffered to 100, the receipts are those batches written with isolation, and the count is the sum of page lengths, or the failure wrapped twice |
| Loyverse.LoyverseService.SyncShifts | apps/api/src/modules/integrations/loyverse/loyverse.service.ts:683-742 | as the receipt sync, with batches of 50 over the shifts listing dated by `opened_at` |

## Left out

- HTTP: the upstream calls (creating, listing and deleting webhooks, headers, `lastValueFrom`) are not modelled; the upstream is a given sequence of answers, and the store and employee listings are given responses.
- HMAC-SHA256 and `JSON.stringify` are parameters of the environment; only when the signature is compared, and the comparison itself, are modelled. The controller that calls the service is not part of this model.
- The 100 ms delay between page fetches, and any concurrency between overlapping deliveries or syncs, are not modelled.
- Date parsing (`new Date(...)`, `toISOString`) is not modelled: dates are timestamps. The dashboard's local-time day, week and month boundaries are a parameter (`Reports.Windows`), as is the clock (`now`).
- Decimal128 storage and JavaScript floating point are not modelled: money is exact integer cents, and the average ticket and the day-over-day change are exact reals.
- The 30-day expiry of webhook events is not modelled, nor the event schema's `processed` field, which the service never writes; the model keeps the `status` the service writes.
- LoyversePaging.Upsert: a later write replaces the whole record, where the source's `findOneAndUpdate` sends the object as `$set` and so keeps the fields an earlier write set and the later one does not name (an item's `sku`, `category` and `barcode` from the catalog sync survive an `item.updated` webhook; an employee's `stores` from the sync survive one that writes `store_ids`); each entity's writers produce differently shaped records in the model, so no field-wise merge is stated.
- Receipts.InvalidPath: Mongoose's validation error lists every failing path; the model reports the first in schema order. The required dates, amounts, arrays and `meta` are always present in the model's types, so they never fail. Shifts.MissingPath reports its first path in the same way.
- Mongoose strict mode, which drops fields a schema does not declare, is not modelled; the Loyverse documents hold what the handlers write.
- The store's refusal of a write is a per-collection, per-key parameter (`Env.faults`). A failure of the event-record writes themselves is not modelled.
- A webhook handler given data of another entity's shape fails with a TypeError in the model. In JavaScript most such handlers would write a document of undefined fields.
- A request past the last given answer fails like a dropped connection, which keeps every walk finite.
- The `ObjectId` cast of a malformed document id is not modelled: document ids are naturals.
- Shifts.ShiftsService.FindAll: the shift query's DTO is not part of this model; `Shifts.ValidQuery` assumes the receipt query's bounds (a limit from 1 to 100, a page of at least 1), so a limit of 0, which Mongoose reads as no limit, is not modelled.
- Receipts.InvalidPath: `employee_id` is declared an `ObjectId` reference (apps/api/src/models/receipt.model.ts:28), and Mongoose refuses a string that does not cast to one, such as a Loyverse employee UUID: `save()` fails validation on `employee_id`, and `findOneAndUpdate` and a `find` filtered on it fail with a cast error. The cast rules are Mongoose's, not this repository's, so the model accepts any `employee_id`: Save, Create, UpsertByLoyverseId and FindAll never fail on it, and the Loyverse receipt writes (Loyverse.ReceiptEvent, Loyverse.LoyverseService.ProcessReceiptBatch) that the cast refuses appear only as a refusal of the store, `Env.faults(ReceiptKind)`.
- The order of documents with equal `closed_at` is taken as stable; the store leaves it unspecified.
- Loyverse.LoyverseService.SyncStores: returns the number of stores written instead of the message that embeds it.
- Loyverse.LoyverseService.SyncEmployees: returns the number of employees written instead of the message that embeds it.
- Loyverse.LoyverseService.SyncItems: returns the number of items written instead of the message that embeds it.
- Loyverse.LoyverseService.SyncReceipts: returns the count instead of the message that embeds it with the range and store; the logged errors are not modelled.
- Loyverse.LoyverseService.SyncShifts: returns the count instead of the message that embeds it with the range and store; the logged errors are not modelled.
- Loyverse.LoyverseService.HandleWebhookEvent: the reply is `AlreadyProcessed` or `ProcessedOk(details)` rather than the response object, and an error's stack is not recorded.
