# Commerce back office: verified models

A Dafny model of the parts of the repository that compute, and proofs of what
they promise.

- **The demo seed** (`Arithmetic`, `Lcg`, `LcgPeriod`, `Counting`, `Doubles`, `BulkInsert`,
  `PaymentBundles`, `OrderTax`, `SeedLog`, `SeedRows`, `SeedColumns`, `SeedSchema`, `SeedOrders`,
  `ProductAllocation`): the linear congruential generator in IEEE 754 doubles with its
  uniform and weighted sampling, the batched INSERT builder against the database schema,
  the payment histories, the four-buffer order loop and the product allocation, each
  choice by the word drawn for it.
- **Paging** (`Paging`, `PrismaPaginate`, `CursorPagination`, `DisturbedPagination`,
  `ManyNavigations`): the contract between a paged endpoint and its readers, the
  backend's keyset pagination measured against it, the pagination hook as an
  asynchronous protocol, with what overlapping requests do to it, and the loop that
  drains an endpoint.
- **Text and forms** (`JsText`, `Money`, `EditProduct`, `PercentEncoding`, `CookieJar`, `Cookies`):
  cents through text and doubles and back, the product patch, and cookies
  through percent-encoding and a jar as in RFC 6265.
- **Orders and payments** (`OrderTypes`, `Lifecycle`, `PaymentRecords`, `Collections`, `OrderPage`,
  `SeedHistories`, `OrderForm`, `OrderItems`): the services as a step function over an
  order and its payment record, how often its money is collected, the page's guards
  against the services' checks, the seed's histories as runs of the services, and the
  totals from the create form through every later run.
- **Team authority** (`Team`): the membership service over whole runs and under
  interleaving, and the member sheet against it.

The source's objects with mutable fields are classes (`Rng`, `Seeder`, `OrderSeeder`,
`UseCursorPagination`, `Document`, `UseCookies`), its loops are methods with
invariants; each method is tied to a specification function or history about
which the lemmas speak. Where the source is expressions, the model is functions.

Stripe is modelled by reports that may arrive at any time and in any order. A run
is calm when no report contradicts a payment that is settled: another status than
success for an attempt of a PAID record, or for the refund of a REFUNDED one.
Where that condition is needed, a lemma shows what happens without it.

What the proofs found, each with the exact condition:

- `bulkInsert`'s comment counts on at most 13 columns; the Payment insert has 18, and a
  flush stays within PostgreSQL's 65,535 parameters exactly while it holds at
  most 3640 payments (`SeedLog.FlushStaysWithinCap`). A batch of 4000 orders holds
  about 3502 on average; whether some state of the generator exceeds 3640 is open.
- The seed's tax in doubles is an integer nearest to 13 percent for every subtotal below
  541,298,032,135,973 cents, and not for that one (`OrderTax.TaxIsNearestUntil`).
- Keyset pages are the slices of the sorted table exactly when the sort values
  suffice: ascending, when none is NULL or there is less than one page; descending,
  when none is NULL at the end of a full page (`PrismaPaginate.PaginateManyIsCorrectIff`).
- Saving an untouched product sends nothing exactly when its category survives
  the form (`EditProduct.UntouchedSave`).
- An order's money can be collected twice. A new card attempt leaves the earlier
  one open at Stripe, and so does marking cash: a later success of the earlier one
  is accepted for the paid record, exactly when that attempt had not succeeded
  (`Collections.RepeatsWhen`, `Collections.CollectedTwice`). Over calm runs that, and a reopening
  that deletes a collected payment, are the only causes (`Collections.CollectionsBalance`,
  `Collections.CollectedOnceIff`).
- A report of failure on an attempt of a paid record takes it back to FAILED, after
  which the services ask for the money again (`Lifecycle.PaidUntil`, `Collections.ContradictionChargesAgain`),
  although docs/domains/payment.md calls repeated deliveries safe; repeating the same
  report is (`Lifecycle.SyncIsIdempotent`).
- docs/domains/order.md allows cancelling only unpaid orders; a card payment that
  succeeds during or after the cancellation leaves a cancelled order with a kept
  payment, and no operation leads out of that state (`Lifecycle.StrandedWhen`,
  `Lifecycle.StrandedForGood`, `Collections.CanStrand`).
  The page offers a refund there that the service refuses (`OrderPage.RefundOfferedIffAccepted`).
- After a failed refund of a payment that a late report took out of PAID, the service lets
  the payment be taken again and the page does not (`OrderPage.PaymentOfferedIffAccepted`,
  `OrderPage.CanDisagreeOnPayment`).
- Reopening deletes the payment record whatever Stripe answers to the
  cancellation (`Lifecycle.ReopenForgets`, `Collections.CanLose`).
- docs/domains/order.md says only pending orders allow items to be removed; the
  service does not check it, and a payment then asks for another amount than the
  order's total exactly when the removed line was not free (`OrderItems.BilledUntil`,
  `OrderItems.CanMisbill`).
- The order service refuses no item because of another, so a new order's products are
  distinct exactly when the request's are (`OrderForm.EachItemDecides`, `OrderForm.ProductsRepeatIff`).
- The pagination hook cancels filter requests alone. The footer guards previous and next
  by `loading`, and the screens refresh at any time (products-page.tsx:376, orders-page.tsx:379,
  team-page.tsx:201 under frontend/components). Of two page requests from one view, the
  screen comes to rest on the right page exactly when the one answered first is a refresh
  (`DisturbedPagination.TwoNavigationsIff`); so a new one does no harm exactly when no other is
  outstanding, or it and all of those are refreshes (`DisturbedPagination.UndisturbedIff`). Of any
  number of them, answered in any order, the page is right exactly when the cursor stack ends
  as deep as the one answered last would alone leave it (`ManyNavigations.ManyNavigationsIff`). With a
  filter changed meanwhile, a page request answered last is right exactly when its answer is the new
  filter's first page, for a refresh, or second, for next
  (`DisturbedPagination.StaleNavigationIff`, `DisturbedPagination.NavigationUndoesFilterIff`).
- The team service goes by the role in the access token, which outlives a role change. Run one
  after another, requests under any tokens leave an active owner, because of the owner count
  alone: it refuses exactly what would leave none (`Team.OwnerRemains`, `Team.OwnerCountIsExact`,
  `Team.OwnerCountIsNeeded`). Nobody gains an OWNER or MANAGER role while no request carries an
  OWNER role (`Team.NobodyGainsAuthority`), but a demoted owner still makes owners
  (`Team.DemotedOwnerGrants`).
- It checks outside the transaction that writes. An active owner remains over every
  interleaving in which each write finds its check still holding, since that comes to a run
  of atomic operations (`Team.FreshInterleavingsAreSerial`, `Team.OwnerRemainsInterleaved`); two role
  changes or deactivations checked against the same state leave no owner exactly when they
  take the rights of two active owners and there is no third (`Team.RaceLeavesNoOwnerIff`).
  Over any interleaving an owner remains throughout exactly when no write takes the rights
  of the only one left (`Team.OwnerRemainsIff`).
- A manager overwrites a deactivated owner's role by inviting again
  (`Team.NobodyGainsAuthority`, `Team.ManagerOverwritesOwner`), and is offered reactivations the
  service refuses (`Team.ReactivationOffered`), although docs/domains/team-role-management.md
  has the page mirror the service. Under a stale OWNER role the page offers to demote or
  deactivate a lone owner, which is refused (`Team.SheetMirrorsService`).

Nothing was executed.

## Model

| member | source | states |
|---|---|---|
| Lcg.StepIsExact | backend/prisma/seed.demo.ts:43-46 | every intermediate of a step is an integer below 2^53, so the doubles compute it exactly |
| Lcg.Rng.Next | backend/prisma/seed.demo.ts:43-46 | a draw advances the state as x -> (a x + c) mod 2^32 and returns the unsigned word over 2^32, in [0, 1) |
| Lcg.DrawsFollowGenerator | backend/prisma/seed.demo.ts:43-46 | the closed form of the n-th word agrees with stepping |
| Lcg.FirstDraw | backend/prisma/seed.demo.ts:43-46 | and with the first step |
| Lcg.WordAfterIsDraw | backend/prisma/seed.demo.ts:43-46 | stepping n + 1 times gives the n-th word of the closed form |
| LcgPeriod.GeometricValuation | backend/prisma/seed.demo.ts:41-46 | 2^k divides the geometric sum of the multiplier exactly when it divides its length |
| LcgPeriod.StepsAgree | backend/prisma/seed.demo.ts:41-46 | for every k, two states of a run agree modulo 2^k exactly when their step counts do |
| Lcg.DrawsRepeat | backend/prisma/seed.demo.ts:39-46 | a word is drawn again exactly after a multiple of 2^32 draws, from every state |
| Lcg.PeriodIsPermutation | backend/prisma/seed.demo.ts:39-46 | one period draws every 32-bit word exactly once |
| Lcg.ScaledExact | backend/prisma/seed.demo.ts:48-50 | for spans up to 2^21 the scaled double's floor is the integer division u n / 2^32 |
| Lcg.ScaledBelow | backend/prisma/seed.demo.ts:48-50 | for every span a 32-bit word scales to something that rounds below the span |
| Lcg.Rng.RngInt | backend/prisma/seed.demo.ts:48-50 | stays in [min, max] and equals min plus the floor of the double product, for spans up to 2^21 the word's bucket |
| Lcg.UniformOverPeriod | backend/prisma/seed.demo.ts:43-50 | over one period each value of a span n is drawn floor or ceiling of 2^32 / n times |
| Lcg.Rng.RngPick | backend/prisma/seed.demo.ts:52-54 | picks the element at the word's bucket |
| Lcg.Rng.RngPickWeighted | backend/prisma/seed.demo.ts:56-64 | the subtract-until-nonpositive loop returns the least item whose prefix weight reaches the drawn threshold; its fallback is dead |
| Lcg.WeightedOverPeriod | backend/prisma/seed.demo.ts:43-64 | over one period item i is drawn within one of 2^32 w_i / total times |
| Lcg.Rng.RngBool | backend/prisma/seed.demo.ts:66-68 | true exactly for words below the probability |
| BulkInsert.BulkInsert | backend/prisma/seed.demo.ts:1116-1151 | returns the number of rows and issues the statements of the batches in order |
| BulkInsert.QueryInsertsBatch | backend/prisma/seed.demo.ts:1128-1144 | resolving a statement's placeholders against its parameters gives back the batch, cell by cell |
| BulkInsert.StatementsAreCast | backend/prisma/seed.demo.ts:1129-1136 | in every statement each tuple has one slot per column, cast exactly when the cast map names the column, and to the type it names |
| BulkInsert.BulkInsertIsFaithful | backend/prisma/seed.demo.ts:1116-1151 | all statements together insert exactly the rows, in order |
| BulkInsert.PlaceholdersAreNumbered | backend/prisma/seed.demo.ts:1130-1141 | placeholders are $1, $2, ... without a gap, one for each parameter |
| BulkInsert.CapHoldsIff | backend/prisma/seed.demo.ts:1113-1114 | every statement stays within 65,535 parameters exactly when a full batch does |
| PaymentBundles.Seeder.AddMinutes | backend/prisma/seed.demo.ts:1242-1246 | adds min plus the drawn word's bucket minutes, within min and max |
| PaymentBundles.Seeder.AddHours | backend/prisma/seed.demo.ts:1248-1250 | the same with hours for bounds, drawn in minutes |
| PaymentBundles.Seeder.CreateAttempt | backend/prisma/seed.demo.ts:1260-1282 | an attempt row with two fresh ids |
| PaymentBundles.Seeder.BuildConfirmed | backend/prisma/seed.demo.ts:1343-1491 | the confirmed scenarios: drawn by weight, of the scenario's shape, well formed, with every choice, time and text by its own draw |
| PaymentBundles.Seeder.BuildFulfilled | backend/prisma/seed.demo.ts:1493-1692 | the fulfilled scenarios likewise, refunds after fulfilment |
| PaymentBundles.Seeder.BuildCancelled | backend/prisma/seed.demo.ts:1694-1824 | the cancelled scenarios likewise, the cancellation after every other event |
| PaymentBundles.Seeder.BuildSeedPaymentBundle | backend/prisma/seed.demo.ts:1325-1824 | for every state of the generator the bundle has the drawn scenario's statuses, links order, payment and attempts, sets each optional field exactly when the statuses call for it, orders all timestamps, and takes each choice, time and text from its own draw |
| PaymentBundles.ChoicesByWord | backend/prisma/seed.demo.ts:1378-1790 | the choices a scenario leaves open (cash or card, an attempt or none, action required or not) by the word drawn and its probability |
| OrderTax.TaxIsNearest | backend/prisma/seed.demo.ts:2493-2517 | the double arithmetic of the tax yields an integer nearest to 13 percent, for subtotals below 541,298,032,135,973 cents |
| OrderTax.TaxIsNearestUntil | backend/prisma/seed.demo.ts:2493-2517 | that bound is exact: all subtotals below n are taxed so exactly when n does not exceed it |
| OrderTax.TaxDrift | backend/prisma/seed.demo.ts:2484-2518 | summed line taxes differ from the order's tax by at most (lines + 1) / 2 cents, for any nearest rounding |
| OrderTax.TaxesNeedNotAddUp | backend/prisma/seed.demo.ts:2493-2517 | they do differ for some orders |
| SeedRows.SeedTaxDrift | backend/prisma/seed.demo.ts:2478-2518 | a generated order of at most five lines drifts by at most three cents |
| SeedRows.JoinedFits | backend/prisma/seed.demo.ts:2496-2545 | the rows of one turn are as wide as their tables, and children refer to rows of the same turn |
| SeedColumns.CellsStandInTheirColumns | backend/prisma/seed.demo.ts:2366-2468 | every cell a turn pushes stands at the position of its own column, in all four tables |
| SeedSchema.TargetsAreTheSchemas | backend/prisma/schema.prisma:374-494 | the flush's tables are the schema's, and each ON CONFLICT names a unique key with the column whose ids are kept distinct |
| SeedSchema.EnumColumnsAreCast | backend/prisma/seed.demo.ts:2367-2470 | every statement of a flush casts exactly the columns that hold enumerations, each to its own type |
| SeedSchema.LabelsReadBack | backend/prisma/schema.prisma:40-73 | the labels written to enumeration columns read back as the statuses generated |
| SeedSchema.OptionalsReadBack | backend/prisma/seed.demo.ts:1303-1322 | optional cells are NULL exactly when missing and read back otherwise |
| SeedLog.FlushesKeepIntegrity | backend/prisma/seed.demo.ts:2367-2475 | however the turns are cut into flushes, each statement refers only to rows inserted before it, and each table holds the flushed rows |
| SeedLog.InsertsKeepIntegrityAndLoseNothing | backend/prisma/seed.demo.ts:2358-2556 | after any history of turns and flushes generated rows = inserted + buffered for every table, in order, the counters count the inserted ones, and no statement broke a foreign key |
| SeedLog.FinalFlushInsertsEverything | backend/prisma/seed.demo.ts:2548-2556 | after a final flush all rows are inserted and the buffers are empty |
| SeedLog.NothingConflicts | backend/prisma/seed.demo.ts:2386-2470 | the conflict keys of each table's rows are pairwise distinct, so ON CONFLICT drops none |
| SeedLog.FlushStaysWithinCap | backend/prisma/seed.demo.ts:2416-2447 | a flush stays within the parameter cap except when it holds more than 3640 payments |
| SeedOrders.OrderSeeder.DrawCustomer | backend/prisma/seed.demo.ts:2484-2485 | a customer by a chance of 0.7, if there are any, and the one at the drawn index |
| SeedOrders.OrderSeeder.RandomOrderDate | backend/prisma/seed.demo.ts:1160-1177 | draws the season, year, month, day and time, or a share of two years and the time, for the calendar |
| SeedOrders.OrderSeeder.PushItems | backend/prisma/seed.demo.ts:2494-2526 | pushes lines of the drawn products and quantities, priced, whose subtotals add up to the running subtotal |
| SeedOrders.OrderSeeder.GenerateOrder | backend/prisma/seed.demo.ts:2478-2545 | one turn: status, customer, date, lines and history by their draws, a sound order at the location, its rows pushed to the four buffers |
| SeedOrders.OrderSeeder.FlushOrderBatch | backend/prisma/seed.demo.ts:2363-2476 | one flush, with its early return and its guards on empty buffers |
| SeedOrders.OrderSeeder.NextOrder | backend/prisma/seed.demo.ts:2478-2550 | a turn with the flush behind it: no flush carries more than 4000 orders |
| SeedOrders.OrderSeeder.SeedLocation | backend/prisma/seed.demo.ts:2478-2556 | a location's loop generates as many orders as asked for, all at the location and one after the other by their draws, and ends flushed |
| SeedOrders.OrderSeeder.SeedOrders | backend/prisma/seed.demo.ts:2353-2557 | each location gets its drawn number of orders, in turn, as the locationId cells of the inserted rows show; the database holds exactly the generated rows and no foreign key was ever broken |
| SeedHistories.BundlesAreReachable | backend/prisma/seed.demo.ts:1325-1824 | every bundle the seed can draw is in a state that a calm run of accepted service operations reaches |
| ProductAllocation.AllocateProducts | backend/prisma/seed.demo.ts:2155-2220 | the nested loops fill the categories as laid out, number the SKUs from 1, and draw each product's name, variant, price and threshold |
| ProductAllocation.LettersAre | backend/prisma/seed.demo.ts:2179-2182 | a category's letters, one by one, in upper case |
| ProductAllocation.CatCodeIs | backend/prisma/seed.demo.ts:2179-2182 | of which the SKU carries the first four |
| ProductAllocation.ProductsMade | backend/prisma/seed.demo.ts:2172-2192 | with distinct categories exactly n products are made if and only if n is at least the number of categories less one |
| ProductAllocation.SkusDiffer | backend/prisma/seed.demo.ts:2182-2199 | SKUs are pairwise distinct, by injectivity of padded decimal printing |
| Paging.SliceExtends | frontend/hooks/use-locations.ts:26-50 | pages laid end to end are the list |
| Paging.Drain | frontend/hooks/use-locations.ts:26-50 | the do-while loop terminates and returns the whole list in order, from any server that keeps the contract |
| PrismaPaginate.PaginateManyIsCorrectIff | backend/src/infra/prisma/prisma.service.ts:205-320 | keyset pages are the slices of the sorted table exactly when the sort values suffice |
| PrismaPaginate.PaginateManyServes | backend/src/infra/prisma/prisma.service.ts:257-320 | where they suffice the endpoint keeps the paging contract, and fetches for every cursor, its own or not, what paginateMany does |
| CursorPagination.UseCursorPagination.OnFilterChange | frontend/hooks/use-cursor-pagination.ts:37-58 | the filter effect with its cleanup |
| CursorPagination.UseCursorPagination.OnFetchChange | frontend/hooks/use-cursor-pagination.ts:55-58 | the cleanup alone, when only fetchPage changes |
| CursorPagination.UseCursorPagination.GoNext | frontend/hooks/use-cursor-pagination.ts:68-80 | sends the request for the next cursor |
| CursorPagination.UseCursorPagination.GoPrevious | frontend/hooks/use-cursor-pagination.ts:82-95 | sends the request for the cursor below the top |
| CursorPagination.UseCursorPagination.RefreshPage | frontend/hooks/use-cursor-pagination.ts:97-108 | sends the request for the current cursor |
| CursorPagination.UseCursorPagination.OnSuccess | frontend/hooks/use-cursor-pagination.ts:45-58 | an answer writes the view unless its request was cancelled |
| CursorPagination.UseCursorPagination.OnFailure | frontend/hooks/use-cursor-pagination.ts:52-54 | a failed request only ends loading, unless it was cancelled |
| CursorPagination.CorrectViewIsSlice | frontend/hooks/use-cursor-pagination.ts:60-66 | the view is a slice of the list, showingFrom and showingTo are exact, hasNext holds exactly while rows remain |
| CursorPagination.QuietViewIsCurrent | frontend/hooks/use-cursor-pagination.ts:26-108 | after any undisturbed run in any order of answers, whenever no request is live nothing is loading, and whenever nothing is loading the view is a page of the newest filter's list |
| CursorPagination.LoadingIff | frontend/hooks/use-cursor-pagination.ts:42-108 | over any run loading holds exactly when a request was sent after the last answer or failure that was not cancelled |
| CursorPagination.NewestFilterWins | frontend/hooks/use-cursor-pagination.ts:37-58 | the newest filter's answer shows its first page, resets the stack and ends loading |
| CursorPagination.SupersededIsDropped | frontend/hooks/use-cursor-pagination.ts:42-57 | answers to superseded filters change nothing |
| CursorPagination.NextThenPrevious | frontend/hooks/use-cursor-pagination.ts:68-95 | next and then previous restores the state |
| DisturbedPagination.AnsweredAfterIff | frontend/hooks/use-cursor-pagination.ts:68-108 | two page requests from one view leave it right exactly when the one answered first is a refresh |
| DisturbedPagination.TwoNavigationsIff | frontend/hooks/use-cursor-pagination.ts:68-108 | the same over runs that end at rest, in both orders of the answers |
| DisturbedPagination.UndisturbedIff | frontend/hooks/use-cursor-pagination.ts:68-108 | with any page requests outstanding, the hypothesis of QuietViewIsCurrent on a new one is exactly that each of them and the new one leave the view right in both orders |
| ManyNavigations.AnswersIff | frontend/hooks/use-cursor-pagination.ts:68-108 | any number of page requests from one view, answered in a given order, leave it right exactly when the cursor stack ends as deep as the one answered last would alone leave it |
| ManyNavigations.ManyNavigationsIff | frontend/hooks/use-cursor-pagination.ts:68-108 | the same over runs that send them all at rest and answer them in any order: they end at rest |
| ManyNavigations.EveryOrderRightIff | frontend/hooks/use-cursor-pagination.ts:68-108 | every order of the answers is right exactly when there is at most one request, or all are refreshes |
| DisturbedPagination.StaleNavigationIff | frontend/hooks/use-cursor-pagination.ts:37-108 | a filter changed while a page request is on its way: the filter's answer last is right; the page request's last is right exactly when it is the new filter's first page, for a refresh, or its second under the same cursor, for next; never for previous |
| DisturbedPagination.StaleNavigationWins | frontend/hooks/use-cursor-pagination.ts:68-108 | that late answer shows the old filter's rows under page number 2, 0 or 1 |
| DisturbedPagination.RefreshUndoesNext | frontend/hooks/use-cursor-pagination.ts:68-108 | next and then refresh, answered in that order, show the old page's rows under the new page's number |
| DisturbedPagination.OverlappingRefreshUndoesNext | frontend/components/shared/pagination-footer.tsx:43-58 | the footer's guard on loading does not prevent that when two refreshes overlap |
| DisturbedPagination.NavigationUndoesFilterIff | frontend/hooks/use-cursor-pagination.ts:37-108 | a page request sent while a filter's first page is on its way, with the old list's cursor: answered first it does no harm; answered last the view is right exactly when the answer is the new filter's first page, for a refresh, or its second, for next |
| DisturbedPagination.RenewedFetchStaysLoading | frontend/hooks/use-cursor-pagination.ts:52-58 | why fetchPage must change only with the filter: the screen stays loading |
| DisturbedPagination.FailedFilterKeepsRows | frontend/hooks/use-cursor-pagination.ts:42-57 | when the filter's request fails the old rows stay at rest, on the first page right exactly when both lists start with the same page |
| CursorPagination.NextShowsEverything | frontend/hooks/use-cursor-pagination.ts:60-80 | clicking next through shows the whole list, as draining does |
| Doubles.RoundsToNearestEven | frontend/lib/formatters.ts:53-61 | double arithmetic rounds to the nearest unit, ties to even |
| JsText.WhiteSpaceIs | frontend/components/products/edit-product-form.tsx:135 | the 25 characters that trimming and number parsing skip |
| JsText.TrimOf | frontend/components/products/edit-product-form.tsx:135 | trim leaves what stands between white space at both ends |
| JsText.ParseIntOfText | frontend/components/products/edit-product-form.tsx:49-52 | parseInt on white space, sign, digits and rest; no number without a digit |
| JsText.DecimalValueWithPoint | frontend/lib/formatters.ts:53-61 | parseFloat's literal with a point: white space, sign, digits, fraction, exponent, rest |
| JsText.DecimalValueWithoutPoint | frontend/lib/formatters.ts:53-61 | and without one |
| JsText.MagnitudeIs | frontend/lib/formatters.ts:53-61 | the digits before and after the point are one number, shifted by the exponent less the digits after the point |
| JsText.ExponentIs | frontend/lib/formatters.ts:53-61 | the exponent behind e or E, or none |
| JsText.ShiftIsPower | frontend/lib/formatters.ts:53-61 | which scales by that power of ten |
| JsText.ToFixedIsNearest | frontend/lib/formatters.ts:1-3 | toFixed(2) prints the nearest hundredths, halves upward, with the sign |
| JsText.ParseIntOfPrint | frontend/components/products/edit-product-form.tsx:49-52 | parseInt inverts decimal printing |
| JsText.DecimalValueOfWithPoint | frontend/lib/formatters.ts:1-3 | text with two decimals denotes exactly its hundredths |
| Money.ToFixedOfCents | frontend/lib/formatters.ts:1-3 | two-decimal display of whole cents is exact |
| Money.CentsOfText | frontend/lib/formatters.ts:53-61 | text denoting c cents, below 2^51, converts to c through three roundings |
| Money.NothingBelowZero | frontend/lib/formatters.ts:53-61 | text that denotes no number, or none above zero, converts to nothing |
| Money.CentsRoundTrip | frontend/lib/formatters.ts:1-61 | reading back displayed cents gives the cents |
| EditProduct.OnSubmit | frontend/components/products/edit-product-form.tsx:125-154 | the patch applied to the product yields exactly the form's values, repeats no unchanged field, and is sent exactly when something changed |
| EditProduct.ResolvedIsProper | frontend/components/products/edit-product-form.tsx:38-60 | an accepted form yields a proper product, with the cents, threshold and category its texts denote |
| EditProduct.AcceptedIff | frontend/components/products/edit-product-form.tsx:38-60 | a form is accepted exactly with a name, a SKU, and numbers from 0 on |
| EditProduct.EmptyPatch | frontend/components/products/edit-product-form.tsx:131-149 | a minimal patch is empty exactly when it changes nothing |
| EditProduct.MinimalPatchIsUnique | frontend/components/products/edit-product-form.tsx:131-149 | there is only one such patch |
| EditProduct.UntouchedSave | frontend/components/products/edit-product-form.tsx:107-154 | opening and saving untouched changes nothing exactly when the category survives the form; price and threshold always do |
| PercentEncoding.Utf8RoundTrip | frontend/hooks/use-cookies.ts:22-37 | UTF-8 decoding inverts encoding for every scalar |
| PercentEncoding.Utf8Exact | frontend/hooks/use-cookies.ts:22-24 | and accepts nothing but encodings |
| PercentEncoding.UnreservedIs | frontend/hooks/use-cookies.ts:37 | the characters that stay as they are |
| PercentEncoding.HexDigitIs | frontend/hooks/use-cookies.ts:37 | upper-case hexadecimal digits are written |
| PercentEncoding.HexValueIs | frontend/hooks/use-cookies.ts:22-24 | both cases of a hexadecimal digit are read |
| PercentEncoding.DecodeOfEncode | frontend/hooks/use-cookies.ts:22-37 | decodeURIComponent inverts encodeURIComponent |
| PercentEncoding.EncodeIsPlain | frontend/hooks/use-cookies.ts:37 | encoded text has no ';', '=' or space |
| Cookies.BuildCookieString | frontend/hooks/use-cookies.ts:32-47 | joins the name, value and attributes in order |
| Cookies.ParseOfBuilt | frontend/hooks/use-cookies.ts:32-47 | the browser's Set-Cookie algorithm reads back name, value and Max-Age |
| Cookies.OptionsReadBack | frontend/hooks/use-cookies.ts:39-44 | a browser reads path, lifetime, same-site policy and secure flag back from the attributes |
| CookieJar.TrimWspOf | frontend/hooks/use-cookies.ts:32-47 | the browser drops spaces and tabs around names and values, and nothing else |
| CookieJar.MaxAgeInAnyCase | frontend/hooks/use-cookies.ts:32-47 | and knows Max-Age in any case |
| Cookies.ParsedJar | frontend/hooks/use-cookies.ts:16-30 | parsing document.cookie recovers every entry the hook wrote |
| Cookies.ObjectThrowsIff | frontend/hooks/use-cookies.ts:16-30 | the parser throws exactly when a pair with "=" is no percent-encoding, and passes over pairs without |
| Cookies.PairWithSpace | frontend/hooks/use-cookies.ts:22-23 | white space around keys and values does not count |
| Cookies.StepRefines | frontend/hooks/use-cookies.ts:58-79 | one write or removal changes the jar as it changes a map |
| Cookies.CookiesRefineMap | frontend/hooks/use-cookies.ts:15-86 | after any run of writes and removals the parsed cookies are the plain map under the same updates |
| Cookies.UseCookies.SetCookie | frontend/hooks/use-cookies.ts:58-70 | writes the document and refreshes the state |
| Cookies.UseCookies.RemoveCookie | frontend/hooks/use-cookies.ts:72-75 | expires the entry and refreshes the state |
| Lifecycle.RunsAreConsistent | backend/src/domain/order/order.service.ts:222-419 | in every run a payment record exists exactly while the order is placed, cancelledAt is set exactly while cancelled, and no record is ever backfilled |
| Lifecycle.PaidUntil | backend/src/domain/payment/payment.service.ts:962-1036 | a step takes a PAID record out of PAID exactly when it is a report other than success on one of its attempts |
| Lifecycle.RefundedUntil | backend/src/domain/payment/payment.service.ts:1038-1217 | a refunded record stays refunded exactly until a report other than success |
| Lifecycle.SyncIsIdempotent | backend/src/domain/payment/payment.service.ts:962-1036 | a report delivered twice acts once |
| PaymentRecords.IntentIsRecorded | backend/src/domain/payment/payment.service.ts:962-1173 | a report on an attempt decides the record's and the attempt's status by its outcome and changes nothing else |
| PaymentRecords.RefundIsRecorded | backend/src/domain/payment/payment.service.ts:1038-1217 | a report on the refund decides its status: REFUNDED for success, FAILED for failed or canceled, PENDING otherwise; a confirmed order is then cancelled on success |
| PaymentRecords.RefundErrorIsRecorded | backend/src/domain/payment/payment.service.ts:516-689 | a refund request that fails at Stripe is a failed refund |
| PaymentRecords.RefundAgainIff | backend/src/domain/payment/payment.service.ts:912-936 | no refund may be asked for while one is under way, and after a report exactly when that was failed or canceled |
| PaymentRecords.RefundRequestIsRecorded | backend/src/domain/payment/payment.service.ts:912-936 | which orders a refund is accepted for, and what it leaves for cash and for card |
| PaymentRecords.CardStartIsRecorded | backend/src/domain/payment/payment.service.ts:280-384 | after a start the newest attempt is in progress: the one there was, or a new one before the others |
| PaymentRecords.CashIsRecorded | backend/src/domain/payment/payment.service.ts:442-514 | which orders cash is marked for, and what it leaves |
| PaymentRecords.CancellationIsRecorded | backend/src/domain/payment/payment.service.ts:213-238 | a cancellation records Stripe's answer for the attempt in progress and keeps any other payment |
| PaymentRecords.LegacyOrderGetsRecord | backend/src/domain/payment/payment.service.ts:141-191 | an order without a record gets one when a refund is asked for, unless it was never placed |
| Lifecycle.CalmRunsSettle | backend/src/domain/payment/payment.service.ts:280-1217 | without contradicting reports a fulfilled order is paid, only paid orders are refunded, and a card payment has a successful attempt |
| Lifecycle.PaidAndRefundedOnce | backend/src/domain/payment/payment.service.ts:84-278 | over calm runs a record enters PAID and REFUNDED at most once and stays there, so reopening never voids a paid record |
| Lifecycle.CalmRunsAreReachable | backend/src/domain/payment/payment.service.ts:84-1217 | leaving out refused operations, every calm run is one of accepted operations |
| Lifecycle.StrandedWhen | backend/src/domain/order/order.service.ts:312-352 | an order ends up cancelled with its payment kept exactly when Stripe answers the cancellation with success, or reports it afterwards |
| Lifecycle.StrandedForGood | backend/src/domain/order/order.service.ts:228-256 | no operation leads out of that state |
| Lifecycle.FulfilledForGood | backend/src/domain/order/order.service.ts:228-233 | a fulfilled order stays fulfilled |
| Lifecycle.ReopenForgets | backend/src/domain/payment/payment.service.ts:240-278 | reopening deletes the record whatever Stripe answers, and later reports on its attempts are never accepted |
| Collections.RepeatsWhen | backend/src/domain/payment/payment.service.ts:962-1036 | money is collected again for a paid record exactly when success is reported for an attempt of it that had not succeeded |
| Collections.CollectionsBalance | backend/src/domain/payment/payment.service.ts:240-514 | over calm runs, collections = repeated for a paid record + lost with a deleted one + shown by the current one |
| Collections.CollectedOnceIff | backend/src/domain/payment/payment.service.ts:240-514 | a calm run collects at most once exactly when nothing is repeated, and nothing is lost and collected anew |
| Collections.SecondAttemptSucceeds | backend/src/domain/payment/payment.service.ts:280-384 | a calm run reaches a paid record with an earlier failed attempt |
| Collections.CashAfterFailedCard | backend/src/domain/payment/payment.service.ts:442-514 | and one paid in cash with an earlier failed attempt |
| Collections.LateSuccessCollectsTwice | backend/src/domain/payment/payment.service.ts:962-1036 | from any such record a late success is calm and collects a second time |
| Collections.CollectedTwice | backend/src/domain/payment/payment.service.ts:280-514 | calm runs collect card and card, and cash and card, for one order |
| Collections.ContradictionChargesAgain | backend/src/domain/payment/payment.service.ts:962-1036 | a report of failure on a paid record of a confirmed order, a new attempt and its success collect once more |
| Collections.CanStrand | backend/src/domain/order/order.service.ts:312-352 | a calm run from a new order strands its payment |
| Collections.CanLose | backend/src/domain/payment/payment.service.ts:240-278 | a calm run reaches a state where a reopening deletes a payment that Stripe reports as succeeded |
| OrderPage.FinancialStatusIs | backend/src/domain/payment/payment.utils.ts:14-50 | what each financial status says of the payment |
| OrderPage.OfferedIffAccepted | frontend/components/orders/order-detail-page.tsx:162-228 | the page offers exactly the transitions the service accepts, except for a refunded payment that is no longer PAID |
| OrderPage.PaymentOfferedIffAccepted | frontend/components/orders/order-detail-page.tsx:137-150 | in every consistent state, paying is offered exactly when a card payment is accepted, and cash when none is in progress, except after a refund of a payment that a late report took out of PAID |
| OrderPage.CanDisagreeOnPayment | backend/src/domain/payment/payment.service.ts:962-1217 | some run leads to such an order |
| OrderPage.PageMirrorsService | frontend/components/orders/order-detail-page.tsx:137-228 | over calm runs page and service agree on transitions and on when a payment may be started or marked cash |
| OrderPage.RefundOfferedIffAccepted | frontend/components/orders/order-detail-page.tsx:152-160 | refunds are offered exactly when accepted, and for cancelled orders, where they are refused |
| Team.OwnerRemains | backend/src/domain/team/team.service.ts:436-658 | over any run of atomic operations, with any roles in the tokens, an active owner remains |
| Team.OwnerCountIsExact | backend/src/domain/team/team.service.ts:947-965 | of what the other checks let through the owner count refuses exactly what would leave no active owner |
| Team.OwnerCountIsNeeded | backend/src/domain/team/team.service.ts:436-489 | of two owners the demoted one passes every other check against the first, under a token that still says OWNER |
| Team.FreshInterleavingsAreSerial | backend/src/domain/team/team.service.ts:208-658 | an interleaving of checks and writes whose writes find their checks still holding comes to a run of atomic operations |
| Team.OwnerRemainsInterleaved | backend/src/domain/team/team.service.ts:208-658 | over every such interleaving an active owner remains |
| Team.AtomicRunsAreFresh | backend/src/domain/team/team.service.ts:208-658 | every run of atomic operations is such an interleaving |
| Team.RaceLeavesNoOwnerIff | backend/src/domain/team/team.service.ts:436-589 | two role changes or deactivations checked against one state leave no owner exactly when they take the rights of two active owners and there is no third |
| Team.WriteLeavesNoOwnerIff | backend/src/domain/team/team.service.ts:208-658 | a write of any request, whatever it read with its check, leaves no owner exactly when it takes the rights of the only one |
| Team.OwnerRemainsIff | backend/src/domain/team/team.service.ts:208-658 | over any interleaving of any number of requests an owner remains throughout exactly when no such write occurs |
| Team.TwoOwnersCanRace | backend/src/domain/team/team.service.ts:436-589 | which can happen in every organization with exactly two owners, under any two OWNER tokens |
| Team.NobodyGainsAuthority | backend/src/domain/team/team.service.ts:208-374 | while no request carries an OWNER role nobody gains an OWNER or MANAGER role, and one is lost exactly when a deactivated holder is invited again |
| Team.StatusChanges | backend/src/domain/team/team.service.ts:208-830 | who becomes a member, is let in, is put out and comes back, each by exactly which operations |
| Team.RoleChanges | backend/src/domain/team/team.service.ts:208-489 | roles change by a role change or by inviting again, to the role asked for |
| Team.DemotedOwnerGrants | backend/src/common/guards/org-context.guard.ts:25-36 | a demoted owner makes an owner of another member under its old token |
| Team.SheetMirrorsService | frontend/components/team/team-member-sheet.tsx:161-171 | for a page and a token with the same role, role changes and deactivations are offered exactly when accepted, except those of a lone owner under an OWNER role that is no longer the actor's |
| Team.ReactivationOffered | frontend/components/team/team-member-sheet.tsx:594-607 | reactivation is offered though refused exactly when a manager asks for an owner or manager |
| OrderForm.FlagDuplicates | frontend/components/orders/create-order-form.tsx:74-93 | the Set loop flags exactly the lines that repeat an earlier product |
| OrderForm.FormTotalsAgree | frontend/components/orders/create-order-form.tsx:117-204 | line totals add up to subtotal - discount + tax, which is not negative |
| OrderForm.CreateOrder | backend/src/domain/order/order.service.ts:62-213 | an order is created exactly when every item is in order, with totals that are the sums over its lines; otherwise the first fault decides |
| OrderForm.FaultIs | backend/src/domain/order/order.service.ts:131-158 | which fault an item is refused for |
| OrderForm.FormOrderIsCreated | frontend/components/orders/create-order-form.tsx:209-228 | what the form accepts the service creates with the totals shown, when prices are current |
| OrderForm.EachItemDecides | backend/src/domain/order/order.service.ts:107-160 | a request for sold products has no fault exactly when each item has none by itself |
| OrderForm.ProductsRepeatIff | backend/src/domain/order/order.service.ts:107-122 | a created order's products are distinct exactly when the items' are |
| OrderItems.RemoveLine | backend/src/domain/order/order.service.ts:720-735 | removing a line takes exactly its amounts off the totals |
| OrderItems.RemovesUnlessLast | backend/src/domain/order/order.service.ts:684-744 | removing takes exactly the named line, unless it is the last one left |
| OrderItems.AddsLine | backend/src/domain/order/order.service.ts:587-682 | adding puts one line with the item's product, quantity, price and amounts behind the others, or changes nothing |
| OrderItems.BilledAtCreation | backend/src/domain/payment/payment.service.ts:84-136 | a payment record asks for the order's total when it was made, and stays so |
| OrderItems.CreatedOrderIsExact | frontend/components/orders/create-order-form.tsx:45-123 | an order from an accepted form starts with exact totals and distinct products |
| OrderItems.TotalsStayExact | backend/src/domain/order/order.service.ts:587-744 | over every run totals are the sums over the lines, a line is left, and distinct products stay distinct |
| OrderItems.NewItemOfferedIffAccepted | frontend/components/orders/order-detail-page.tsx:325-338 | on a pending order an item may be added exactly when the service accepts it |
| OrderItems.RemovalOfferedIffAccepted | frontend/components/orders/order-detail-page.tsx:266-267 | and removed exactly when the service accepts it: while another line is left |
| OrderItems.BilledUntil | backend/src/domain/order/order.service.ts:684-744 | a payment stops matching the total exactly when a line that is not free is removed from an order with a payment |
| OrderItems.CanMisbill | backend/src/domain/order/order.service.ts:684-744 | which can happen to every new order with two lines, one of them not free |
| OrderItems.PageRunsBillTotals | frontend/components/orders/order-detail-page.tsx:266-267 | through the page's guards a payment always asks for the order's total |

## Left out

- SeedRows.SeedTaxDrift: does not cover prices above 21,651,921,285,438 cents, where an order's subtotal can reach the one that is taxed wrong; the script's price bands are far below.
- Money.CentsOfText: does not cover amounts from 2^51 cents on, where doubles no longer tell cents apart.
- CursorPagination.QuietViewIsCurrent: does not cover a filter's own request failing (DisturbedPagination.FailedFilterKeepsRows shows what it leaves), lists that change between fetches, and the runs with requests outstanding that DisturbedPagination covers.
- Cookies.BuildCookieString: does not cover the Expires and Domain options and paths other than "/".
- Cookies.CookiesRefineMap: does not cover those options either, expiry with time, pages on an insecure scheme, which do not see cookies written with `secure` (section 5.4 of RFC 6265), and prototype keys such as `__proto__` in the parsed object.
- Cookies.UseCookies.SetCookie: does not cover the Expires and Domain options and paths other than "/".
- Cookies.UseCookies.RemoveCookie: does not cover paths other than "/".
- Collections.CollectionsBalance: does not count a late success on an attempt of a deleted record, which the service refuses to record.
- Whether some state of the seed's generator reaches a flush of more than 3640 payments.
- SeedOrders.OrderSeeder.RandomOrderDate: leaves the calendar and the clock that turn its draws into a time as a parameter.
- Text to double: the tokens Infinity and NaN, overflow to infinity, subnormal numbers and the sign of zero.
- The text of client secrets, UUIDs and Stripe ids: ids are fresh numbers.
- The seed's organizations, users, customers and inventory, which are inserted before the orders and refer to no later row; a customer or product of an order is one of those given.
- Paging without a sort column, the base64 encoding of cursors, and cursors that are empty strings.
- Concurrent requests on one payment, such as two refunds checked before either is recorded; webhook receipts; location scoping; audit entries.
- Refunds made at Stripe without a request from the application.
- Unusual states of legacy orders without a payment record, beyond the proof that no run from a new order needs the backfill.
- The page's session and the access token holding different roles; expiry of tokens.
- Email changes, locations, invitation tokens and their expiry: an invitation is accepted or not.
- The order forms' rendering, messages and toasts, and the 20-item split of the service's create call, which stores the same rows.
