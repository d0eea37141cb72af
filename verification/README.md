# Northwind verification

A Dafny model of the parts of the repository that move data durably and must come out right whatever
crashes: FakeForce's versioned store with its compactor, the daily simulator that runs CRM, Ops and ERP
one date after another, the bulk query and bulk ingest workers, and the smaller cores around them
(resolution cache, cursor paging, SOQL, history inference, keyset backfills).

`dafny verify dfyconfig.toml` checks the whole project.

## How it is built

Each core is modelled twice and the two are connected. What the code promises is a function or a
relation on values (the newest row per id, the plan of a date, the ledger after a date, the full
ordered result). What the code does is a class or a method that takes the code's steps in the code's
order. A crash is a `budget`: the number of durable writes an attempt survives, so every theorem over
all budgets, or over all sequences of them, is a theorem over every crash and restart. Whatever
the code leaves open (ties in `row_number`, the order rows come back in, which opportunities a date
draws, when another thread runs) is a relation or a parameter, so it holds for every choice.

**Versioned rows and compaction** (`VersionedRows`, `Compaction`, `CompactionReaders`,
`DeltaCompactor`). A store is a seed file, an optional compacted base and one partition per
business date. Planning, writing the merged file, replacing the base, unlinking one partition,
crashing and publishing a newer partition interleave freely, and in every reachable state the engine,
the simulator's snapshot reader and the CRM publisher all return the newest row per id over everything
ever published. The engine lets any delta shadow the base, so this rests on unlinking oldest first:
`CompactionReaders.RemovalSafeExactly` says which sets of partitions may be gone, if and only if, and
`NewestFirstRemovalFails` is a store where the other order reads a stale row.

**The daily simulator** (`SimulationState`, `CrmStages`, `CrmRun`, `OpsEvents` … `OpsTiming`, `Erp`,
`ErpLedger`, `ErpAmounts`, `ErpRun`, `Scheduler`, `Witnesses`).

- A date's Ops run records three batches of events (orders, fulfillment, support) and commits two
  transactions. `OpsTrack.OnTrack` lists the states a crash can leave. From each of them the code plans
  the same batch again or an empty one, no applier ever fails, and a finished date has the ledger and,
  order line ids apart, the database of an uninterrupted run.
- The database is described without its history: `OpsTables.Reflects` gives each table's contents from
  the set of applied events, `OpsProjection` shows that applying one more event keeps it, and
  `OpsReplay.ReflectionIsUnique` shows that it leaves no choice.
- `OpsConsistency` keeps, over all dates, that events never claim the same id and that each has its parent,
  which is why the appliers' errors are unreachable. `OpsHandoff` carries the invoices over to ERP, and
  `ErpLedger` says on which date each is posted: its due date, or the date after when that is a breach
  date.
- `OpsTiming` says when: over all dates every event follows its cause to the day that policy and hash bytes
  give, and what should follow an event is there exactly when that day has come. `ErpAmounts` says what a
  posted row is worth.
- CRM draws its events at random; `CrmRun` shows that the first recording decides and that a date is
  published once. `CrmStages` keeps every opportunity's history a climb, stage by stage, hence won at
  most once, and `OpsFromCrm` turns that into exactly one order for each win that is due.
- `Scheduler.DailySimulationRunner` runs the three in order over the control state. After any crashes and
  any draws it ends with the uninterrupted history that Ops (order line ids apart) and ERP have of what
  CRM recorded, and no deal has two orders, no order two shipments, invoices or postings. `Witnesses` gives
  seeds and event ids that meet all that this assumes.

**Bulk workers** (`QueryScans`, `BulkQuery`, `BulkExport`, `BulkIngest`, `BulkIngestRun`,
`BulkIngestBatching`, `BulkIngestCells`). An interrupted export's manifest is always a prefix of the full
ordered result and the finished one is all of it; result windows then cover it page by page. An interrupted
ingest ends with the table and the row results of an uninterrupted one, and the table holds what the CSV
cells say.

**Smaller cores** (`ResolutionCache`, `CursorPaging`, `SoqlTokens`, `SoqlParser`, `SoqlGrammar`,
`SoqlExact`, `SoqlRoundTrip`, `SoqlParse`, `HistoryInference`, `HistoryTimes`, `KeysetBackfill`,
`HistoryBackfill`). The cache under any thread interleaving, pages rehydrated from an id index, a parser
that accepts exactly what a grammar over texts says and inverts printing, inferred histories in order
although the comparison behind them is not transitive, and backfills that visit each key once, even where
the set they walk shrinks under them.

`Ordering` and `Wrappers` are shared helpers; `QueryScans` has the orders a query's rows may come back in, for
exports and cursors alike.

## Where the code does not keep what it seems to promise

Each has a lemma or a run that shows the failure, and for all inputs the condition under which the property
holds.

- **Order line ids after a crash.** A crash between recording a date's orders and committing them makes the
  next run apply them in event-id order (`simulator/state.py:293-308`) instead of planning order, and
  `order_line_id` is allotted in application order (`simulator/ops_apply.py:135-136`). Everything else of
  the database is the same; the line ids are if and only if the plan was in event-id order already
  (`OpsRun.CrashSwapsLineIds`, `OpsTrack.LineIdsSurviveReplayExactly`).
- **Completing an unclaimed date.** `complete_run` finds no pending source run for a date nobody claimed and
  advances the watermark (`simulator/state.py:206-221`). The runner never does this.
  `SimulationState.CompleteUnclaimed` does; `CompletingNeedsAClaim` gives the condition.
- **Bulk queries with their own ORDER BY.** A resumed export is complete, whatever scans the engine makes,
  if and only if no row the query returns ties on the sort key with a row of other cells
  (`BulkExport.ResumesAreCompleteExactly`); `TieExportsARowTwice` is a run where one does.
- **Batch size.** The first of two rows with the same new id succeeds when a batch boundary separates them
  and fails when none does, and a row with too many values undoes the rows of its own batch only. So a
  changed `bulk_ingest_batch_records` leaves the results alone if and only if the first row is too wide, or
  none is and the file repeats no id the table lacks (`BulkIngestBatching.BatchSizeMattersExactly`).
- **The resolution cache** answers with sources of the call's own time if and only if a structural
  fingerprint that recurs means the sources never changed in between (`ResolutionCache.AnswersAreCurrentExactly`).
- **Cursor paging.** The first page and the index of the others come from two evaluations of the query. No
  record is read twice, in whatever admissible orders they come back, if and only if the result fits one page
  or the sort keys differ across the end of the first page; without an ORDER BY, if and only if it fits one
  page (`CursorPaging.PagesReadOnceExactly`). `TieReadsARowTwice` is a reading over a tie there.
- **Cursor paging over ids that are gone.** The next offset advances by the records found, so following the
  locators ends if and only if no page-sized run of ids is entirely gone (`CursorPaging.ReadingEndsExactly`);
  in `GoneRecordIsAskedFor` a record deleted after the first page is asked for again and again.
- **Comparing dates with timestamps** is not transitive (`HistoryInference.NotBeforeIsNotTransitive`); two
  comparisons chain unless they are of a timestamp, a date and a later timestamp of one day
  (`NotBeforeChainsExactly`), and the clamp is right for all of them (`ClampIsNotBeforeAnyFloor`).

## Model

| member | source | states |
|---|---|---|
| VersionedRows.NewestIsUnique | fakeforce/engine.py:194-201 | Where rows of one id and version are the same row, every choice `row_number` may make among ties gives the same rows |
| VersionedRows.NewestRowsIsNewestPerId | fakeforce/compaction.py:209-215 | The merge's result has one row for each id of its input and none older than any input row of that id |
| VersionedRows.WithoutIdsKeepsOthers | fakeforce/engine.py:189-190 | The anti-join drops exactly the rows of the given ids and keeps one row per id |
| Compaction.MergeFoldsThroughPlan | fakeforce/compaction.py:138-142 | Merging the effective base with the planned partitions is newest-per-id over everything published through the last of them, though the base may already hold rows of partitions a crash left behind |
| Compaction.PlanKeepsInv | fakeforce/compaction.py:119-126 | The plan, taken in any reachable state, covers exactly the oldest remaining partitions and reaches at least what the base covers |
| Compaction.ReplaceKeepsInv | fakeforce/compaction.py:240-241 | Replacing the base keeps that every partition gone is covered by the base |
| Compaction.UnlinkKeepsInv | fakeforce/compaction.py:243-259 | Each single unlink keeps that no partition outlives a newer one and that the base covers what is gone |
| Compaction.PublishKeepsInv | simulator/crm_storage.py:51-57 | A newer partition published at any moment of a compaction keeps the invariant |
| Compaction.RunKeepsInv | fakeforce/compaction.py:128-147 | Every state of every interleaving of compaction steps, crashes, reruns and publications satisfies the invariant |
| CompactionReaders.AllTiesAreIdentical | fakeforce/engine.py:194-201 | Under the publisher's versions two rows of one id and version are the same row, so no tie is ever between different rows |
| CompactionReaders.EngineReadsNewest | fakeforce/engine.py:167-192 | In every such state the engine's base without delta ids plus ranked deltas is the newest row per id over the seed and all partitions ever published |
| CompactionReaders.SimulatorReadsNewest | simulator/crm_snapshot.py:107-138 | So is the simulator's form, which takes the compacted file for one more delta and shadows the seed |
| CompactionReaders.PublisherReadsNewest | simulator/crm_storage.py:104-123 | So is the publisher's rank-everything form, for any set of ids |
| CompactionReaders.ReadersAgree | fakeforce/engine.py:143-192 | At every point of every run all three readers return the same rows, those of the reference newest-per-id |
| CompactionReaders.RemovalSafeExactly | fakeforce/compaction.py:243-259 | With an arbitrary set of folded partitions removed, the engine reads newest-per-id if and only if every id that both a remaining partition and a removed newer one mention is mentioned by a remaining one newer still |
| CompactionReaders.NewestFirstRemovalFails | fakeforce/compaction.py:246-249 | A store where the newest partition was unlinked first: the engine returns a stale row |
| DeltaCompactor.Store.Publish | simulator/crm_storage.py:51-57 | Adds the one partition and nothing else, and keeps the store's whole run legal |
| DeltaCompactor.Store.Plan | fakeforce/compaction.py:119-126 | Lists every partition once, oldest first |
| DeltaCompactor.Store.WriteMerged | fakeforce/compaction.py:189-241 | The merged rows are newest-per-id over the effective base and all partitions |
| DeltaCompactor.Store.ReplaceBase | fakeforce/compaction.py:240 | The base becomes the merged file as one legal step of the run |
| DeltaCompactor.Store.Remove | fakeforce/compaction.py:243-259 | Unlinks partition by partition in list order, each a legal step; uninterrupted, none is left and the count is theirs |
| DeltaCompactor.Store.Compact | fakeforce/compaction.py:128-147 | With nothing published, changes nothing and reports zeros; otherwise leaves no partition and a base that is newest-per-id over old base and partitions, with the counts reported; a crash anywhere leaves a legal state |
| DeltaCompactor.Store.Read | fakeforce/engine.py:167-192 | Answers newest-per-id over all rows ever published, whatever state compaction is in |
| DeltaCompactor.Store.LatestDelta | fakeforce/engine.py:194-201 | Ranks the remaining partitions to their newest row per id |
| DeltaCompactor.Store.AnswersAreOne | fakeforce/engine.py:143-192 | Any two newest-per-id answers of a store hold the same rows the same number of times |
| DeltaCompactor.CompactWithCrashes | fakeforce/compaction.py:128-147 | After any number of crashed attempts and one finished, no partition is left and a reader gets the rows it got before |
| OpsDay.NextId | simulator/ops_run.py:85-86 | `max + 1` is above every id of the table |
| OpsDay.ReadsOrders | simulator/ops_run.py:81-96 | The order snapshot is a function of the applied events alone: converted opportunities and next id |
| OpsDay.ReadsFulfillment | simulator/ops_run.py:107-127 | So is the fulfillment snapshot: next shipment, shipped and invoiced orders, delivered shipments |
| OpsEvents.InWindow | simulator/fulfillment.py:160-168 | A hash-derived delay lies in its policy window, both ends included |
| OpsEvents.InWindowTakesTurns | simulator/fulfillment.py:151-168 | The days of a window take turns over the hash byte: byte 0 has the first, and each next byte the next day, or the first again after the last |
| OpsPlanners.OrdersDue | simulator/ops.py:23-65 | The loops plan the date's orders: convertible wins in event-id order, ids numbered by offset, unusable accounts skipped but using up theirs |
| OpsPlanners.NumberOrders | simulator/ops.py:40-65 | The numbering loop alone, for any list of wins |
| OpsPlanners.ShipmentsDue | simulator/fulfillment.py:44-80 | The loops plan the date's shipments: due unshipped orders in event-id order, numbered from the next id |
| OpsPlanners.InvoicesDue | simulator/fulfillment.py:82-116 | The loop plans invoices exactly for the due shipments, recorded or planned today, of orders not invoiced |
| OpsPlanners.DeliveriesDue | simulator/fulfillment.py:118-149 | The loop plans deliveries exactly for the due undelivered shipments |
| OpsPlanners.FulfillmentDue | simulator/fulfillment.py:25-42 | Together they are the date's fulfillment plan, today's shipments taken into account |
| OpsPlanners.ResolutionsDue | simulator/support.py:62-74 | The loop plans resolutions exactly for the due open cases |
| OpsPlanners.ClosuresDue | simulator/support.py:80-92 | The loop plans closures exactly for the due resolutions recorded before today's |
| OpsPlanners.SupportDue | simulator/support.py:25-93 | Openings, resolutions and closures together are the date's support plan |
| OpsConsistency.OrdersKeepConsistent | simulator/ops.py:40-65 | A date's orders have ids new to the ledger and the seed and are events of the date, so the ledger stays free of clashes |
| OpsConsistency.ShipmentsKeepConsistent | simulator/fulfillment.py:62-80 | A date's shipments have fresh ids, one per order never shipped before, and each has its order |
| OpsConsistency.InvoicesKeepConsistent | simulator/fulfillment.py:94-116 | A date's invoices are the first of their orders, each with its shipment, perhaps one of the same date |
| OpsConsistency.DeliveriesKeepConsistent | simulator/fulfillment.py:124-149 | A date's deliveries are the first of their shipments |
| OpsConsistency.FulfillmentKeepsConsistent | simulator/fulfillment.py:25-42 | A fulfillment plan keeps the ledger consistent and holds events of the date only |
| OpsConsistency.OpeningsKeepConsistent | simulator/support.py:34-56 | Case ids are fresh, one case per delivery, each with its order |
| OpsConsistency.ResolutionsKeepConsistent | simulator/support.py:62-74 | Every resolution is the first of a recorded or planned case |
| OpsConsistency.ClosuresKeepConsistent | simulator/support.py:80-92 | Every closure is the first of a recorded resolution |
| OpsConsistency.SupportKeepsConsistent | simulator/support.py:25-93 | A support plan keeps the ledger consistent and touches cases only |
| OpsProjection.OrderApplies | simulator/ops_apply.py:64-154 | For a consistent ledger the order's id is free and its handler cannot fail |
| OpsProjection.ShipmentApplies | simulator/ops_apply.py:156-231 | The shipment's id is free, its order is there and pending, and the handler cannot fail |
| OpsProjection.DeliveryApplies | simulator/ops_apply.py:233-270 | The shipment is there and undelivered, promised five days after shipping |
| OpsProjection.InvoiceApplies | simulator/ops_apply.py:272-348 | The order is there, shipped and not invoiced, its shipment matches and its total is the positive price of its line |
| OpsProjection.OpeningApplies | simulator/ops_apply.py:350-380 | The case id is free and the order names its customer |
| OpsProjection.ResolutionApplies | simulator/ops_apply.py:382-407 | The case is there and open |
| OpsProjection.ClosureApplies | simulator/ops_apply.py:409-418 | The case is there and resolved |
| OpsProjection.ProjectionStep | simulator/ops_apply.py:21-37 | Applying one more event never fails and leaves tables, status histories and markers that reflect the events applied so far and this one; an event already marked changes nothing |
| OpsReplay.ParentRanksLower | simulator/ops_apply.py:40-44 | The priority order puts every event's parent before it or in an earlier batch |
| OpsReplay.ApplySortedReflects | simulator/ops_apply.py:19-38 | A date's batch, applied in priority order, never fails and ends reflecting every event, each with its effect and its marker once, however much of it was applied before |
| OpsReplay.ReflectionIsUnique | simulator/ops_apply.py:19-38 | Two databases that reflect the same events have the same orders, customers, shipments, invoices, cases, totals, histories and markers |
| OpsReplay.IdsAfter | simulator/ops_apply.py:135-136 | An event not marked that adds an order or invoice allots it the next line or invoice id; every other event leaves the ids alone |
| OpsReplay.IdsAreDetermined | simulator/ops_apply.py:294-295 | Databases that reflect the same events and agree on ids still agree after a batch, so invoice ids survive a replay |
| OpsReplay.LineIdsFollowTheBatch | simulator/ops_apply.py:135-136 | A batch of new orders gets consecutive line ids in the order of the batch |
| OpsReplan.DayIsConsistent | simulator/ops_run.py:62-70 | After each of a date's three recordings the ledger is consistent and the batches are of the kinds the code expects |
| OpsReplan.FulfillmentAgain | simulator/ops_run.py:66-68 | Planned again before the second commit, from a ledger already holding any of it, fulfillment is event for event the same |
| OpsReplan.FulfillmentIsDone | simulator/fulfillment.py:25-42 | Planned again once committed, it is empty: nothing that was due is left |
| OpsReplan.SupportIsDone | simulator/support.py:25-93 | Planned again once recorded, support is empty, whatever next id the database gives |
| OpsTrack.OrdersAreRecorded | simulator/ops_run.py:55-63 | From any state a crash can leave with no order of the date on record, the code plans exactly the date's orders, and recording them is the next state |
| OpsTrack.OrdersAreCommitted | simulator/ops_run.py:65 | Applying the orders, in planned or recorded order, moves on to the next state, or changes nothing if they were committed |
| OpsTrack.FulfillmentIsRecorded | simulator/ops_run.py:66-68 | Planning and recording fulfillment from any such state gives the date's fulfillment or nothing, and the next state |
| OpsTrack.SupportIsRecorded | simulator/ops_run.py:69-70 | The same for support |
| OpsTrack.RestIsCommitted | simulator/ops_run.py:71-76 | Applying the rest of the date never fails and ends it; a second time changes nothing |
| OpsTrack.OnTrackIsReference | simulator/ops_run.py:50-79 | In every state a crash can leave, the database is that of the uninterrupted run after as many commits, order line ids apart |
| OpsTrack.LineIdsSurviveReplayExactly | simulator/ops_apply.py:135-136 | Replaying recorded orders in event-id order allots the same line ids if and only if they were planned in that order |
| OpsTrack.TwoWinsPlan | simulator/ops.py:30-65 | A date on which two deals are won and due: its plan is their two orders |
| OpsTrack.ReplaySwapsLineIds | simulator/ops_run.py:55-65 | Where their hashed ids are the other way round, committing them as planned and as the ledger lists them gives each the line id of the other |
| OpsRun.CrashSwapsLineIds | simulator/ops_run.py:50-65 | As it runs: that date left alone, and the same killed after its first recording and run again, end with the two line ids swapped |
| OpsRun.OpsRun.RecordEvents | simulator/state.py:253-281 | The ledger gains the events it lacks and nothing else; it stays ordered by event id without repeats |
| OpsRun.OpsRun.Apply | simulator/ops_run.py:142-152 | Commits the whole batch or, if a handler fails, nothing; the count is the number of new markers |
| OpsRun.OpsRun.RecordFulfillment | simulator/ops_run.py:66-68 | Survived, the fulfillment is on record and nothing else changes |
| OpsRun.OpsRun.RecordSupport | simulator/ops_run.py:69-70 | Survived, the support events are on record and nothing else changes |
| OpsRun.OpsRun.FinishRun | simulator/ops_run.py:66-79 | From any recoverable state after the first commit, finishes the date or crashes into a recoverable state; the counts are the date's events and the new markers |
| OpsRun.OpsRun.Run | simulator/ops_run.py:50-79 | Refuses only before CRM applied, never fails in an applier, stays recoverable whatever the crash, and finished leaves the date's final ledger and database, with the line ids of the orders as planned or, if they were on record, as the ledger lists them; a finished date stays finished |
| OpsRun.OpsRun.RunDate | simulator/ops_run.py:50-79 | After any crashes and one finished run: the ledger of the uninterrupted run, and its database up to order line ids |
| OpsRun.RunThrough | simulator/scheduler.py:45-54 | The same over all dates, with any crashes at each, against the uninterrupted history |
| OpsRun.NextDateStarts | simulator/ops_run.py:50-79 | Where a date ends, in any way, the next one can start |
| OpsRun.ThroughIsLocal | simulator/ops_run.py:58 | What the dates through one leave depends on the CRM events through it only |
| OpsHandoff.IdsSoundThrough | simulator/ops_apply.py:294-295 | Over all dates every invoiced order has one invoice id, no two share one, and ids given stay given |
| OpsHandoff.DateAddsEventsOfTheDate | simulator/state.py:253-281 | A date only adds events, all of its own date |
| OpsHandoff.RowsStay | simulator/ops_apply.py:272-278 | Once there, an invoice never changes nor does its order's customer, and an invoice that is new carries its date |
| OpsHandoff.OpsHandsOver | simulator/erp_run.py:83-110 | What ERP reads each date has distinct invoice ids and orders, known companies, contains all it read the date before, and adds invoices of that date only |
| OpsHandoff.EveryInvoiceIsVisible | simulator/erp_run.py:83-112 | ERP sees an invoice for every invoice event, with its date, its order's customer's company, its order's currency and the price of its line |
| OpsHandoff.VisibleIsBilled | simulator/erp_run.py:83-112 | And every invoice it sees that is not of the seed is such a one |
| OpsOneOrder.OneOrderPerOpportunity | simulator/ops.py:34-35 | If each opportunity is won by one event, no two orders of the simulation or the seed ever share one |
| OpsOneOrder.ConvertedOnce | simulator/ops.py:30-65 | A date's orders are for opportunities never ordered before, each its own |
| OpsFromCrm.ReadCrm | simulator/state.py:293-308 | The CRM events through a date, read from the ledger by event id, each once |
| OpsFromCrm.HistoryWinsOnce | simulator/crm.py:137-195 | Where every history is a path and holds what was published, no deal is won by two published events |
| OpsFromCrm.OneOrderPerDeal | simulator/ops.py:30-65 | Fed from what CRM published, Ops never orders an opportunity twice, over all dates |
| OpsFromCrm.WinIsServed | simulator/ops.py:41-63 | Every win with a usable account gets an order for its opportunity and customer, with the id of its place |
| OpsFromCrm.DueWinIsOrdered | simulator/ops.py:31-38 | Planning a date leaves no due win without an order |
| OpsFromCrm.EveryDueWinIsOrdered | simulator/ops.py:23-65 | On every date every win that is due by then has its order |
| OpsTiming.OrdersHaveWins | simulator/ops.py:31-74 | Over all dates every order is for a won event with a usable account, under its opportunity and customer, and is dated the days after the win that policy and hash say, which it records; no earlier whatever CRM brings, and to the day when CRM's events come on their date |
| OpsTiming.NoWinIsMissed | simulator/ops.py:31-74 | And once that day has come the opportunity has its order |
| OpsTiming.CrmArrivesInTime | simulator/state.py:293-308 | The CRM events on record, read through each date, come on their date and stay |
| OpsTiming.OrderIsForWonDeal | simulator/ops.py:32-33 | Every order is for a deal CRM recorded as moved to Closed Won, under that deal's name and customer |
| OpsTiming.WonDealIsOrdered | simulator/ops.py:23-65 | Every deal CRM recorded as moved to Closed Won has its order when its day has come |
| OpsTiming.DateAddsWhatIsDue | simulator/ops_run.py:58-79 | A date's six planners add exactly what was due and not done, today's orders, shipments, deliveries and openings included where the code includes them |
| OpsTiming.EveryEventIsInTime | simulator/fulfillment.py:44-168 | Over all dates each shipment, invoice, delivery, case opening, resolution and closure follows its cause by exactly the days that policy and hash say, three more than the window's maximum for a stalled shipment, and records them; only deliveries with hash byte 0 to 5 have a case |
| OpsTiming.NothingIsMissed | simulator/support.py:32-109 | And an event has what should follow it if and only if that day has come |
| Erp.OneBreachPerWeek | simulator/policy.py:64-69 | Every ISO week has exactly one breach date |
| Erp.PostingDelay | simulator/erp.py:89-96 | The delay is at least the window's minimum and at most its maximum plus one |
| ErpLedger.PlanPostsEligible | simulator/erp.py:60-87 | A plan posts every eligible invoice and no other, each once, dated the run date, in its company's currency, with consecutive ids from the next free one |
| ErpLedger.FirstDayIsFirst | simulator/erp.py:53-58 | An invoice may publish on a date if and only if its first posting day has come |
| ErpLedger.PostingLag | simulator/erp.py:54-57 | That day is the due date, or the next when it is a breach date, even if that one is too; the lag never exceeds the window's maximum plus two |
| ErpLedger.PostingIsInTime | simulator/erp.py:51-97 | A posting is dated its invoice's date and the days it records, one later when that is a breach date; the days are one more than the window's maximum when the invoice is delayed, and those its hash byte picks otherwise |
| ErpLedger.EligibleOnFirstDay | simulator/erp.py:49-58 | With dates run one after another, an invoice is planned on a date if and only if that is its first posting day and the seed has not posted its order |
| ErpLedger.DayKeepsSchedule | simulator/erp.py:39-87 | After each date the ledger holds exactly the postings of the invoices whose first posting day has come, each dated that day |
| ErpLedger.DayKeepsConsistent | simulator/erp_run.py:114-127 | A date's postings are new and share no posting id, invoice or order with any other |
| ErpLedger.ApplyOnePosts | simulator/erp_apply.py:20-110 | Applying a recorded posting never fails, the table's checks on signs and dates included, adds exactly its row and marker, and a second time changes nothing |
| ErpLedger.ApplyAllPosts | simulator/erp_apply.py:20-37 | So for any batch, in any order and partly applied before |
| ErpLedger.PostedIsUnique | simulator/erp_apply.py:39-110 | The ERP database is a function of the recorded postings |
| ErpAmounts.QuantizeRounds | simulator/erp_apply.py:121-126 | A company amount is whole cents, off by half a cent at most, a tie going away from zero |
| ErpAmounts.PostingAddsItsRow | simulator/erp_apply.py:39-126 | The handler adds one row and changes no other: column by column the invoice's, and in the company's currency the same amount, or one worth the same at the rates of the invoice's date, a dollar being worth one, up to half a cent of that currency |
| ErpAmounts.EveryPostingIsRecorded | simulator/erp_apply.py:39-126 | So in the books of any ledger every posting has such a row |
| ErpRun.PostingsDue | simulator/erp.py:39-87 | The loops plan the date's postings: eligible invoices in id order, numbered from the next id |
| ErpRun.PlanFromBooks | simulator/erp_run.py:114-138 | Planned from the database, the postings are those planned from the ledger |
| ErpRun.ErpRun.RecordEvents | simulator/state.py:253-281 | The ledger gains the events it lacks and nothing else |
| ErpRun.ErpRun.Apply | simulator/erp_run.py:142-153 | Commits the whole batch or nothing; the count is the number of new markers |
| ErpRun.ErpRun.RecordPostings | simulator/erp_run.py:54-74 | From any recoverable state without postings of the date, the batch returned is exactly the date's postings and, survived, they are on record |
| ErpRun.ErpRun.CommitPostings | simulator/erp_run.py:76 | Committing never fails and leaves the date's final database |
| ErpRun.ErpRun.Run | simulator/erp_run.py:48-81 | Refuses only before Ops applied, never fails in the applier, stays recoverable whatever the crash, and finished leaves the date's final ledger and books |
| ErpRun.ErpRun.RunDate | simulator/erp_run.py:48-81 | After any crashes: the ledger and the database of the uninterrupted date |
| ErpRun.RunThrough | simulator/scheduler.py:45-54 | The same over all dates: every posting on its first posting day, once |
| SimulationState.LevelNeverFalls | simulator/state.py:199-221 | The watermark never falls nor goes below the baseline |
| SimulationState.OneDayAtATime | simulator/state.py:206-221 | It only ever rises by one day |
| SimulationState.DatesAreAppliedInOrder | simulator/state.py:179-189 | Each date up to the watermark had CRM, Ops, ERP marked, its run closed and the watermark advanced, in that order |
| SimulationState.NothingAhead | simulator/state.py:143-144 | No write ever concerns a date beyond the watermark's next |
| SimulationState.SimulationStateStore.Initialize | simulator/state.py:47-109 | Sets what is missing, keeps an old watermark, and refuses exactly a different baseline |
| SimulationState.SimulationStateStore.DueDates | simulator/state.py:129-133 | Every date after the watermark through the given one, in order |
| SimulationState.SimulationStateStore.ClaimRun | simulator/state.py:135-165 | Refuses exactly dates beyond the next; a new date gets a run flagged as the policy has it and three pending sources, a known one keeps its state; the answer is whether it is still to run |
| SimulationState.SimulationStateStore.SourceRunState | simulator/state.py:223-231 | Fails exactly for an unclaimed date |
| SimulationState.SimulationStateStore.MarkSourceApplied | simulator/state.py:167-197 | Succeeds if and only if the date is claimed and every earlier source is applied, and then marks that source only |
| SimulationState.SimulationStateStore.CompleteRun | simulator/state.py:199-221 | Succeeds if and only if the date is the next one with nothing pending; a crash between its two writes leaves a closed run that the next call completes |
| SimulationState.CompleteUnclaimed | simulator/state.py:206-221 | A store whose watermark passes a date that no source applied: nobody had claimed it |
| SimulationState.CompletingNeedsAClaim | simulator/state.py:206-221 | Completing the next date keeps the control state sound if and only if the date was claimed |
| Scheduler.OpsStillStarts | simulator/ops_run.py:58 | Recording a new date's CRM events leaves Ops at the start of that date where it was |
| Scheduler.ErpIsStillDone | simulator/erp_run.py:53-57 | And leaves ERP done with the date before |
| Scheduler.DailySimulationRunner.RunCrm | simulator/crm_run.py:39-48 | Claims, records the draw unless one is on record, publishes and marks, or crashes into a state a rerun continues; the watermark stays |
| Scheduler.DailySimulationRunner.RunOps | simulator/ops_run.py:50-79 | Leaves Ops applied and its ledger and database final for the date, or crashes into a state a rerun continues |
| Scheduler.DailySimulationRunner.RunErp | simulator/erp_run.py:48-81 | Posts, marks and completes the date, a run closed early being completed now, or crashes into a state a rerun continues |
| Scheduler.DailySimulationRunner.RunDate | simulator/scheduler.py:48-52 | A date either advances the watermark to itself with all sources caught up or crashes leaving the watermark; it takes 17 durable writes at most |
| Scheduler.DailySimulationRunner.RunThrough | simulator/scheduler.py:45-54 | Returns exactly the dates completed, consecutive from the watermark; uncrashed, as with writes enough for every date, the watermark is the date asked for |
| Scheduler.DailySimulationRunner.CatchUp | simulator/scheduler.py:45-54 | After any sequence of attempts, each with its own draws and its own point of death, one more run catches up |
| Scheduler.DailySimulationRunner.CaughtUpSources | simulator/scheduler.py:45-54 | Caught up, Ops has the ledger and database of the uninterrupted history of what CRM recorded (line ids apart), ERP has exactly the postings due by then, each once on its first posting day, and the books that go with them |
| Scheduler.DailySimulationRunner.OneOfEach | simulator/scheduler.py:45-54 | Caught up, every opportunity's history is a path along the stages, and it has one order at most, that one shipment and one invoice at most, and that one posting at most |
| Scheduler.DailySimulationRunner.AllInTime | simulator/scheduler.py:45-54 | Caught up, every Ops event follows its cause to the day, what should follow an event has followed if and only if its day has come, and every posting has a row that records its invoice at the rates of its date |
| Scheduler.ReadInvoices | simulator/erp_run.py:83-112 | The join returns the issued invoices of the Ops database, ordered by id |
| Scheduler.InvoicesAreVisible | simulator/erp_run.py:83-110 | After any crashes in Ops, ERP reads the invoices of the uninterrupted history |
| Witnesses.AVentureIsViable | simulator/events.py:29-43 | Event ids that tell all events apart exist, and with them seed databases that meet everything the simulation's theorems assume |
| Witnesses.RunVenture | simulator/scheduler.py:45-54 | From these seeds a runner is made and caught up with any date |
| Witnesses.SomeHashesAreBackwards | simulator/state.py:293-308 | Event ids exist that order two planned orders against their plan |
| CrmStages.StageEvents | simulator/crm.py:137-195 | One event for each selected opportunity: the first ones stall, the others move to the stage's successor, which `CrmStages.PathClimbs` shows to be the next rung |
| CrmStages.CreationsAndMovesArePlanned | simulator/crm.py:93-135 | New ids above all others and one move per selected opportunity make a plan with one event per opportunity |
| CrmStages.DateKeepsPaths | simulator/crm_storage.py:67-102 | Publishing a date keeps every opportunity's history a path along the stages, each row's previous stage being the stage of the row before |
| CrmStages.PathClimbs | simulator/crm.py:15-21 | Along a path each row starts where the one before it stood and goes up by one place in Prospecting, Qualification, Proposal, Negotiation, Closed Won, a new opportunity at the first |
| CrmStages.CreatedClimbsTheLadder | simulator/crm.py:15-21 | An opportunity created in the simulation has a history that is a beginning of these five, in order, and is won if and only if it is all of them |
| CrmStages.WonAtMostOnce | simulator/crm.py:16-21 | Along such a path a deal is won at most once, and was if and only if the path ends won |
| CrmStages.CrmDeltas.Publish | simulator/crm_storage.py:33-65 | The first publication of a date adds exactly its rows and history; later ones accept the same events, refuse others, and change nothing |
| CrmRun.SameEventsSameEffect | simulator/state.py:293-308 | Publishing recorded events in id order leaves the stages and every opportunity's history as planning order would |
| CrmRun.PublishingKeepsTrail | simulator/crm_storage.py:67-84 | Publishing keeps that each published event that moves a stage has its history row, under its date and stage |
| CrmRun.CrmRun.Run | simulator/crm_run.py:39-48 | Reuses what is recorded, draws only when nothing is, never meets a publishing error, publishes the date at most once, and crashed leaves the deltas alone |
| CrmRun.CrmRun.RunDate | simulator/crm_run.py:39-48 | However often a date is attempted, and whatever each attempt draws, it publishes the first recorded draw once |
| BulkQuery.FileIsWritten | fakeforce/bulk/query.py:141-158 | A part file written but not in the manifest changes nothing that is exported |
| BulkQuery.StrayIsDropped | fakeforce/bulk/query.py:133-139 | Dropping a file the manifest does not name changes nothing that is exported |
| BulkQuery.PartIsCommitted | fakeforce/bulk/query.py:169-182 | Publishing the manifest adds the part's rows at the end, ranges staying contiguous and the checkpoint behind |
| BulkQuery.BulkQueryJob.DiscardUncommitted | fakeforce/bulk/query.py:133-139 | Uncrashed, only files the manifest names are left; the exported rows never change |
| BulkQuery.BulkQueryJob.AddPart | fakeforce/bulk/query.py:169-182 | A part takes three durable writes; its rows are exported from the second on, whole, and its checkpoint follows |
| BulkQuery.BulkQueryJob.Stream | fakeforce/bulk/query.py:60-121 | From any committed prefix: the missing-part and the checkpoint errors never fire, the rows exported only grow along the scan, finished they are the committed rows and the scan past their number, and a crashed run keeps every part whose writes it survived |
| BulkQuery.BulkQueryJob.RowsAreCounted | fakeforce/bulk/query.py:76-85 | The manifest's counts add up to the rows its files hold |
| BulkExport.DeliveredIsFull | fakeforce/bulk/query.py:62-71 | Ordered by the unique id, or by an ORDER BY none of whose ties shows, every scan the engine may make delivers the same full result inside LIMIT and OFFSET |
| BulkExport.Export | fakeforce/bulk/query.py:60-121 | For such queries, however often the job is interrupted, and with scans and part sizes changing, the manifest is a prefix of the full result, and finished all of it |
| BulkExport.ResumingIsCompleteWhen | fakeforce/bulk/query.py:82-101 | Resuming over a delivery exports each of its rows and no other if and only if the committed rows are those it starts with, in any order |
| BulkExport.ResumesAreCompleteExactly | fakeforce/bulk/query.py:69-71 | For a query with its own ORDER BY: over all pairs of scans its key allows and all points of death, the resumed export is complete if and only if no row the query returns ties with a row of other cells |
| BulkExport.TiesOfTheWholeResult | fakeforce/bulk/query.py:69-71 | Without LIMIT and OFFSET that condition is that rows with equal keys have equal cells |
| BulkExport.TieExportsARowTwice | fakeforce/bulk/query.py:60-121 | As it runs: two tied rows, a part of one committed, the process killed, the scan back the other way round; one row is exported twice and the other never |
| BulkExport.Window | fakeforce/bulk/results.py:49-68 | A page is given if and only if the size is positive and the locator lies in the result; it never passes the end, and there is a next locator exactly when it does not reach it |
| BulkExport.StreamWindow | fakeforce/bulk/results.py:70-90 | Whatever the split into parts, the rows streamed are the slice of the joined rows, under one header |
| BulkExport.PartsJoinToExported | fakeforce/bulk/results.py:76-83 | Reading the manifest's parts in order gives the exported rows |
| BulkExport.PagesCoverTheResult | fakeforce/bulk/results.py:49-90 | Following the locators with any positive sizes covers every row once and ends |
| BulkIngest.DuplicatesExactly | fakeforce/bulk/ingest.py:203-227 | A prepared row succeeds if and only if its id is new to the table and no other row of the batch has it |
| BulkIngest.InsertsAreFresh | fakeforce/bulk/ingest.py:215-228 | The successful rows of a batch have pairwise different ids new to the table |
| BulkIngest.InsertGrowsBySuccesses | fakeforce/bulk/ingest.py:295-300 | The table grows by exactly the number of successes |
| BulkIngest.InsertedRows | fakeforce/bulk/ingest.py:298-300 | Old rows stay, and each successful row is there with its values |
| BulkIngest.BatchKeepsSound | fakeforce/bulk/ingest.py:194-233 | Each batch keeps that the results number rows 1 to `csv_row_number` once each, that processed and failed add up to it, and that the table is the old one with exactly the successful rows, each id by one of them |
| BulkIngestRun.DuplicateIds | fakeforce/bulk/ingest.py:205-211 | The loop finds exactly the ids the batch has at least twice |
| BulkIngestRun.Judge | fakeforce/bulk/ingest.py:212-231 | The outcome of each row is the batch's specified one |
| BulkIngestRun.CommitBatch | fakeforce/bulk/ingest.py:283-332 | For fresh successes no insert violates the unique id; table, results and checkpoint change together |
| BulkIngestRun.IngestIsSound | fakeforce/bulk/ingest.py:156-184 | A whole run keeps the invariant and, unless a row is too wide, reaches the end of the file |
| BulkIngestRun.BulkIngestJob.Commit | fakeforce/bulk/ingest.py:194-233 | The state is the old one with the batch applied, and no violation occurs |
| BulkIngestRun.BulkIngestJob.Stream | fakeforce/bulk/ingest.py:156-184 | A bad header changes nothing; otherwise, crashed or not, what is left to do from the new state leads to the same end as from the old one, and finished it is that end |
| BulkIngestRun.RunWithCrashes | fakeforce/bulk/ingest.py:156-184 | Interrupted any number of times, the table, the row results and the counts are those of one run |
| BulkIngestCells.CoerceSays | fakeforce/bulk/ingest.py:251-274 | A cell is accepted if and only if it can be read, and its value is the one it says: `true`, in letters of any case, or `1` true, `false` or `0` false, an empty one null or, for IsDeleted, false, a literal of the field's type otherwise |
| BulkIngestCells.RowIsReadAs | fakeforce/bulk/ingest.py:235-249 | A prepared row has the id it names, or else that of its number, and the values its cells say; a rejected one names the first field whose cell cannot be read |
| BulkIngestCells.SuccessesStandAsRead | fakeforce/bulk/ingest.py:194-249 | After a run with any batch size each row reported as a success stands in the table under that id with those values |
| BulkIngestCells.RunStandsAsRead | fakeforce/bulk/ingest.py:155-249 | The same after any interruptions |
| BulkIngestCells.IngestInvertsWriting | fakeforce/bulk/ingest.py:155-274 | New rows written out as CSV and ingested, in batches of any size, all succeed, and the table holds what it held and these rows, value for value |
| BulkIngestBatching.SameForEverySize | fakeforce/bulk/ingest.py:169-183 | If the file repeats no new id, the results for every batch size are those of the file in one batch, up to where the run stops, which is the end unless a row is too wide |
| BulkIngestBatching.WideRowCuts | fakeforce/bulk/ingest.py:172-183 | A file with a too-wide row is stopped by it, after exactly the whole batches before it |
| BulkIngestBatching.FirstSucceeds | fakeforce/bulk/ingest.py:205-227 | One row at a time, the first row of a new id succeeds, whatever follows it |
| BulkIngestBatching.RepeatedFailTogether | fakeforce/bulk/ingest.py:205-227 | In one batch, all rows of a repeated id fail as duplicates |
| BulkIngestBatching.BatchSizeMattersExactly | fakeforce/bulk/ingest.py:169-183 | All batch sizes give the same results if and only if the first row is too wide, or no row is and the file repeats no id that the table lacks |
| ResolutionCache.StepKeepsInv | fakeforce/catalog.py:92-97 | Whatever step any thread or the file system takes, the stored value is one the file system had no earlier than its fingerprint |
| ResolutionCache.HitIsCurrent | fakeforce/catalog.py:93-97 | A hit answers with sources of a moment inside the call, although the value was stored before it |
| ResolutionCache.RunKeepsInv | fakeforce/catalog.py:130-139 | In every interleaving every answer is what the file system had at a moment inside its call |
| ResolutionCache.StaleAnswer | fakeforce/catalog.py:92-97 | If a fingerprint recurs over different sources, an interleaving exists whose answer was never true during the call |
| ResolutionCache.AnswersAreCurrentExactly | fakeforce/catalog.py:194-213 | All answers of all interleavings are current if and only if a recurring fingerprint means unchanged sources |
| ResolutionCache.DistinctSignaturesAreEnough | fakeforce/catalog.py:194-213 | With fingerprints that never recur all answers are current |
| CursorPaging.ReadsTheSlice | fakeforce/cursor_artifacts.py:56-68 | The ids read for a page are those of the result's slice, however the index file orders its rows |
| CursorPaging.RehydratedPageIsTheSlice | fakeforce/query_service.py:298-317 | Looking these ids up in an unordered scan gives the result's slice itself, in order |
| CursorPaging.FoundRecords | fakeforce/query_service.py:312-314 | A rehydrated page is full if and only if all its ids are found, and empty if and only if none is |
| CursorPaging.Paging.Query | fakeforce/app.py:335-364 | The first page is the first slice of the page query's result; a cursor and the index of the result as it comes back for the index are left exactly when there is more |
| CursorPaging.Paging.QueryMore | fakeforce/app.py:367-399 | Refuses exactly malformed locators, unknown cursors, other snapshots, missing index files and offsets past the end; the next locator points past the records returned |
| CursorPaging.Paging.ReadAll | fakeforce/app.py:367-399 | Following the locators ends, whatever order each page finds the data in, and reads the first page of the one evaluation and the rest of the other |
| CursorPaging.PagesReadOnceExactly | fakeforce/query_service.py:229-242 | For given data, query and page size, no record is read twice, whatever admissible orders the two evaluations come back in, if and only if the result fits one page or the sort keys differ across the end of the first page; without an ORDER BY, if and only if it fits one page |
| CursorPaging.ReadIsOneResult | fakeforce/query_service.py:229-242 | Then what is read is the result of one admissible evaluation: no record twice, none missing, in the order asked for |
| CursorPaging.TieReadsARowTwice | fakeforce/app.py:335-399 | A query ordered by a field on which two records tie, read in pages of one, returns one of them twice and the other never |
| CursorPaging.Paging.Follow | fakeforce/app.py:367-399 | However many requests follow the locators over data that lacks some ids, the offset reached is that of the walk by records found |
| CursorPaging.ReadingEndsExactly | fakeforce/query_service.py:312-314 | That walk reaches the end if and only if no page-sized run of ids, wherever it starts, is entirely gone; else the same locator comes back forever |
| CursorPaging.GoneRecordIsAskedFor | fakeforce/app.py:367-399 | Two records read in pages of one, the second deleted after the first page: any number of requests stays at its locator |
| SoqlTokens.PositionsIncrease | fakeforce/soql.py:75-125 | Token positions lie in the source and strictly increase |
| SoqlTokens.NoCharacterIsUnexpected | fakeforce/soql.py:121-122 | The unexpected-character error never occurs |
| SoqlTokens.TokensOfRender | fakeforce/soql.py:75-125 | Tokens printed with single spaces, strings with their quotes doubled, are read back as they were |
| SoqlTokens.ReadString | fakeforce/soql.py:84-102 | The loop over a string finds its value and end, doubled quotes included, or that it is not closed |
| SoqlTokens.ReadWord | fakeforce/soql.py:117-120 | The loop over a word ends at the first space or delimiter |
| SoqlTokens.Tokenize | fakeforce/soql.py:75-125 | The loop gives the specified tokens, or its first error, for every source |
| SoqlParser.DecimalBack | fakeforce/soql.py:203-204 | Every integer printed in decimal is numeric and is read back |
| SoqlParse.Parser.ReadFields | fakeforce/soql.py:166-172 | The loop reads the specified field list and leaves the specified rest |
| SoqlParse.Parser.ReadPredicate | fakeforce/soql.py:174-186 | The same for one predicate |
| SoqlParse.Parser.ReadWhere | fakeforce/soql.py:142-145 | The same for the WHERE clause |
| SoqlParse.Parser.ReadOrder | fakeforce/soql.py:146-156 | The same for ORDER BY with its defaults |
| SoqlParse.Parser.ReadQuery | fakeforce/soql.py:133-164 | The parser that advances an index gives the specified query or error for every token list |
| SoqlParse.Run | fakeforce/soql.py:259-261 | Tokenizing and parsing is the specified function of the source text |
| SoqlGrammar.NumericExactly | fakeforce/soql.py:72 | A text passes for a number if and only if it is a sign or none, digits with a fraction or none, or a fraction with a digit, and an exponent or none |
| SoqlGrammar.WholeExactly | fakeforce/soql.py:203-204 | A number without point and exponent is a sign and digits, and its value is theirs by place |
| SoqlGrammar.TokensExactly | fakeforce/soql.py:75-125 | A text has given tokens if and only if it spells them: quotes doubled in strings, keywords in any letters that upper-case to them, spaces wherever one likes and where two tokens would run together |
| SoqlExact.LiteralExactly | fakeforce/soql.py:188-205 | A token is read as a literal if and only if it means it: a string, a constant in any letters, a number, or itself |
| SoqlExact.FieldsBack | fakeforce/soql.py:166-172 | A field list is read as its fields, and nothing after it is touched |
| SoqlExact.FieldsForm | fakeforce/soql.py:166-172 | And what is read as fields is a field list |
| SoqlExact.PredicateBack | fakeforce/soql.py:174-186 | The same for a predicate |
| SoqlExact.PredicateForm | fakeforce/soql.py:174-186 | And back |
| SoqlExact.WhereBack | fakeforce/soql.py:142-145 | The same for the WHERE clause |
| SoqlExact.WhereForm | fakeforce/soql.py:142-145 | And back |
| SoqlExact.OrderBack | fakeforce/soql.py:146-156 | The same for ORDER BY: ascending unless it says DESC, nulls last unless it says FIRST |
| SoqlExact.OrderForm | fakeforce/soql.py:146-156 | And back |
| SoqlExact.TailBack | fakeforce/soql.py:142-164 | The same for all that follows the object name, to the end of the query, an offset left out being 0 |
| SoqlExact.TailForm | fakeforce/soql.py:142-164 | And back |
| SoqlExact.ParsesExactly | fakeforce/soql.py:259-261 | A text parses to a query if and only if it writes that query, for every text and query |
| SoqlRoundTrip.QueryIsPrinted | fakeforce/soql.py:133-164 | Every printable query is written by its printed tokens, with its default direction, nulls and offset said or left out |
| SoqlRoundTrip.ParseInvertsPrint | fakeforce/soql.py:259-261 | Parsing the printed text of any printable query, in each of these styles, gives the query back |
| SoqlRoundTrip.AsciiUpperIsSane | fakeforce/soql.py:123-124 | Upper-casing ASCII letters has the properties the round trip asks of `upper` |
| HistoryInference.NotBeforeIsNotTransitive | generator/history_backfill.py:60-64 | Nine o'clock is not before the date, which is not before noon, but nine o'clock is before noon |
| HistoryInference.NotBeforeChainsExactly | generator/history_backfill.py:60-64 | Two comparisons chain if and only if they are not of a timestamp, a date and a later timestamp of one day |
| HistoryInference.NotBeforeSurvivesReplacement | generator/history_backfill.py:69-73 | A floor that replaces a value keeps every comparison the value had passed |
| HistoryInference.ClampNotBefore | generator/history_backfill.py:67-73 | The loop computes the specified clamp |
| HistoryInference.ClampIsNotBeforeAnyFloor | generator/history_backfill.py:67-73 | The clamp is not before any floor, is the value or a floor, and is the value if that was before none |
| HistoryInference.OrderHistoryIsSound | generator/history_backfill.py:148-186 | Inferred order events chain from none through legal moves, each not before every earlier one; unless flagged invalid they end in the order's status exactly when it is a known one |
| HistoryInference.RecordedInvoiceIsKept | generator/history_backfill.py:169-172 | An invoice time not before shipping and creation is used as it is |
| HistoryInference.OtherHistoriesAreSound | generator/history_backfill.py:189-221 | So are inferred shipment and invoice events; a valid invoice history has two events exactly when it is void |
| HistoryInference.CaseHistoryIsSound | generator/history_backfill.py:224-250 | So are inferred case events, and a valid history has as many as the status calls for |
| HistoryTimes.OrderEventsSay | generator/history_backfill.py:148-186 | Each event inferred of an order says when, when due and whether late: shipped at the shipment's date unless that is missing or too early, invoiced three days due after that, moved up only to what it must not precede; breached if and only if its day is after the day it was due |
| HistoryTimes.OrderIsFlaggedExactly | generator/history_backfill.py:148-186 | Which orders are flagged, if and only if, and which have a shipment event |
| HistoryTimes.ShipmentEventsSay | generator/history_backfill.py:189-204 | The same for shipments, their flag and their number of events |
| HistoryTimes.InvoiceEventsSay | generator/history_backfill.py:207-221 | The same for invoices |
| HistoryTimes.CaseEventsSay | generator/history_backfill.py:224-250 | A case was resolved its recorded hours after its opening, due after three days and late if and only if on a later day than that; it was closed when it was updated |
| HistoryTimes.CaseIsFlaggedExactly | generator/history_backfill.py:230-248 | Which cases are flagged, if and only if |
| KeysetBackfill.PageEnds | generator/audit_backfill.py:267-279 | A key not yet passed is at most the page's last key if and only if it is in the page |
| KeysetBackfill.PageIsPassed | generator/audit_backfill.py:255-263 | Moving the last key on passes exactly the page |
| KeysetBackfill.PageIsWalked | generator/audit_backfill.py:253-263 | A committed batch keeps that the batches are disjoint, hold exactly the keys passed, and that `rows_scanned` and `rows_updated` count them and what their updates touched |
| KeysetBackfill.Backfill.RunBatch | generator/audit_backfill.py:224-265 | Commits the next page with its progress together, and completes exactly when no key remains |
| KeysetBackfill.Backfill.RunBatches | generator/audit_backfill.py:205-211 | Commits as many batches as asked for, or all; it stops early only when every key is in one batch |
| KeysetBackfill.RunTargets | generator/audit_backfill.py:198-214 | Until complete it ends, from wherever earlier runs were interrupted, with every key of every target in exactly one batch |
| HistoryBackfill.BatchIsSound | generator/history_backfill.py:310-326 | A batch of candidates visits entities never visited before that have no history, and skips none up to its last key but those that got a history meanwhile |
| HistoryBackfill.NoneIsLeft | generator/history_backfill.py:311-317 | With no candidate left, every entity was visited or has a history of others |
| HistoryBackfill.HistoryRun.OthersWrite | simulator/ops_apply.py:113-128 | What others append meanwhile keeps each history what was inferred, if anything, and then what others wrote |
| HistoryBackfill.HistoryRun.RunBatch | generator/history_backfill.py:297-328 | Commits histories, inferred from the rows as the batch reads them, and progress together, visits new entities without history, and marks completion only when none is left |
| HistoryBackfill.HistoryRun.RunUntilComplete | generator/history_backfill.py:291-329 | It ends although its own and others' histories take candidates away and rows change between batches, with every entity inferred exactly once, from its row as some batch read it and before anything else in its history, or left to what others gave it; `rows_scanned` and `rows_updated` count the entities and the events |

## Left out

Assumed:

- One compactor runs at a time, one writable delta root holds all partitions, a reader lists and reads files in one step, and replacing a file, a transaction, `record_events`, `claim_run` and the publication of a date's CRM files are single steps although the code runs several statements or files there. `publish` is not restart-safe between its files (`simulator/crm_storage.py:52-64`): a retry there takes its own delta for the state before.
- Rows of one file have different ids, and versions grow with the business date and exceed the seed's; that is the publisher's discipline, and a `requires` of publishing.
- SHA-256 is an uninterpreted function, injective where event ids are compared. Event and record ids are integers standing for strings under the same order.
- The seed databases keep their foreign keys, hold what the appliers look up (a product with a positive price, a warehouse, a carrier, known companies, a revenue account, cost centers, exchange rates, invoices that are positive and no younger than the baseline), have no marker or history row of a simulated event, and no posting with a document number of the simulator's form (seed numbers are padded to nine digits, `generator/generate.py:996-997`, simulated ones to twelve, `simulator/erp.py:73`). An invoice's amount does not round to nothing in its company's currency. No one else writes to these databases.
- The engine, the simulator and the publisher rank by three configured columns (`SystemModstamp`, `LastModifiedDate`, the version field); the model has one version, so it assumes that they order the rows of an id alike.
- Versions and times are integers; a date is an integer; ISO weeks are seven dates each.

Weaker than the code, or than one would wish:

- OpsRun.OpsRun.RunDate: equality of the database leaves out `order_line_id`, because it is false of the code; `OpsTrack.LineIdsSurviveReplayExactly` has the condition.
- OpsRun.OpsRun.Run: `records_applied` counts the markers of the attempt that finished, as in the code, not those of attempts that crashed before.
- Scheduler.DailySimulationRunner.RunCrm: draws are opportunity events, one parameter per attempt; the accounts and the sampling behind them are not modelled.
- CrmStages.CrmDeltas.Publish: opportunities and their stages only; account events and the other columns are left out.
- BulkExport.Window: the locator is parsed already; what `int()` accepts is not modelled. An empty result has no page, as in the code.
- BulkExport.Export: the sort key of an ORDER BY, with its direction and nulls, is an integer per row.
- CursorPaging.Paging.ReadAll: one snapshot and ids that are all still found; `CursorPaging.ReadingEndsExactly` says when reading ends without that, for a set of records found that stays the same from page to page.
- CursorPaging.Paging.Query: expiry of cursors is the absence of their row.
- SoqlExact.ParsesExactly: `upper` is any function; digits are ASCII; a fraction keeps its text instead of becoming a float; spaces are those listed in `SoqlTokens.IsSpace`. Of a text that writes no query only that it is refused is said; `SoqlParse.Run` returns the specified error.
- SoqlRoundTrip.ParseInvertsPrint: `upper` has the properties stated by `Sane`.
- HistoryInference.OrderHistoryIsSound: an order whose status is none of the four known ones is not flagged and its events end at PENDING, in the code as in the model.
- BulkIngestCells.CoerceSays: whether a text is accepted and the value, not the error message; a number, date or timestamp is its type and text, and which texts are one is a parameter.
- KeysetBackfill.RunTargets: keys are integers and fixed, and the advisory lock is that only one run is at work.
- HistoryBackfill.HistoryRun.RunUntilComplete: one row per entity; the order query joins shipments and invoices and may return an order more than once, of which the first inference stays. The dry run is left out.

Not modelled:

- Timestamps of rows, customers' generated columns, surrogate history ids, warehouse, carrier and product master data beyond being there, currencies of Ops invoices.
- Decimal precision of foreign-exchange amounts: document amounts are whole cents, company amounts reals rounded half up to cents.
- `CHECK` constraints, except those of ERP postings on signs and dates (`sql/migrations/erp/001_initial_schema.sql:87-90`).
- Parquet, DuckDB and PostgreSQL themselves, SQL text, CSV parsing and encoding, Arrow batches, file checksums, disk reserve, spilling and `fsync`.
- Objects without a version field, several writable roots, and compaction's choice of a root.
- The job transition table (`fakeforce/bulk/jobs.py`), cursors' expiry, OAuth, chaos settings, diagnostics and health routes: no property across steps.
- The reconciliation hook after ERP, schema migrations, the generator's sampling and the bulk loaders.
- The clock, time zones and the scheduler's timer: only the date asked for matters to a run.
