# SaaS collaboration system: verified model

A Dafny model of the protocols and computations behind the collaboration
system: what its background builders, runners, evaluations and stores keep,
whatever the interleaving, and what its computations promise, whatever the
input.  Each module follows one source file; a module whose name ends in
`Runs` holds the interleavings of the one before it.

- **InventoryViews, InventoryViewRuns**: the inventory menu is computed in
  chunks by background workers and read without a lock.  The record is a class
  whose methods are its transactions; the runs interleave readers, source
  changes, later invalidations, workers, crashes and recovery.  Main results:
  the cache is the scan it replaces (`ReadyIsTheScan`), a complete answer is
  one reading of one generation (`CompleteAnswerIsOneReading`), the menu comes
  to show that scan (`MenuShowsTheScan`) and never gets stuck (`NeverStuck`).
- **PilotRunner, PilotRunnerRuns**: idempotency keys, slots, environment locks
  and hand-over; every store call, audit entry and scheduling may fail, and the
  program may restart at any point.  The steps of one request left alone are
  the sequential service (`StepsAreSubmit`).
- **SupplyPipeline, WmsReconciliation, SalesCoverage, BundleDemand,
  CountryDecisions, CountrySuggestions**: from shipments, receipts, sales
  history and stock to a suggested quantity or none: conservation, coverage,
  decomposition, gate, and all of them in one (`DecideFromRecords`).
- **Alerts, AlertEvaluation, WatchList**: the life of an alert, the evaluation
  of a country, and the cache and watch list of assessments.
- **SkuResolution, BulkUpsert, BulkRefinement**: scalar and page forms of the
  same decision, with the exact condition under which one refines the other.
- **DepartmentForest**: a forest out of any parent map, and the guard that
  keeps an acyclic hierarchy acyclic.
- **ReceiptStore, ReceiptDirectory**: one-time receipts as files, with inodes,
  locks, unlinking, stops and power losses.

Hashes and signatures are injective, so they are modelled by what they digest;
a database transaction is one step; times are whole seconds that never go
back.  `dafny verify dfyconfig.toml` checks everything.

## What the code does not do

Each of these promises holds only under a condition; the lemma named states it
exactly.

- The menu's count and page are two queries, and a search text is matched
  against live product names: a renaming between them tears the answer.  All
  schedules are safe if and only if there is no search text or no row passes
  the filter (`TearsExactlyWhenSearched`; the schedule that tears it:
  `TornSchedule`).
- `mark_running` is called outside the try blocks, so a store failure there
  keeps a slot and an environment lock until the next restart.  All is given
  back if and only if each such failure was followed by one
  (`OnlyMarkingLeaks`; a run that loses them: `FailedMarkingExample`).
- Restart recovery covers only running rows: a row found by a restart gets a
  final status if and only if it was not found accepted (`FinalUnlessAccepted`;
  the same run, restarted, strands its row).
- The page resolver announces the same rules as the scalar one, yet removes
  generated items together with legacy codes: `PageRefinesScalar` has the exact
  condition, `DivergenceExample` the inputs.
- A bulk page does not see the links it makes itself: `PageMatchesFold` has the
  exact condition for every page of distinct keys, `RepeatedSourceDiffers` a
  family of pages that fail it, `RepeatedSourceExample` two payloads.
  A row linked under another platform's run becomes warehouse history once a
  payload is stored over it, which the condition includes.
- A postponed assessment shows pending although both its signatures still
  match: what is shown is right if and only if the assessment was not postponed
  after its last evaluation (`ShownExactlyUnlessWithdrawn`; two steps that do
  it: `PostponedExample`).

## Model

| member | source | states |
|---|---|---|
| `InventoryViews.InventoryDecisionView.InvalidateViews` | saas-collab-system/backend/apps/alerts/inventory_views.py:23-27 | Every view that is not already pending becomes pending with a new revision; a pending one is left alone |
| `InventoryViews.InventoryDecisionView.GetOrCreate` | saas-collab-system/backend/apps/alerts/inventory_views.py:36-38 | The one view of a query is created pending at revision 1 if there is none |
| `InventoryViews.InventoryDecisionView.TouchForMenu` | saas-collab-system/backend/apps/alerts/inventory_views.py:40-49 | Under the row lock: a refresh, a failure older than 30 seconds or a ready view past its expiry starts a new revision; updated_at is not touched |
| `InventoryViews.InventoryDecisionView.ClaimChunk` | saas-collab-system/backend/apps/alerts/inventory_views.py:102-113 | A pending or building view is claimed; the first claim of a revision resets cursor, count and expiry; the claim carries view, revision and cursor |
| `InventoryViews.InventoryDecisionView.PrepareRows` | saas-collab-system/backend/apps/alerts/inventory_views.py:132-139 | The rows inserted for a chunk and the deadline folded over it and over the chunks before |
| `InventoryViews.InventoryDecisionView.CommitChunk` | saas-collab-system/backend/apps/alerts/inventory_views.py:128-150 | A chunk is committed only by the holder of the current revision, with its rows, cursor, count and deadline; the last one makes the view ready, caps the expiry and drops all other generations |
| `InventoryViews.InventoryDecisionView.MarkFailed` | saas-collab-system/backend/apps/alerts/inventory_views.py:152-157 | A failing worker marks the view failed only while its revision is current |
| `InventoryViews.InventoryDecisionView.RecoverViews` | saas-collab-system/backend/apps/alerts/inventory_views.py:161-166 | Claims older than five minutes start a new revision; views not asked for during a day are deleted with their rows |
| `InventoryViews.CountIsKept` | saas-collab-system/backend/apps/alerts/inventory_views.py:62-75 | Each count of the aggregate, `positive` included, is the number of rows that the page filter of that name keeps, although `positive` counts quantities and filters a stored flag |
| `InventoryViews.OrderExists` | saas-collab-system/backend/apps/alerts/inventory_views.py:77-78 | Rows of one generation can be listed in the page order, each once |
| `InventoryViews.OrderUnique` | saas-collab-system/backend/apps/alerts/inventory_views.py:77-78 | and in one way only, so a page is determined by its offset and limit |
| `InventoryViews.SliceIs` | saas-collab-system/backend/apps/alerts/inventory_views.py:75-78 | A page starts at the offset and has as many rows as the limit, the count and the list allow |
| `InventoryViewRuns.CandidatesAreNext` | saas-collab-system/backend/apps/alerts/inventory_views.py:121-124 | The keyset query yields exactly the permitted SKUs next above the cursor, in order, at most as many as asked |
| `InventoryViewRuns.ReadFromIsNextStretch` | saas-collab-system/backend/apps/alerts/inventory_views.py:120-127 | Reading one SKU more than a chunk holds tells exactly whether the scan goes on, and the chunk is the scan's next stretch |
| `InventoryViewRuns.NeverCollides` | saas-collab-system/backend/apps/alerts/inventory_views.py:132-136 | The unique (view, revision, SKU) key is never violated by a chunk that may still be committed |
| `InventoryViewRuns.FoldIsEarliest` | saas-collab-system/backend/apps/alerts/inventory_views.py:137-140 | Folding deadlines chunk by chunk keeps the earliest deadline of all ready rows so far |
| `InventoryViewRuns.StepKeepsInv` | saas-collab-system/backend/apps/alerts/inventory_views.py:23-166 | Every step of readers, source changes, invalidations, workers, crashes, recovery and deletion keeps the whole invariant of the protocol |
| `InventoryViewRuns.RunKeepsInv` | saas-collab-system/backend/apps/alerts/inventory_views.py:23-166 | so it holds in every reachable state |
| `InventoryViewRuns.OutstandingIsHistory` | saas-collab-system/backend/apps/alerts/inventory_views.py:23-27 | In every run, the changes outstanding are those committed less those reported |
| `InventoryViewRuns.ReadyIsTheScan` | saas-collab-system/backend/apps/alerts/inventory_views.py:91-158 | In every run, whenever the view is ready and no source change awaits its invalidation, its rows are exactly one per permitted SKU, computed from the current source, and no other generation is left |
| `InventoryViewRuns.WorkersExclude` | saas-collab-system/backend/apps/alerts/inventory_views.py:102-131 | In every run: pending exactly when the build revision is behind; at most one worker can still commit; its view is claimed; its commit violates no unique key |
| `InventoryViewRuns.CompleteAnswerIsOneReading` | saas-collab-system/backend/apps/alerts/inventory_views.py:57-88 | A complete answer comes from one ready revision: summary, count and page are read from the rows of that generation, and the read began before an expiry that is five minutes after generation or a day after the data of the oldest ready row, whichever comes first |
| `InventoryViewRuns.UnsearchedAnswerAgrees` | saas-collab-system/backend/apps/alerts/inventory_views.py:62-78 | Without a search text, or if no renaming fell between the two queries, the count is the length of the very list that the page is a slice of |
| `InventoryViewRuns.TornSchedule` | saas-collab-system/backend/apps/alerts/inventory_views.py:57-81 | From any state in which a reader has locked a ready view, with a search text: a schedule of two renamings around the first query that completes, counts every row the filter keeps and lists none |
| `InventoryViewRuns.SearchedAnswerCanTear` | saas-collab-system/backend/apps/alerts/inventory_views.py:57-81 | So whatever the names are now, if more rows of the generation pass the filter than the offset skips, some complete answer counts rows that its page does not show |
| `InventoryViewRuns.TearsExactlyWhenSearched` | saas-collab-system/backend/apps/alerts/inventory_views.py:40-88 | From any such state, every complete answer of every schedule agrees with itself if and only if there is no search text or no row of the generation passes the filter |
| `InventoryViewRuns.SlicedAgrees` | saas-collab-system/backend/apps/alerts/inventory_views.py:62-78 | Where both queries keep equally many rows, the count is the length of the list that the page is a slice of |
| `InventoryViewRuns.LockTells` | saas-collab-system/backend/apps/alerts/inventory_views.py:40-57 | What a request does to the record it locks, and what it is told: failed exactly if the record failed and is not yet to be built again; building exactly if a new revision was just started or the current one has no row; else it reads the revision it locked |
| `InventoryViewRuns.RecheckTells` | saas-collab-system/backend/apps/alerts/inventory_views.py:81-88 | The answer is shown exactly if the record still has the revision that was read and is neither pending nor failed; it is complete exactly if it was ready when locked |
| `InventoryViewRuns.InvalidationIs` | saas-collab-system/backend/apps/alerts/inventory_views.py:23-27 | Every report of a change starts a new revision of a view that is not pending, and leaves its rows |
| `InventoryViewRuns.HousekeepingIs` | saas-collab-system/backend/apps/alerts/inventory_views.py:152-166 | Recovery takes exactly claims older than five minutes, whose workers can commit nothing any more; views not asked for in a day go with their rows; a failing worker fails the view it still holds |
| `InventoryViewRuns.UndisturbedReadAnswers` | saas-collab-system/backend/apps/alerts/inventory_views.py:39-88 | From any reachable state with a ready view that has not expired, a request without refresh, left alone, runs through its four steps to a complete answer: one reading of the rows, its count the length of the list it is cut from, in ascending order of SKU code and SKU |
| `InventoryViewRuns.OverForGood` | saas-collab-system/backend/apps/alerts/inventory_views.py:23-27 | A revision, once over, is never served again |
| `InventoryViewRuns.ReadyThroughout` | saas-collab-system/backend/apps/alerts/inventory_views.py:81-83 | The final recheck suffices: a revision ready when locked and current at the recheck was ready with the same rows at every moment between |
| `InventoryViewRuns.OneChunk` | saas-collab-system/backend/apps/alerts/inventory_views.py:95-150 | One chunk claimed, computed while nothing changes and committed makes the view ready or leaves fewer SKUs ahead |
| `InventoryViewRuns.BuildGetsReady` | saas-collab-system/backend/apps/alerts/inventory_views.py:91-158 | Progress: from any state in which the view waits to be built, one worker left alone makes it ready, with one chunk or no more chunks than there are SKUs ahead |
| `InventoryViewRuns.MenuGetsReady` | saas-collab-system/backend/apps/alerts/inventory_views.py:30-158 | From an empty table, a first menu request and then one worker, for any limit: the view is ready, and it is the scan |
| `InventoryViewRuns.MenuShowsTheScan` | saas-collab-system/backend/apps/alerts/inventory_views.py:30-158 | and a second request, unless some stock data is a day old already, is shown its page of that scan, completely |
| `InventoryViewRuns.NotExpired` | saas-collab-system/backend/apps/alerts/inventory_views.py:137-147 | A view made ready just now from data younger than a day has not expired |
| `InventoryViewRuns.NeverStuck` | saas-collab-system/backend/apps/alerts/inventory_views.py:40-166 | No reachable state is a dead end: whatever crashed, failed or was abandoned, waiting for recovery or retry, one request and one worker make the view ready |
| `PilotRunner.OperationStore.Open` | saas-collab-system/pilot-runner/app.py:567-571 | Opening the store interrupts exactly the rows left running |
| `PilotRunner.OperationStore.Claim` | saas-collab-system/pilot-runner/app.py:573-606 | A key claims one row; the same payload is answered with it, another is a conflict, and neither writes; a call that the database fails is rolled back |
| `PilotRunner.OperationStore.MarkRunning` | saas-collab-system/pilot-runner/app.py:608-610 | Only the status of the named row changes; a failing call changes nothing |
| `PilotRunner.OperationStore.Finish` | saas-collab-system/pilot-runner/app.py:612-635 | A final status and its code are written and the row returned; exactly a status that is not final, a failing database and a missing row are refused, and then nothing is written |
| `PilotRunner.RunnerService.Admit` | saas-collab-system/pilot-runner/app.py:823-853 | Every path through admission, whichever of the store, audit and scheduling calls fail: the verdict, the row, and that slot and lock are kept exactly for a task handed over or where marking the row raised |
| `PilotRunner.RunnerService.Start` | saas-collab-system/pilot-runner/app.py:833-853 | The part that holds a slot and a lock, from marking the row to the hand-over |
| `PilotRunner.RunnerService.Close` | saas-collab-system/pilot-runner/app.py:824-851 | The verdict is written if the store lets it, then audited; a failing audit marks the ledger broken |
| `PilotRunner.RunnerService.Submit` | saas-collab-system/pilot-runner/app.py:759-854 | Only the request that created the row is admitted, and none while the ledger is broken; a repeat, a conflict or a failing claim changes no row, slot, lock or task; a new row ends as rejected for the limit, the environment or the audit, failed for the scheduling, or running, told from what the request met |
| `PilotRunner.SettledRow` | saas-collab-system/pilot-runner/app.py:823-853 | The row of a new request, case by case: (rejected, CONCURRENCY_LIMIT), (rejected, ENVIRONMENT_BUSY), (rejected, AUDIT_UNAVAILABLE), (failed, SCHEDULING_FAILED) if the verdict could be written, else as far as it had come |
| `PilotRunnerRuns.StepKeepsInv` | saas-collab-system/pilot-runner/app.py:808-898 | Every acquire, release, store write, hand-over, task step and restart keeps slots, locks, owners and keys consistent |
| `PilotRunnerRuns.SlotsAndLocksConserved` | saas-collab-system/pilot-runner/app.py:823-898 | In every run, with any store, audit and scheduling failures: slots free, held, executing and lost by failed markings since the last restart sum to the limit; executions never exceed it; no environment executes two |
| `PilotRunnerRuns.ReleasesAreOwed` | saas-collab-system/pilot-runner/app.py:829-898 | No release is one too many: the bounded semaphore and the locks never raise |
| `PilotRunnerRuns.OnlyMarkingLeaks` | saas-collab-system/pilot-runner/app.py:833-836 | With nothing under way, free slots and failed markings since the last restart sum to the limit, and the locks still taken are those of the environments of these markings; so everything is back if and only if every failed marking was followed by a restart. That call stands outside every try block |
| `PilotRunnerRuns.HandedAtMostOnce` | saas-collab-system/pilot-runner/app.py:845-846 | Over all restarts, no operation is handed to the executor twice |
| `PilotRunnerRuns.KeysOwnTheirIds` | saas-collab-system/pilot-runner/app.py:587-600 | A claimed key keeps its operation id and payload hash for ever |
| `PilotRunnerRuns.RepeatsAreAnswered` | saas-collab-system/pilot-runner/app.py:587-593 | At any later time a repeated key, if the store answers, is told the same id where the hash agrees and refused otherwise; store, slots and tasks stay as they are |
| `PilotRunnerRuns.RestartSettles` | saas-collab-system/pilot-runner/app.py:567-571 | Every row that a restart finds is nobody's from then on: one found running ends interrupted, any other keeps its status for ever |
| `PilotRunnerRuns.FinalUnlessAccepted` | saas-collab-system/pilot-runner/app.py:567-571 | At any time after a restart, a row that it found has a final status if and only if it was not found accepted |
| `PilotRunnerRuns.RestartStrandsAccepted` | saas-collab-system/pilot-runner/app.py:567-571 | So a row found accepted stays accepted for ever and is never admitted again; a repeat of its key is only told its status |
| `PilotRunnerRuns.FailedMarkingExample` | saas-collab-system/pilot-runner/app.py:833-836 | From any start with a slot to give, a request whose row cannot be marked: all is quiet with a slot and its lock gone, and a restart gives them back and leaves the row accepted |
| `PilotRunnerRuns.StepsAreSubmit` | saas-collab-system/pilot-runner/app.py:759-854 | Refinement: the steps of one request with nothing in between, from any state, leave exactly the store, slots, locks, tasks and ledger that the sequential `Submit` leaves, whichever calls fail |
| `PilotRunnerRuns.TaskRuns` | saas-collab-system/pilot-runner/app.py:864-898 | A task left to run leaves its outcome on its row, unless the store fails, breaks the ledger if that is not audited, and in any case gives back its slot and its lock |
| `PilotRunnerRuns.RunsToItsOutcome` | saas-collab-system/pilot-runner/app.py:759-898 | so a new request whose environment is free, where every call works, ends with the outcome of its task under its key and every slot and lock as it was |
| `SupplyPipeline.LineStepsBalance` | saas-collab-system/backend/apps/commerce/supply_pipeline.py:181-285 | For any shipments, allocations and receipts, and any scope, eta rows keep accounting for all supply on its way |
| `SupplyPipeline.LineStepPlaces` | saas-collab-system/backend/apps/commerce/supply_pipeline.py:181-285 | The exact identity of one line in an unrestricted view: stages plus receipts absorbed by allocations equal the larger of line and allocations plus all receipts |
| `SupplyPipeline.LineConserved` | saas-collab-system/backend/apps/commerce/supply_pipeline.py:220-285 | A consistent line (one allocation per batch, receipts within it, allocations within the line) adds exactly its quantity to the stages and receipts |
| `SupplyPipeline.LineConservedExactly` | saas-collab-system/backend/apps/commerce/supply_pipeline.py:220-285 | and the lines of which that is true are exactly those whose surpluses cancel |
| `SupplyPipeline.SkuConserved` | saas-collab-system/backend/apps/commerce/supply_pipeline.py:181-285 | All stages of a SKU together hold what was shipped of it |
| `SupplyPipeline.PipelineBalances` | saas-collab-system/backend/apps/commerce/supply_pipeline.py:107-296 | The published figures of a SKU: eta rows sum to awaiting plus transporting, those dated from today to the target to the incoming, which is unknown exactly under an overlap veto, and the dateless ones with unshipped production to unknown_eta; every figure that is unknown or undated carries its issue, and no other is ever unknown |
| `SupplyPipeline.PipelineConserves` | saas-collab-system/backend/apps/commerce/supply_pipeline.py:107-291 | With consistent records an unrestricted reader's published stages sum to the shipped quantity |
| `SupplyPipeline.PipelineStages` | saas-collab-system/backend/apps/commerce/supply_pipeline.py:125-285 | Each published stage by itself, for any records and any reader: transporting is the sum of what is still to come of the allocations to departed or landed batches, arrived of those to batches at their warehouse, awaiting of those to the others plus each line's unallocated rest |
| `SupplyPipeline.PipelineIssues` | saas-collab-system/backend/apps/commerce/supply_pipeline.py:181-296 | Each published issue, exactly: the restriction of the reader, a quantity without a date, or a line of the SKU whose totals or allocations raise it |
| `SupplyPipeline.PipelineExceptions` | saas-collab-system/backend/apps/commerce/supply_pipeline.py:187-215 | The published exceptions are those of the lines that lie as a whole in one of the reader's warehouses, and unknown exactly if some line lies neither there nor elsewhere |
| `SupplyPipeline.AttributeIs` | saas-collab-system/backend/apps/commerce/supply_pipeline.py:187-212 | A line counts exactly if all of it is bound for one warehouse in view, and is passed over exactly if all of it is bound elsewhere |
| `SupplyPipeline.ProcessLine` | saas-collab-system/backend/apps/commerce/supply_pipeline.py:181-285 | The body of the loop over the lines: exceptions, receipts, allocations and the unallocated rest, as the line step that these laws are about |
| `SupplyPipeline.AttributeLine` | saas-collab-system/backend/apps/commerce/supply_pipeline.py:187-212 | Whether a line's exceptions count, from the destinations of its allocations |
| `SupplyPipeline.FindDestination` | saas-collab-system/backend/apps/commerce/supply_pipeline.py:194-195 | The warehouse of the first receipt of a batch, else the planned one |
| `SupplyPipeline.AddReceipts` | saas-collab-system/backend/apps/commerce/supply_pipeline.py:222-230 | Receipts in view, split into reconciled and awaiting |
| `SupplyPipeline.AddAllocation` | saas-collab-system/backend/apps/commerce/supply_pipeline.py:236-273 | One allocation: nothing, an issue, arrived goods, or goods on their way |
| `SupplyPipeline.DateGoods` | saas-collab-system/backend/apps/commerce/supply_pipeline.py:253-273 | The eta row of goods on their way, and the total or issue their date belongs to |
| `SupplyPipeline.SumByBatch` | saas-collab-system/backend/apps/commerce/supply_pipeline.py:140-144 | Received quantity of each line in each batch |
| `SupplyPipeline.PublishAll` | saas-collab-system/backend/apps/commerce/supply_pipeline.py:286-296 | The passes over all items once every line is in |
| `SupplyPipeline.GroupAllocations` | saas-collab-system/backend/apps/commerce/supply_pipeline.py:128-130 | Allocations grouped by line, in order |
| `SupplyPipeline.GroupReceipts` | saas-collab-system/backend/apps/commerce/supply_pipeline.py:140-144 | Receipts grouped by line, in order |
| `SupplyPipeline.SumShipped` | saas-collab-system/backend/apps/commerce/supply_pipeline.py:111-112 | Shipped quantity of each purchase line |
| `SupplyPipeline.StartItems` | saas-collab-system/backend/apps/commerce/supply_pipeline.py:86-124 | The figures before the shipments: unshipped production, or the unknowns of a restricted view |
| `SupplyPipeline.PipelineFor` | saas-collab-system/backend/apps/commerce/supply_pipeline.py:83-300 | The whole function over selected rows: every requested SKU, no other, with the pipeline the laws are about, or nothing known to a reader without the summary permission |
| `WmsReconciliation.ValidWmsAllocations` | saas-collab-system/backend/apps/commerce/supply_pipeline.py:62-80 | Reconciled quantity per local receipt, from links that pass every check, and the receipts of those that fail one |
| `WmsReconciliation.NeverBeyondReceived` | saas-collab-system/backend/apps/commerce/supply_pipeline.py:66-79 | The valid links of an upstream line never draw more than it received |
| `WmsReconciliation.ReconciledWithinUpstream` | saas-collab-system/backend/apps/commerce/supply_pipeline.py:62-80 | Over any receipts, their reconciled part is at most what the linked upstream lines received |
| `WmsReconciliation.LineStepsReconcile` | saas-collab-system/backend/apps/commerce/supply_pipeline.py:222-227 | What the pipeline calls received by the warehouse is the reconciled part of the receipts in view, over any records and scope |
| `WmsReconciliation.PublishedWithinUpstream` | saas-collab-system/backend/apps/commerce/supply_pipeline.py:222-227 | so the published wms_received of a SKU is at most what the linked upstream lines received |
| `WmsReconciliation.SumClaimed` | saas-collab-system/backend/apps/commerce/supply_pipeline.py:159-164 | Linked quantity per upstream line, over links of the same SKU and warehouse |
| `WmsReconciliation.LatestUnmatched` | saas-collab-system/backend/apps/commerce/supply_pipeline.py:171-179 | The latest moment of an upstream receipt that is not linked in full, for each SKU and warehouse |
| `SalesCoverage.HistorySpans` | saas-collab-system/backend/apps/commerce/country_decisions.py:152-167 | Exactly the usable segments, as half-open spans in order |
| `SalesCoverage.CompleteHistory` | saas-collab-system/backend/apps/commerce/country_decisions.py:170-183 | For start < end the sweep answers yes exactly when every second lies in some span, however they overlap, nest or touch; for an empty range it asks whether its start is covered |
| `SalesCoverage.ProvesCoverage` | saas-collab-system/backend/apps/commerce/country_decisions.py:152-183 | Both together: yes exactly when every second lies in a usable segment |
| `BundleDemand.CollectEntries` | saas-collab-system/backend/apps/commerce/country_decisions.py:212-232 | A composition is collected whole, or nothing of it is left |
| `BundleDemand.CollectParts` | saas-collab-system/backend/apps/commerce/country_decisions.py:201-232 | All rows of verifiable items, flagged exactly when some item is not verifiable |
| `BundleDemand.SumDemand` | saas-collab-system/backend/apps/commerce/country_decisions.py:233-246 | Demand of the requested standard components, and whether every component is standard |
| `BundleDemand.PartsCarryDemand` | saas-collab-system/backend/apps/commerce/country_decisions.py:228-245 | Item quantity times component quantity over the collected rows is the specified demand |
| `BundleDemand.PartsTellStandard` | saas-collab-system/backend/apps/commerce/country_decisions.py:237-240 | A row with a component that is not standard exists exactly when a verifiable item has one |
| `BundleDemand.BundleComponents` | saas-collab-system/backend/apps/commerce/country_decisions.py:186-246 | For every component the specified demand; the flag exactly when some item is in doubt |
| `BundleDemand.DemandAdds` | saas-collab-system/backend/apps/commerce/country_decisions.py:313-319 | Demand is additive over lists of items |
| `BundleDemand.ChunkedDemand` | saas-collab-system/backend/apps/commerce/country_decisions.py:313-319 | so chunks of any size give the demand and the flag of one pass |
| `CountryDecisions.SuggestionIsLeast` | saas-collab-system/backend/apps/commerce/country_decisions.py:144-149 | A quantity suffices, (available + incoming + reserved + q) x window >= sales x target or the same against the ratio, if and only if it is at least the suggestion: no rounding either way, negative stock and demand included |
| `CountryDecisions.SuggestionIsLeastSufficient` | saas-collab-system/backend/apps/commerce/country_decisions.py:144-149 | The suggestion is the least natural number with available + incoming + reserved + q >= sales x target / window |
| `CountryDecisions.ReadStock` | saas-collab-system/backend/apps/commerce/country_decisions.py:429-456 | All stock problems of the warehouses, the total of their latest rows, and the oldest snapshot |
| `CountryDecisions.StockIssuesExactly` | saas-collab-system/backend/apps/commerce/country_decisions.py:429-454 | Each stock issue, exactly: a warehouse whose newest record is absent, does not provide the figure, comes of an unfinished run, is more than a day old or has a rival under another source SKU; no warehouse; unmapped stock |
| `CountryDecisions.SalesIssuesExactly` | saas-collab-system/backend/apps/commerce/country_decisions.py:489-498 | Each sales issue, exactly |
| `CountryDecisions.OnlyAdviceLetsThrough` | saas-collab-system/backend/apps/commerce/country_decisions.py:505-528 | Every issue keeps the suggestion back, but for the six that only advise |
| `CountryDecisions.CertainIsEveryCheck` | saas-collab-system/backend/apps/commerce/country_decisions.py:510 | The gate is open exactly when no stock, sales or supply check fails |
| `CountryDecisions.IncompleteStockShows` | saas-collab-system/backend/apps/commerce/country_decisions.py:450-455 | Stock that is not complete always leaves a blocking code |
| `CountryDecisions.DecideSku` | saas-collab-system/backend/apps/commerce/country_decisions.py:422-528 | A suggestion is given if and only if there is no blocking issue; it is then the least sufficient one, from known quantities only |
| `CountryDecisions.Blocking` | saas-collab-system/backend/apps/commerce/country_decisions.py:515-528 | Nothing blocks exactly when nothing is in doubt, and the blocking codes are those issues of the SKU that are blocking ones |
| `CountryDecisions.Suggest` | saas-collab-system/backend/apps/commerce/country_decisions.py:507-513 | Past the gate no unknown quantity can reach the arithmetic |
| `CountryDecisions.RestrictedIsNeverReady` | saas-collab-system/backend/apps/commerce/country_decisions.py:507-510 | A reader limited to some warehouses is never given a suggestion |
| `CountrySuggestions.ReadStore` | saas-collab-system/backend/apps/commerce/country_decisions.py:267-323 | One store: its units, and that the sales stay certain exactly if its zone is known, its window finished and collected to the second, its lines mapped and its bundles beyond doubt |
| `CountrySuggestions.WindowSales` | saas-collab-system/backend/apps/commerce/country_decisions.py:265-336 | The sales of a window: the units of all stores read, certain exactly if there is a store and nothing in any is in doubt |
| `CountrySuggestions.PipelineOnlySupply` | saas-collab-system/backend/apps/commerce/supply_pipeline.py:181-296 | The pipeline raises supply codes alone, so no stock, sales or permission code comes from it |
| `CountrySuggestions.SupplyIsCertain` | saas-collab-system/backend/apps/commerce/country_decisions.py:507-508 | The supply is certain exactly if the reader is unrestricted and no line of the SKU raises an overlap with what the warehouses received |
| `CountrySuggestions.DecideFromRecords` | saas-collab-system/backend/apps/commerce/country_decisions.py:265-528 | From the records to the decision: there is a suggestion if and only if every second of every store's window is collected, every line mapped, no bundle line in doubt, every warehouse's stock faultless, the reader unrestricted and no shipment due overlapped by what a warehouse received; it is then the least that lasts for the target with the shipments due by then; otherwise the blocking codes are those of the SKU that block |
| `Alerts.AlertRecord.AssignTo` | saas-collab-system/backend/apps/alerts/services.py:193-207 | Assignment, with every refusal and its order; a refusal changes nothing |
| `Alerts.AlertRecord.FollowUpWith` | saas-collab-system/backend/apps/alerts/services.py:250-276 | Follow-up, with every refusal, absent fields kept and the status that an assignee implies |
| `Alerts.AlertRecord.SilenceFor` | saas-collab-system/backend/apps/alerts/services.py:210-226 | Silencing for 1 to 43200 minutes, with every refusal |
| `Alerts.AlertRecord.CloseWith` | saas-collab-system/backend/apps/alerts/services.py:229-246 | Closing with a reason, with every refusal |
| `Alerts.AlertRecord.Retrigger` | saas-collab-system/backend/apps/alerts/services.py:127-154 | A match rewrites the alert, reopens a closed one as new and ends an expired silence |
| `Alerts.AlertRecord.Resolve` | saas-collab-system/backend/apps/alerts/inventory_decisions.py:140-150 | No match closes the alert as normal, its silence included |
| `Alerts.AlertRecord.MarkPending` | saas-collab-system/backend/apps/alerts/inventory_decisions.py:126-134 | An open alert is marked pending once, with the issues |
| `Alerts.AlertRecord.InvalidateData` | saas-collab-system/backend/apps/alerts/inventory_refresh.py:19-25 | An open real alert becomes pending when its source changes |
| `Alerts.ChangeMovesVersion` | saas-collab-system/backend/apps/alerts/services.py:127-276 | Any change by evaluation, invalidation or a person either changes nothing or raises the version |
| `Alerts.VersionsGrow` | saas-collab-system/backend/apps/alerts/services.py:140 | Over any history, a later state is the same or has a greater version |
| `Alerts.VersionNamesState` | saas-collab-system/backend/apps/alerts/services.py:279-281 | so a version names one state |
| `Alerts.AcceptedOnWhatWasRead` | saas-collab-system/backend/apps/alerts/services.py:279-281 | An action accepted with an expected version was applied to the very state its author had read |
| `Alerts.HistoryStaysShaped` | saas-collab-system/backend/apps/alerts/services.py:127-276 | Over any history: closed exactly with a closing time, assigned only to somebody, silenced only with an end |
| `Alerts.CreatedIsShaped` | saas-collab-system/backend/apps/alerts/services.py:163-182 | An alert is created in that shape, with version 1 |
| `Alerts.LifeStaysShaped` | saas-collab-system/backend/apps/alerts/services.py:127-276 | so the shape holds over the whole life of every alert |
| `Alerts.OnlyMatchReopens` | saas-collab-system/backend/apps/alerts/services.py:142-150 | A closed alert is only reopened by a matching rule |
| `AlertEvaluation.ActiveRules` | saas-collab-system/backend/apps/alerts/inventory_decisions.py:32-37 | Exactly the rules that are the newest effective version of their code and enabled |
| `AlertEvaluation.RefusedOnlyIfSuperseded` | saas-collab-system/backend/apps/alerts/services.py:68-78 | A rule chosen at one clock reading is refused at a later one if and only if a newer version of it became effective in between |
| `AlertEvaluation.QuantizeRounds` | saas-collab-system/backend/apps/alerts/services.py:93-96 | Quantizing gives the nearest multiple of 1/10000, the even one of two that are equally near, and nothing else does |
| `AlertEvaluation.TriggeredExactly` | saas-collab-system/backend/apps/alerts/services.py:47-54 | When each type of rule matches, in plain arithmetic: nothing is compared with the coverage while daily sales are unknown or round to zero; else low coverage below the threshold, overstock above it, stockout below it or with no stock at all, slow moving at daily sales up to the threshold with stock |
| `AlertEvaluation.MoreStockIsNoShortage` | saas-collab-system/backend/apps/alerts/services.py:47-54 | More stock or more on its way never starts a warning of shortage and never ends one of surplus |
| `AlertEvaluation.NeverShortAndInSurplus` | saas-collab-system/backend/apps/alerts/services.py:47-54 | At one threshold no SKU is both short and in surplus |
| `AlertEvaluation.IsTriggered` | saas-collab-system/backend/apps/alerts/services.py:47-54 | The comparison itself, branch by branch |
| `AlertEvaluation.Validate` | saas-collab-system/backend/apps/alerts/services.py:66-97 | The checks before a rule is applied, in order: the newest effective version of its code and enabled, no negative figure, a threshold that is there and not negative |
| `AlertEvaluation.AlertTable.FindExisting` | saas-collab-system/backend/apps/alerts/services.py:111-116 | The alert with the key of rule code, SKU and country; else the latest that an older program left for them; else none |
| `AlertEvaluation.AlertTable.EvaluateRule` | saas-collab-system/backend/apps/alerts/services.py:89-189 | A matching rule rewrites the existing alert of its code, or creates the one, and touches no other; it is then open and carries that rule; a rule that does not match changes nothing |
| `AlertEvaluation.AlertTable.MatchRules` | saas-collab-system/backend/apps/alerts/inventory_decisions.py:206-213 | The alerts matched are those of the matching rules, one each; all others are as before, and no other is new |
| `AlertEvaluation.AlertTable.ResolveOthers` | saas-collab-system/backend/apps/alerts/inventory_decisions.py:217-221 | Every other open alert of the SKU is resolved |
| `AlertEvaluation.AlertTable.MarkPendingFor` | saas-collab-system/backend/apps/alerts/inventory_decisions.py:126-137 | A SKU that cannot be judged opens and closes nothing; its open alerts say why |
| `AlertEvaluation.AlertTable.EvaluateObservation` | saas-collab-system/backend/apps/alerts/inventory_decisions.py:185-221 | One observation: the open alerts are then exactly the matching rules, or all kept as pending |
| `AlertEvaluation.AlertTable.EvaluateCountry` | saas-collab-system/backend/apps/alerts/inventory_decisions.py:156-221 | The transaction: it succeeds exactly if every observation can be evaluated and otherwise changes nothing; afterwards every SKU named is settled, and the alerts of other SKUs and places and all that are no real observations are as before |
| `WatchList.SignaturesDetermineState` | saas-collab-system/backend/apps/alerts/inventory_decisions.py:40-47 | The evaluated state is a function of the fields that the two signatures digest |
| `WatchList.AssessmentTable.Evaluate` | saas-collab-system/backend/apps/alerts/inventory_decisions.py:163-234 | What an evaluation stores, which watches a manual one takes over, and what an automatic one leaves alone |
| `WatchList.AssessmentTable.Invalidate` | saas-collab-system/backend/apps/alerts/inventory_refresh.py:14-18 | Watches not yet dirty become due now |
| `WatchList.AssessmentTable.ClaimDue` | saas-collab-system/backend/apps/alerts/inventory_refresh.py:40-45 | Only due watches are claimed, those due longest first, all of them or between one and a hundred as asked, and each is due again after ten minutes |
| `WatchList.AssessmentTable.Postpone` | saas-collab-system/backend/apps/alerts/inventory_refresh.py:63-73 | A failed batch, or the SKUs of one that may not be evaluated, become pending and are tried again after five minutes; a failed batch gives up its dirt |
| `WatchList.RunKeepsWatches` | saas-collab-system/backend/apps/alerts/inventory_refresh.py:32-74 | In every run of manual switches, automatic runs holding stale claims, invalidations and postponements: one watch per country and SKU, and every watch due again within ten minutes |
| `WatchList.ShownIsRecomputed` | saas-collab-system/backend/apps/alerts/inventory_decisions.py:63-77 | In every run, a row shown as risk or normal is what evaluating it now would conclude |
| `WatchList.DecorateRow` | saas-collab-system/backend/apps/alerts/inventory_decisions.py:63-77 | The state shown for a row: pending by itself, no rules, the stored one if it is current, else not evaluated |
| `WatchList.NothingShownUnassessed` | saas-collab-system/backend/apps/alerts/inventory_decisions.py:63-77 | Without an assessment no verdict is shown, and what is shown is right exactly for rows pending by themselves or without rules |
| `WatchList.InvalidatedUntilTakenUp` | saas-collab-system/backend/apps/alerts/inventory_refresh.py:14-18 | In every run: once a source change is reported, every watch of its country is dirty until it is claimed, stored or its failed batch gives it up; while it is a watch it is due at any time, and whatever the row has become no verdict is shown for it |
| `WatchList.WithdrawnDecides` | saas-collab-system/backend/apps/alerts/inventory_refresh.py:32-74 | In every run a stored state is what its two signatures say, or pending if it was postponed after its last evaluation |
| `WatchList.ShownExactlyUnlessWithdrawn` | saas-collab-system/backend/apps/alerts/inventory_decisions.py:63-77 | In every run and for every row, the state shown is what evaluating it now would conclude if and only if the row is pending by itself, there are no rules, or its assessment is current and was not postponed after its last evaluation |
| `WatchList.WithdrawnIsVisible` | saas-collab-system/backend/apps/alerts/inventory_refresh.py:65-72 | A reader can tell: the assessment is pending although its own source had a suggestion |
| `WatchList.PostponedShowsPending` | saas-collab-system/backend/apps/alerts/inventory_refresh.py:63-72 | So a current row with a suggestion shows pending, against what an evaluation would say, in exactly the runs that postponed it |
| `WatchList.PostponedExample` | saas-collab-system/backend/apps/alerts/inventory_refresh.py:63-72 | The shortest such run: one evaluation, one postponement |
| `SkuResolution.Resolve` | saas-collab-system/backend/apps/commerce/inventory_sku_mapping.py:20-61 | The scalar resolver decides by its rule, for every catalogue and pair |
| `SkuResolution.Conclude` | saas-collab-system/backend/apps/commerce/inventory_sku_mapping.py:59-61 | One candidate resolves, several conflict, none is unmatched |
| `SkuResolution.PageHistory` | saas-collab-system/backend/apps/commerce/inventory_sku_mapping.py:69-80 | The dictionary of linked SKUs, for all codes of the page |
| `SkuResolution.PageProducts` | saas-collab-system/backend/apps/commerce/inventory_sku_mapping.py:82-91 | The dictionaries of SKUs by either code and by legacy code |
| `SkuResolution.PageGenerated` | saas-collab-system/backend/apps/commerce/inventory_sku_mapping.py:94-104 | Generated items join the codes without aliases, and the legacy codes of all |
| `SkuResolution.ResolveOne` | saas-collab-system/backend/apps/commerce/inventory_sku_mapping.py:107-131 | One pair, decided by the page rule from those dictionaries |
| `SkuResolution.ResolvePage` | saas-collab-system/backend/apps/commerce/inventory_sku_mapping.py:64-132 | Exactly the pairs of the page, each decided by the page rule |
| `SkuResolution.DroppedAre` | saas-collab-system/backend/apps/commerce/inventory_sku_mapping.py:123-126 | The candidates that only the page form drops, and that it never adds one |
| `SkuResolution.PageRefinesScalar` | saas-collab-system/backend/apps/commerce/inventory_sku_mapping.py:20-132 | The two forms agree on SKU and reason if and only if the pair does not diverge: for a pair that the catalogue decides, a dropped item leaves at most one candidate |
| `SkuResolution.LinksDiffer` | saas-collab-system/backend/apps/commerce/inventory_sku_mapping.py:59-61 | and on the SKU alone if and only if, besides, one of them has a single candidate |
| `SkuResolution.UnborrowedCodesAgree` | saas-collab-system/backend/apps/commerce/inventory_sku_mapping.py:94-104 | They agree at any time wherever no generated item of another legacy code is also reached by its own code or an alias |
| `SkuResolution.OneAliasDecides` | saas-collab-system/backend/apps/commerce/inventory_sku_mapping.py:23-26 | Where one alias is all that is known of a code, both forms resolve to its SKU if it is a correction or was in force then, from its first moment on and until before its end, and to none otherwise |
| `SkuResolution.DivergenceExample` | saas-collab-system/backend/apps/commerce/inventory_sku_mapping.py:103-104 | For any code and time a catalogue where the scalar form resolves what the page form does not match |
| `BulkUpsert.PageRefusesAsItsRows` | saas-collab-system/backend/apps/commerce/services.py:111-145 | A page is accepted exactly if it names one warehouse and every payload would be accepted alone; under one name its refusal is that of its first refused payload |
| `BulkUpsert.SnapshotTable.Upsert` | saas-collab-system/backend/apps/commerce/services.py:30-103 | One payload: the refusal, or the row and the audit, resolved against the rows before; a refusal changes nothing |
| `BulkUpsert.SnapshotTable.UpsertPage` | saas-collab-system/backend/apps/commerce/services.py:107-268 | The whole page: a refusal changes nothing; distinct keys are stored at once, repeated ones row by row with resolutions taken before the first write |
| `BulkUpsert.SnapshotTable.UpsertEach` | saas-collab-system/backend/apps/commerce/services.py:148-169 | The path of repeated keys |
| `BulkUpsert.SnapshotTable.StorePage` | saas-collab-system/backend/apps/commerce/services.py:171-267 | The path of distinct keys: existing rows saved in the loop, new rows and audits added after it |
| `BulkUpsert.PrepareRow` | saas-collab-system/backend/apps/commerce/services.py:197-235 | The row a payload leads to, whether it is saved, and whether it is audited |
| `BulkUpsert.LastPayloadWins` | saas-collab-system/backend/apps/commerce/services.py:147-169 | With repeated keys the last payload of a key gives the row its values, hash and run; its link is the one it had or else the first that was resolved |
| `BulkUpsert.UpsertRow` | saas-collab-system/backend/apps/commerce/services.py:67-102 | The row and the audit of one payload, resolved against the rows before: its own row does not matter |
| `BulkUpsert.CheckPage` | saas-collab-system/backend/apps/commerce/services.py:109-145 | The checks of a page, in order |
| `BulkRefinement.FoldStores` | saas-collab-system/backend/apps/commerce/services.py:67-103 | Row by row over distinct keys: every row and the whole audit log, told from the state before the page |
| `BulkRefinement.PageStores` | saas-collab-system/backend/apps/commerce/services.py:197-267 | The same of the page |
| `BulkRefinement.FoldedHistory` | saas-collab-system/backend/apps/commerce/services.py:84-91 | What a payload sees of its source's history: what was there before the page, and the links of the payloads before it |
| `BulkRefinement.PageMatchesFold` | saas-collab-system/backend/apps/commerce/services.py:107-268 | For every page of distinct keys, the page leaves the rows and the audit log of the fold, but for the run of skipped rows, if and only if every payload is safe after those before it: resolved alone, with the links that the page gives to earlier payloads of its source, it comes to what the page gives it, and a skipped row holds its values already |
| `BulkRefinement.SafeIsSame` | saas-collab-system/backend/apps/commerce/services.py:181-235 | Alone, a payload is safe exactly if a skipped row holds its values already and no divergence of the resolvers shows |
| `BulkRefinement.PageMatchesFoldAlone` | saas-collab-system/backend/apps/commerce/services.py:107-268 | If no payload gives its source a link that is new, each counts alone |
| `BulkRefinement.PageMatchesFoldOfSources` | saas-collab-system/backend/apps/commerce/services.py:107-268 | so on every page of distinct source codes |
| `BulkRefinement.PageMatchesFoldWithoutNews` | saas-collab-system/backend/apps/commerce/services.py:107-268 | and on every page whose repeated sources have warehouse history or resolve nothing, and whose rows linked outside the warehouse's runs agree with that history |
| `BulkRefinement.RepeatedSourceDiffers` | saas-collab-system/backend/apps/commerce/services.py:181-188 | A page that first links a source itself never matches if a later payload of that source is new: row by row that one is resolved by the link just made |
| `BulkRefinement.RepeatedSourceExample` | saas-collab-system/backend/apps/commerce/services.py:181-188 | On an empty table, two times of one catalogue code |
| `DepartmentForest.FindSafeParent` | saas-collab-system/backend/apps/accounts/system_views.py:118-129 | The walk keeps a visible parent exactly if the chain escapes the visible departments or ends |
| `DepartmentForest.EscapesUnlessCyclic` | saas-collab-system/backend/apps/accounts/system_views.py:124-129 | A chain escapes exactly when it runs into no cycle |
| `DepartmentForest.SafeIsGrounded` | saas-collab-system/backend/apps/accounts/system_views.py:131-142 | For any parent map, cyclic or not, what is kept has no cycle, and a department whose chain escapes keeps its visible parent |
| `DepartmentForest.AcyclicLosesNothing` | saas-collab-system/backend/apps/accounts/system_views.py:118-130 | A hierarchy without cycles loses no visible parent |
| `DepartmentForest.Attach` | saas-collab-system/backend/apps/accounts/system_views.py:144-151 | Children and roots, each in the order of the rows |
| `DepartmentForest.SiblingsShareNothing` | saas-collab-system/backend/apps/accounts/system_views.py:144-151 | No department lies below two siblings or two roots |
| `DepartmentForest.EachExactlyOnce` | saas-collab-system/backend/apps/accounts/system_views.py:144-151 | Every visible department stands in the forest, children and all, exactly once |
| `DepartmentForest.BelowIsSpread` | saas-collab-system/backend/apps/accounts/system_views.py:161-166 | A department's descendants are itself and its children's, itself not among those |
| `DepartmentForest.Collect` | saas-collab-system/backend/apps/accounts/system_views.py:161-167 | The recursion terminates and records for every department below exactly those that reach it over kept parents |
| `DepartmentForest.CollectAll` | saas-collab-system/backend/apps/accounts/system_views.py:168-169 | From the roots, for every department |
| `DepartmentForest.BuildForest` | saas-collab-system/backend/apps/accounts/system_views.py:112-170 | All of it, for any parent map |
| `DepartmentForest.ValidateParent` | saas-collab-system/backend/apps/accounts/system_serializers.py:100-120 | The walk ends on any hierarchy, cyclic ones included, and accepts exactly a parent of the tenant that the department is not on the chain of; each refusal has its reason |
| `DepartmentForest.GuardIsExact` | saas-collab-system/backend/apps/accounts/system_serializers.py:112-119 | On any hierarchy the walk meets the department exactly if the update would put it on a cycle |
| `DepartmentForest.OthersStayOff` | saas-collab-system/backend/apps/accounts/system_serializers.py:112-119 | An update that puts the department itself on no cycle puts no other on one |
| `DepartmentForest.AcceptedIffAcyclic` | saas-collab-system/backend/apps/accounts/system_serializers.py:100-120 | From an acyclic hierarchy an update to a known parent is accepted if and only if the hierarchy stays acyclic |
| `DepartmentForest.UpdatesStayAcyclic` | saas-collab-system/backend/apps/accounts/system_serializers.py:100-120 | so any run of accepted updates and additions keeps it acyclic |
| `ReceiptStore.SaverKeepsLocks` | saas-collab-system/tools/tiktok_ads_relay/tiktok_saas_ads_relay.py:100-176 | Every step of a saver and its reaping keeps locks and processes in agreement |
| `ReceiptStore.TakerKeepsLocks` | saas-collab-system/tools/tiktok_ads_relay/tiktok_saas_ads_relay.py:179-203 | and every step of a taker, a stop or a power loss |
| `ReceiptStore.StepKeepsInv` | saas-collab-system/tools/tiktok_ads_relay/tiktok_saas_ads_relay.py:100-203 | Every step of savers, takers, reapers, clocks, stops and power losses keeps the invariant of the store |
| `ReceiptStore.RunKeepsInv` | saas-collab-system/tools/tiktok_ads_relay/tiktok_saas_ads_relay.py:100-203 | so it holds in every reachable state |
| `ReceiptStore.ReturnedOnce` | saas-collab-system/tools/tiktok_ads_relay/tiktok_saas_ads_relay.py:179-203 | In every interleaving, stops and power losses included, each receipt is returned at most once; what is returned was saved for that context, was taken before it expired, and its file stays used |
| `ReceiptStore.ValidReceiptStays` | saas-collab-system/tools/tiktok_ads_relay/tiktok_saas_ads_relay.py:113-158 | On any step but a power loss, the name of a receipt that has not expired stays, and that of an unreadable file in its first ten minutes |
| `ReceiptStore.ReceiptStaysUntilTaken` | saas-collab-system/tools/tiktok_ads_relay/tiktok_saas_ads_relay.py:100-203 | In every interleaving of savers, reapers, takers and stops: a sealed receipt stays as it is, name and content, until it expires, a taker overwrites it or the power is lost |
| `ReceiptStore.UndisturbedReap` | saas-collab-system/tools/tiktok_ads_relay/tiktok_saas_ads_relay.py:130-157 | One candidate's turn: an unlocked file goes exactly if it is used, expired, or unreadable for more than ten minutes |
| `ReceiptStore.UndisturbedSave` | saas-collab-system/tools/tiktok_ads_relay/tiktok_saas_ads_relay.py:165-176 | A save with room, left alone, leaves one sealed and synced receipt under its name, that expires with its flow and in two minutes at the latest |
| `ReceiptStore.SyncedReceiptSurvives` | saas-collab-system/tools/tiktok_ads_relay/tiktok_saas_ads_relay.py:172-175 | A synced receipt survives any power loss that leaves its name |
| `ReceiptStore.UnsyncedReceiptMayBeLost` | saas-collab-system/tools/tiktok_ads_relay/tiktok_saas_ads_relay.py:172-175 | One not yet synced may be lost or torn: why the save syncs before it answers |
| `ReceiptStore.CapacityKept` | saas-collab-system/tools/tiktok_ads_relay/tiktok_saas_ads_relay.py:163-172 | Without power losses the directory never holds more than 1000 receipts |
| `ReceiptStore.MarkedIsReturned` | saas-collab-system/tools/tiktok_ads_relay/tiktok_saas_ads_relay.py:196-203 | A taker that marked its receipt finds it linked and returns it: only a stop or a power loss loses a callback |
| `ReceiptStore.UndisturbedTakeReturns` | saas-collab-system/tools/tiktok_ads_relay/tiktok_saas_ads_relay.py:179-203 | A take of a valid, unlocked receipt of its own context can always run through, and returns what was saved |
| `ReceiptDirectory.SaveThenTake` | saas-collab-system/tools/tiktok_ads_relay/tiktok_saas_ads_relay.py:161-203 | Saved is taken: by the same context and in time, with the saved callback; and after that by nobody |
| `ReceiptDirectory.Store.Oldest` | saas-collab-system/tools/tiktok_ads_relay/tiktok_saas_ads_relay.py:122-128 | The oldest names, all of them or 256 |
| `ReceiptDirectory.Store.Reap` | saas-collab-system/tools/tiktok_ads_relay/tiktok_saas_ads_relay.py:120-158 | At most 64 of 256 candidates go; names of receipts that have not expired, of unreadable files up to ten minutes old and of locked files stay; while the limit is not met every other candidate goes |
| `ReceiptDirectory.Store.Save` | saas-collab-system/tools/tiktok_ads_relay/tiktok_saas_ads_relay.py:161-176 | Room is made first; at capacity or on a name in use nothing is written; else one sealed, synced receipt is added |
| `ReceiptDirectory.Store.Take` | saas-collab-system/tools/tiktok_ads_relay/tiktok_saas_ads_relay.py:179-203 | The payload exactly if the receipt may be taken; then the file is used and its name gone, else nothing changes |

## Left out

- HTTP handlers, serializers, URL maps, admin pages, logins and tokens: framework wiring.
- Permission lookups and the contents of permission signatures: scopes are given sets, signatures opaque values.
- SQL, collation, indexes and prefetching: queries are the sets and orders they ask for.
- `open_demand_breakdown`: its total per SKU is an input of the pipeline.
- `summary_allowed`: whether the reader may see the supply summary is an input.
- Amounts, currencies, refunds, time-zone arithmetic and store selection of `sales_windows`: each store comes with its window's bounds, its orders' mapped state, directly sold units and bundle lines.
- Supply signatures and source rows of the pipeline: digests of its inputs.
- Decimal division at 28 digits before rounding to four places in alert coverage: here the division is exact and then rounded to four places, halves to even, as in the code.
- `AlertEvaluation.RefusedOnlyIfSuperseded`: inside `evaluate_country` the two clock readings are one instant in the model; the lemma says what a later second reading does.
- `Alerts.AlertRecord.FollowUpWith`: the form's statuses exclude closed and silenced, as its serializer has it, so these two are required of the caller.
- A silence without minutes, which takes those of its rule: the minutes arrive chosen, and a closing reason stripped.
- Alert events, reasons and provenance texts: append-only records of changes that are modelled.
- Widening by the ten-minute `requested_at` filter and the queue order when workers pick views: a worker may pick any view that is pending or building.
- Assessment writes that leave ready menus as they are: the claim of a refresh (`inventory_refresh.py:44-45`), the postponement of SKUs whose alert target is not authorized (65-66, after the evaluation's own invalidation) and that of a failed batch (70-72; `evaluate_country` raised before its invalidation at `inventory_decisions.py:235`). In the menu model each is a source change whose invalidation stays outstanding until a later one comes; meanwhile the menu keeps showing risk or normal, at most until it expires, and `ReadyIsTheScan` promises nothing.
- The `needs_refresh` flag may be lost by an evaluation that overlaps a source change: correctness rests on signatures and the refresh time, which are modelled.
- Search texts and codes arrive normalised (stripped, upper case), quantities already integers.
- The created/updated label of bulk results, primary keys of rows, and rows of other warehouses or sites.
- Failing calls of the runner: a store call that raises has written nothing, and an executor whose `submit` raises has queued nothing (a thread that cannot be started after the queue took the work is not part of the model).
- Watches due at the same moment are claimed in any order; the code takes the lower key first.
- Times and identity of an operation, its evidence, metrics and audit lines: the runner model keeps status, code and payload hash; `close` and request validation are not modelled.
- Order of siblings by name in the department tree: siblings come in the order of the rows.
- `_department_user_counts`: counts over the descendant sets that are modelled.
- Two concurrent parent updates: each update is validated against the hierarchy it is applied to.
- Ties between files of one modification time in the reaper's order, file modes, sizes and symbolic links, the Windows test lock, and encryption itself: sealed bytes open to their payload, anything else does not.
- `ReceiptStore.CapacityKept`: excludes power losses, because names unlinked but not synced to the directory may come back.
- `ReceiptDirectory.Store.Save`: takes the random name and the new file's identity as arguments.
