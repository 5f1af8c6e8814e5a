# A verified model of the job pipeline

RSS items become job posts in three steps. A feed reader stores an item in `rss_items` and enqueues it in
`analyzer_queue`; an analyzer asks a language model about it, stores the answer and enqueues it in `dispatch_queue`;
a dispatcher sends the message. A web-admin requeues and deletes items, and shows a board. The four services share one
SQLite database and run at the same time, any number of analyzers and dispatchers among them. Workers hold rows by
leases that can expire while they work, so a worker may be stale: its queue writes are fenced by `lease_owner`, its
writes to `rss_items` and its enqueues are not.

The model is a state machine whose steps are single SQL statements and visible outcomes of the outside world (the model
answers, a message is delivered, a process dies). A process between two statements is described by a program counter,
so every interleaving is a run. Theorems are about every state of every run.

## How it is organised

- `LeaseQueue.dfy` is one queue table with its statements: claim, complete, fail, release, upsert, delete.
- `Pipeline.dfy` is the whole system: two queues, the items, and the handlers of all four services, statement by
  statement.
- `Effects.dfy` says, column by column, what each step does to its item and its rows, and what it leaves alone.
- `Views.dfy` shows that each queue of the pipeline is such a lease queue, so the queue theorems hold of the pipeline.
- `Stranding.dfy`, `Crashes.dfy`, `Deliveries.dfy`, `StoredAnalysis.dfy`, `Board.dfy` and `Budget.dfy` prove the main
  safety theorems.
- `Findings.dfy` holds concrete runs in which a theorem fails without its hypothesis.
- `Services.dfy` has the analyzer, the dispatcher and the web-admin as classes over a mutable database. Every method
  that runs a statement takes the trace that has led to the present world, the other processes being anywhere in their
  own work, and returns the trace that goes on from there; the handlers are also proved to leave exactly the specified
  database. `Drain.dfy` runs one analyzer until its queue is empty, as one trace.
- `Retry.dfy` is the retry loop with its calls and its duration, on `Int64.dfy`, Go's 64-bit arithmetic. `Timing.dfy`
  covers the model deadline, the length of one handling and the leases that are long enough.
- `Polling.dfy` covers the capped, deduplicating poll and the cooldown of failing feeds.
- `Slug.dfy` and `TestFeed.dfy` cover the links of the test feed site, `Normalise.dfy` the cleaning of an analysed job,
  `Markdown.dfy` the escaping of messages. `Text.dfy` and `Options.dfy` support them.

## What the hypotheses mean

- Stranding: a *strike* removes the last process that was going to enqueue a pending item (a reader that dies after its
  insert, a stale analyzer that dies or fails at its enqueue). `Stranding.RunKeepsIff` proves that a run keeps the
  promise if and only if it has none. `Crashes.CrashesStrandNothing` needs only that analyses of one item do not overlap
  (`SoloTake`) and that readers deliver: they do not die half-way, and an enqueue of theirs fails only while no analyzer
  has the item. Workers may crash, and requeues, deletions and clean-ups may come, at any moment. Without any of the
  three it fails (`Findings.StaleDeathStrands`, `ReaderDeathStrands`, `FailedRepublishStrands`). `Benign` is a condition
  on crashes alone, for analyses that may overlap.
- Board: a *discord* is a failed delivery, or a publication by a reader, of an item that is dated.
  `Board.RunAgreesIff` proves that date and status agree throughout a run if and only if it has none. Runs are *calm*
  when handlings of an item do not overlap, requeues, deletions and clean-ups leave items that are being worked on
  alone, and readers do not die half-way; crashes of workers and failed enqueues are allowed.
- Stored analyses and deliveries: `SoloTake` and `SoloAccept` say that handlings of one item in one queue do not
  overlap. `Timing.LongLeasesPreventOverlap` and `Timing.LongLeasesPreventDoubleDispatch` derive them from leases longer
  than the computed bounds.
- Deliveries: a *loss* is a dispatcher's death between the delivery and the DISPATCHED mark, a *reopening* is a requeue
  of a dated item. `Deliveries.DeliveriesAccount` is an equality; "at most one delivery per requeue, plus one for a dated
  item" follows exactly under the condition of `Deliveries.OneDeliveryPerRequeueIff`.
- `Undisturbed` (work per item, any number of analyzers) excludes everything but failing analyses and requeues.

Time stamps are arguments of the steps, so workers' clocks may disagree; a theorem that needs agreement says so.

## Where the code falls short of what one might expect

- An item whose reader dies between the insert and the enqueue stays NEW for ever, since the next poll sees a duplicate
  (`Findings.ReaderDeathStrands`).
- A stale analyzer can turn a quarantined item back to ANALYZED and die before it enqueues
  (`Findings.StaleDeathStrands`).
- A dispatcher that dies after the message went out makes the next one send it again, though the requirements ask for
  no double sending when a service restarts in the middle of its work (`Findings.DeathAfterDeliveryRepeats`).
- With overlapping dispatches a dated item can end FAILED (`Findings.OverlapBreaksTheStatus`).
- A payload that does not decode is never quarantined: no run closes its row (`Budget.OnlyDecodablesAreClosed`), and it
  can be claimed any number of times (`Findings.UndecodableIsClaimedForever`).
- A requeue does not reset `delivery_count`: a retryable failure quarantines the item exactly when M - 1 claims or more
  lie behind it (`Budget.RetryableFailureQuarantinesIff`), so one failure after a requeue can be enough
  (`Findings.RequeueQuarantinedAtOnce`).
- A requeue's upsert and update are two statements. When an analysis and a dispatch fit in between, the delivered item
  ends NEW, without a date and in no queue (`Findings.SplitRequeueStrands`); the reader's pair has the same weakness
  (`Findings.SplitPublishStrands`). Elsewhere each pair is one step.
- The status diagram of docs/lifecycle-state-machines.md leaves FAILED only by a requeue; in the code, and in the model,
  a retried analysis or delivery leaves it too.
- Beyond 64 bits a longer prompt can get a shorter deadline (`Timing.OverflowShortensTheDeadline`; exactly when:
  `Timing.LongerPromptsWaitLongerIff`).
- Slot numbers of the test site repeat around the Unix epoch when the interval does not divide the grid
  (`TestFeed.SlotsRepeatAtTheEpoch`).

## Model

| member | source | states |
|---|---|---|
| LeaseQueue.InvAlways | internal/analyzer/service.go:637-702 | in every reachable state LEASED holds exactly when `lease_owner` is set and exactly when `lease_until` is set, and a row naming a worker has the payload, the attempt and the deadline of that worker's own claim |
| LeaseQueue.DeliveryCountCountsClaims | internal/analyzer/service.go:612-664 | `delivery_count` is the number of claims in the history since the row was inserted; requeues never reset it |
| LeaseQueue.FirstCompletionKept | internal/analyzer/service.go:666-702 | `done_at` keeps the first completion over any later claims, requeues and completions |
| LeaseQueue.PlaceKept | internal/rssreader/service.go:720-748 | a row keeps its `enqueued_at`, its place in the FIFO order, over everything but a deletion |
| LeaseQueue.PlaceIsInsertion | internal/analyzer/service.go:612-623 | `enqueued_at` is the time of the enqueue that inserted the row, the first one since its last deletion |
| LeaseQueue.ClaimsAreFifo | internal/analyzer/service.go:648-653 | first in, first out: a claim takes a row inserted no later than any claimable row |
| LeaseQueue.DoneWhenFirstFinished | internal/analyzer/service.go:666-702 | `done_at` is the time of the first finish by the row's owner since the row was inserted |
| LeaseQueue.ClaimsGetTheLatest | internal/analyzer/service.go:612-664 | the row and every later claim carry the payload enqueued last |
| LeaseQueue.NoLostEnqueue | internal/analyzer/service.go:612-702 | after an enqueue the row is DONE again only if a claim made after it was finished by its own worker, untouched in between, even when another worker was mid-handling at the enqueue |
| LeaseQueue.OnlyTheLatestClaimWrites | internal/analyzer/service.go:666-702 | a complete, fail or release that changes anything comes from the worker of the latest claim, for the payload now in the row |
| LeaseQueue.LeasedUntil | internal/analyzer/service.go:637-664 | until it is freed early or claimed again, a claimed row is DONE or still leased to the claim's deadline |
| LeaseQueue.LeaseExclusion | internal/analyzer/service.go:637-664 | consecutive claims of a row are a whole lease apart, or a release, enqueue or delete of that row lies between |
| LeaseQueue.TimelyRunsAreExclusive | internal/analyzer/service.go:637-664 | if handlings end before their leases and items in hand are not re-enqueued, no two handlings of one item overlap |
| LeaseQueue.LongLeasesExclude | internal/dispatcher/service.go:427-454 | if no handling is older than some bound when its item is claimed again, a lease longer than that bound excludes overlap; `Timing` supplies the bounds for both queues |
| Views.RawStep | internal/analyzer/service.go:612-702 | every step of any of the four services is one event of the lease queue on `analyzer_queue`, or leaves it alone |
| Views.DispatchStep | internal/dispatcher/service.go:427-479 | the same for `dispatch_queue` |
| Views.RawRun | internal/analyzer/service.go:502-541 | every run of the system is a run of the analyzer's lease queue |
| Views.DispatchRun | internal/dispatcher/service.go:307-334 | every run of the system is a run of the dispatcher's lease queue |
| Views.RowsAreFenced | internal/dispatcher/service.go:456-479 | the row invariant and the fencing hold of both queues in every reachable world |
| Views.DeliveryCountsAreClaims | internal/rssreader/service.go:720-748 | in both queues `delivery_count` counts claims, with readers and admin requeues running |
| Views.PlacesAreInsertions | internal/rssreader/service.go:720-748 | in both queues `enqueued_at` is the time carried by the reader's, the analyzer's or the web-admin's step that inserted the row |
| Views.RawClaimsAreFifo | internal/analyzer/service.go:637-664 | analyzers claim in the order of those insertions |
| Views.DispatchClaimsAreFifo | internal/dispatcher/service.go:427-454 | so do dispatchers |
| Views.AnalyzerLeasesExclude | internal/analyzer/service.go:637-664 | lease exclusion for two claims by analyzers of the running system |
| Views.DispatcherLeasesExclude | internal/dispatcher/service.go:427-454 | lease exclusion for two claims by dispatchers |
| Views.OnlyTheLatestAnalyzerCloses | internal/analyzer/service.go:666-702 | an analyzer's complete, fail or release that changes a row was issued by its latest claimer, for the payload now in it |
| Views.OnlyTheLatestDispatcherCloses | internal/dispatcher/service.go:456-479 | the same for a dispatcher's complete or release |
| Views.RawEnqueueIsAnalysed | internal/webadmin/service.go:1003-1031 | a reader's enqueue or a raw requeue is closed only by an analyzer that claimed it afterwards |
| Views.ForwardIsDispatched | internal/analyzer/service.go:612-635 | a forwarded or requeued analysis is closed only by a dispatcher that claimed it afterwards |
| Effects.FailureMarks | internal/analyzer/service.go:749-758 | a failed attempt or a quarantine leaves a stored item FAILED with its analysis and date, a DISPATCHED one as it was, and no other item changed |
| Effects.AnalysisIsStored | internal/analyzer/service.go:732-760 | a fresh analysis leaves the item ANALYZED with exactly that analysis, unless it is DISPATCHED |
| Effects.MissMarks | internal/dispatcher/service.go:380-386 | a failed delivery leaves the item FAILED, with its analysis and date |
| Effects.DeliveryIsDated | internal/dispatcher/service.go:391-391 | a delivery leaves it DISPATCHED with its time |
| Effects.PublicationMarks | internal/rssreader/service.go:678-718 | a publication leaves it NEW, a failed one FAILED |
| Effects.RequeueReopens | internal/webadmin/service.go:1019-1060 | a requeue leaves it ANALYZED or NEW, as the stored analysis says, and undated |
| Effects.OthersLeaveItems | internal/analyzer/service.go:543-610 | no other step changes an item that stays |
| Effects.ItemsComeAndGo | internal/webadmin/service.go:1064-1098 | items come by an insert as NEW and go by a deletion, with both rows, or a clean-up |
| Effects.ForwardWaits | internal/analyzer/service.go:612-623 | a forward leaves a QUEUED unowned dispatch row with the analysis, other rows and the analyzer queue unchanged |
| Effects.PublicationWaits | internal/rssreader/service.go:729-743 | a publication leaves a QUEUED unowned analyzer row with the item's payload |
| Effects.RequeueWaits | internal/webadmin/service.go:1003-1045 | a requeue leaves such a row in the queue its mode says, and the other queue alone |
| Effects.ClaimLeases | internal/analyzer/service.go:637-664 | a claim leases the row to its worker until its deadline, counts, and leaves payload, place and first completion |
| Effects.OwnersClose | internal/analyzer/service.go:666-702 | the owner's finish closes the row, dating its first completion, its release queues it again, and nobody else's changes anything |
| Stranding.StepKeepsIff | internal/analyzer/service.go:543-610 | the inductive form of the promise (a pending item has a live row whose owner is not about to close it, or is about to be enqueued) survives a step of any service if and only if the step does not remove the item's last hope |
| Stranding.RunKeepsIff | internal/webadmin/service.go:1003-1060 | a run keeps that form in every state if and only if no event removes the item's last hope |
| Stranding.NothingStranded | internal/analyzer/service.go:543-610 | whatever the interleaving, stale workers included, a NEW or ANALYZED undated item has a QUEUED or LEASED row or a process about to enqueue it |
| Stranding.QuiescentMeansClaimable | internal/dispatcher/service.go:336-402 | with all processes idle, such an item can be claimed from some time on |
| Stranding.BenignNeverStrikes | internal/analyzer/service.go:563-571 | an analyzer that dies or fails at its enqueue while it owns its row strands nothing: the row stays for the stored-analysis path |
| Stranding.BenignRunsStrandNothing | internal/dispatcher/service.go:336-402 | analyses may overlap: nothing is stranded if no reader dies half-way and no analyzer dies or fails at its enqueue after losing its row |
| Crashes.BackedNeverStrikes | internal/analyzer/service.go:563-571 | the row of an item in one pair of hands is live and nobody else's, or a reader is about to bring it back, so no crash takes the last hope |
| Crashes.CrashesStrandNothing | internal/analyzer/service.go:543-610 | no stranded work with crashes, failed enqueues, requeues, deletes and clean-ups at any time, as long as analyses of one item do not overlap and readers deliver |
| Crashes.LongLeasesStrandNothing | internal/webadmin/service.go:1003-1060 | leases longer than the computed bound are enough for that, items in hand being left alone |
| Crashes.ExpiryNeverOverlaps | internal/analyzer/service.go:637-664 | an item in hand cannot be claimed by way of its lease running out |
| Crashes.WaitingClaimsStrandNothing | internal/webadmin/service.go:1064-1098 | so items in hand may be requeued and deleted too, if whoever would claim them again waits for the handling to end |
| Deliveries.AlreadyDispatchedMeansDated | internal/dispatcher/service.go:404-425 | in every interleaving DISPATCHED implies `dispatched_at`, so isAlreadyDispatched is equivalent to "`dispatched_at` is set" |
| Deliveries.DispatchIsSticky | internal/dispatcher/service.go:481-499 | it stays true until an admin requeue or the removal of the row |
| Deliveries.AnalyzersRespectDispatched | internal/analyzer/service.go:749-758 | no analyzer step, stale ones included, changes a DISPATCHED item |
| Deliveries.DeliveriesAccount | internal/dispatcher/service.go:356-398 | with crashes, but without overlap or removal of the row: deliveries equal requeues of the dated item, plus deaths of a dispatcher between delivery and mark, plus one if the item is dated or its dispatcher is about to date it |
| Deliveries.OneDeliveryPerRequeueIff | internal/webadmin/service.go:1050-1060 | deliveries are at most requeues, plus one if dated, if and only if those deaths and the delivery being marked do not outnumber the requeues that found the item undated |
| Deliveries.DeliveriesBounded | internal/dispatcher/service.go:378-391 | its corollary: with deaths counted, and the delivery being marked, the bound holds in every state |
| Deliveries.DeliveriesAccountedFor | internal/dispatcher/service.go:404-425 | its corollary: without such deaths, and with no delivery left to mark, deliveries are at most requeues, plus one if the item is dated |
| Deliveries.DeliveriesNeedClaims | internal/dispatcher/service.go:427-454 | in all runs, crashes, overlaps and deletions included, each delivery has its own claim of the dispatch row |
| StoredAnalysisAgrees.StoredAnalysisMatchesQueue | internal/analyzer/service.go:563-609 | every dispatch row's payload is the stored analysis, over the fresh, cached and requeued routes |
| StoredAnalysisAgrees.StoredOnce | internal/analyzer/service.go:732-760 | `analyzed_payload_json` is written at most once |
| StoredAnalysisAgrees.NeverRecomputed | internal/analyzer/service.go:704-718 | once it is stored no analysis of the item succeeds again |
| Board.LaneOf | internal/webadmin/service.go:1308-1320 | every lane is characterised: LEASED is inflight and QUEUED backlog, the analyzer queue first; `anomalies` are the NEW and ANALYZED items without a live row, `failed` the FAILED ones, and the DISPATCHED ones have no lane |
| Board.FillLanes | internal/webadmin/service.go:1373-1413 | every lane counts all of its items and shows the first ones up to the limit, in query order |
| Board.LanesJoin | internal/webadmin/service.go:1380-1413 | the lane of two batches of rows is that of the first followed by that of the second |
| Board.RowInLane | internal/webadmin/service.go:1404-1413 | a row is in its own lane and in no other |
| Board.LanesPartition | internal/webadmin/service.go:1380-1413 | the lane counts add up to the number of items that have a lane |
| Board.StepAgreesIff | internal/dispatcher/service.go:481-499 | a step of any service keeps "dated exactly if DISPATCHED" if and only if it is not a failed delivery, nor a publication by a reader, of a dated item |
| Board.RunAgreesIff | internal/webadmin/service.go:1308-1320 | a run has the agreement in every state if and only if no event of it is such a step |
| Board.CalmRunsAreOrderly | internal/dispatcher/service.go:356-398 | calm runs have no such step, so `dispatched_at` is set exactly for DISPATCHED items |
| Board.AnomaliesAreStranded | internal/webadmin/service.go:1308-1320 | in a run without a step that sets date and status at odds, an item is in the anomalies lane if and only if it is pending without a live row |
| Board.QuietLaneIsEmpty | internal/webadmin/service.go:1316-1319 | so the lane is empty in every quiescent state of a run without such steps and without lost last hopes |
| Board.AnomaliesLaneIsEmpty | internal/webadmin/service.go:1308-1320 | in particular in every quiescent state of a calm run |
| Budget.ClaimsAndAnalysesBounded | internal/analyzer/service.go:575-609 | with any number of analyzers and whatever the analyses answer, an item gets at most M + raw requeues claims, and max(1, R) analyses per claim |
| Budget.ReenqueuesAreRequeues | internal/rssreader/service.go:720-748 | no more raw enqueues find the item's row than there are raw requeues, the reader's own publication included |
| Budget.OnlyDecodablesAreClosed | internal/analyzer/service.go:546-550 | in every reachable world a DONE row of `analyzer_queue` has a payload that decodes |
| Budget.RetryableFailureQuarantinesIff | internal/analyzer/service.go:1633-1657 | a retryable failure quarantines the claim if and only if the row is still the worker's and had M - 1 claims or more when it was claimed |
| Findings.ReaderDeathStrands | internal/rssreader/service.go:453-488 | a run in which a reader's death strands an item |
| Findings.StaleDeathStrands | internal/analyzer/service.go:732-760 | a run in which a stale analyzer's death strands an item |
| Findings.FailedRepublishStrands | internal/rssreader/service.go:477-484 | a run without overlap in which an item is deleted while in hand, stored again and not enqueued, and the analyzer's death strands it |
| Findings.SplitPublishStrands | internal/rssreader/service.go:701-748 | in a world reached from the start, a quarantine between the reader's upsert and its bookkeeping strands the item: why the pair is one step |
| Findings.SplitRequeueStrands | internal/webadmin/service.go:1003-1031 | in a world reached from the start, an analysis and a dispatch between a requeue's upsert and its update leave the item NEW, undated and in no queue |
| Findings.DeliveryPrecedesItsMark | internal/dispatcher/service.go:378-391 | an item can have been delivered and not yet dated |
| Findings.DeathAfterDeliveryRepeats | internal/dispatcher/service.go:378-391 | a dispatcher's death after the delivery leads to a second one without a requeue: the bound is attained |
| Findings.OverlapBreaksTheStatus | internal/dispatcher/service.go:481-499 | overlapping dispatches can leave a dated item FAILED |
| Findings.UndecodableIsClaimedForever | internal/analyzer/service.go:546-550 | an undecodable payload is claimed and released any number of times under every configuration |
| Findings.RequeueQuarantinedAtOnce | internal/analyzer/service.go:589-601 | a run in which one retryable failure right after a requeue is quarantined, though three deliveries are allowed |
| Services.FindOldest | internal/analyzer/service.go:648-653 | it finds a claimable row of minimal `enqueued_at`, or there is no claimable row |
| Services.FirstAnswerWins | internal/analyzer/service.go:575-588 | the first answer before a cancellation is the verdict, after exactly that many attempts, if it comes within max(1, R) |
| Services.LastRefusalCounts | internal/analyzer/service.go:575-592 | when all max(1, R) attempts are made in vain, the last error's kind is the verdict |
| Services.CancellationEnds | pkg/retry/retry.go:22-26 | a cancellation ends the attempts without a verdict on the item |
| Services.FreshRoundMeans | internal/analyzer/service.go:574-609 | what a handling without a stored analysis leaves in the items and in the dispatch queue, and when it closes its claim |
| Services.AnalyzerRoundMeans | internal/analyzer/service.go:543-572 | what a handling leaves when it is turned away, and when it forwards the stored analysis |
| Services.Analyzer.ClaimNextRawJob | internal/analyzer/service.go:637-664 | the trace goes on by the claim of an oldest claimable row for this worker, with its payload, or nothing happens because none is claimable |
| Services.Analyzer.CompleteClaim | internal/analyzer/service.go:666-677 | after a forward, the trace goes on to this worker being idle; the row is closed only if the worker still owns it |
| Services.Analyzer.FailClaim | internal/analyzer/service.go:691-702 | after the poison mark, the trace goes on to this worker being idle; the row is closed only if the worker still owns it |
| Services.Analyzer.ReleaseClaim | internal/analyzer/service.go:679-689 | after a failure, the trace goes on to this worker being idle; the row is queued again only if the worker still owns it |
| Services.Analyzer.EnqueueDispatchJob | internal/analyzer/service.go:612-635 | the trace goes on from the forward to closing the claim, or from its failure to putting it back with the dispatch queue unchanged |
| Services.Analyzer.ShouldQuarantineClaim | internal/analyzer/service.go:1633-1657 | the trace goes on from the decision to the poison mark or to putting the claim back, as the answer says |
| Services.Analyzer.AnalyzeWithRetries | internal/analyzer/service.go:575-588 | as many attempts as the retry loop makes, each one step of the trace: none before the last answered or was cancelled, and the last one decides |
| Services.Analyzer.GiveUpOn | internal/analyzer/service.go:589-601 | a failed claim is quarantined with the item FAILED, or put back with the items untouched |
| Services.Analyzer.HandOver | internal/analyzer/service.go:563-571 | the analysis is enqueued and the claim closed, or neither and the claim is put back |
| Services.Analyzer.HandleClaimedMessage | internal/analyzer/service.go:543-610 | from any world with this worker at its claim, the others anywhere, one whole handling is a trace that ends with it idle; on every path the three tables are left as specified in one go |
| Services.PutBackMeansToSpare | internal/analyzer/service.go:589-601 | when only analyses fail, a claim is put back only with deliveries to spare |
| Services.Dispatcher.ClaimNextDispatchJob | internal/dispatcher/service.go:427-454 | the trace goes on by the claim of an oldest claimable dispatch row, or none is claimable |
| Services.Dispatcher.CompleteDispatchClaim | internal/dispatcher/service.go:456-467 | closes the row if this worker owns it, as one pipeline step |
| Services.Dispatcher.ReleaseDispatchClaim | internal/dispatcher/service.go:469-479 | puts the row back if this worker owns it, as one pipeline step |
| Services.Dispatcher.DeliverWithRetries | internal/dispatcher/service.go:378-386 | as many deliveries as the retry loop makes, each one step of the trace; unless the first gets through the item is left FAILED with its analysis and date, and no other item changes |
| Services.Dispatcher.HandleClaimedMessage | internal/dispatcher/service.go:336-402 | from any world with this worker at its claim, one whole handling is a trace that ends with it idle; a dispatched item is closed unsent, a failed check leaves the row LEASED, otherwise the item is sent and closed or put back |
| Services.WebAdmin.HandleItemRequeue | internal/webadmin/service.go:909-1062 | raw mode leaves the item NEW and a waiting analyzer row with the raw payload, analyzed mode leaves it ANALYZED and a waiting dispatch row with exactly the stored analysis; both undated, all else unchanged, and as the request's two steps of the trace |
| Services.WebAdmin.HandleItemDelete | internal/webadmin/service.go:1064-1098 | the trace goes on by one delete, after which the item and both rows are gone, or nothing happens |
| Drain.RoundReduces | internal/analyzer/service.go:575-609 | every claim-and-handle round strictly lowers the sum of the claims the open rows may still cost: a put-back row costs exactly one less than before, a row at its last delivery is closed; no other row changes |
| Drain.RoundProgresses | internal/analyzer/service.go:637-702 | a round keeps the FIFO order of claims and of closings, and pays for its claim |
| Drain.DrainQueue | internal/analyzer/service.go:502-541 | a lone analyzer empties the queue within that many claims, each row within its own share; rows are claimed, and closed once each, in `enqueued_at` order; the whole is one trace whose claims are the log |
| Drain.EmptiedWithin | internal/analyzer/service.go:502-541 | a drained queue has cost each open row at most max(1, M - `delivery_count`) claims, a DONE row none, and all together at most M times the rows |
| Drain.CountsAreTheHistory | internal/analyzer/service.go:637-664 | after a drain that goes on from the start, `delivery_count` is the number of claims in the whole history |
| Retry.Exponential | pkg/retry/retry.go:8-29 | the calls, the outcome and the duration of the loop are those of the specification |
| Retry.LastCallIs | pkg/retry/retry.go:13-27 | the last call is the first that succeeds or is cancelled after, or number max(1, attempts) |
| Retry.DelayDoubles | pkg/retry/retry.go:21-21 | the first delay is the base and each is twice the one before, while that fits 64 bits |
| Retry.TimeSplits | pkg/retry/retry.go:13-27 | the duration is exactly the calls, the delays between them, and the part of a delay cut short by a cancellation |
| Retry.UncancelledTime | pkg/retry/retry.go:13-28 | absent cancellation and overflow it is exactly the calls plus base * (2^(calls-1) - 1) |
| Retry.InVain | pkg/retry/retry.go:13-28 | failing calls of equal cost take exactly the bound |
| Retry.RetryTimeBounded | pkg/retry/retry.go:13-27 | the duration is at most the calls plus base * (2^(max(1, attempts)-1) - 1) |
| Timing.ComputeLLMTimeout | internal/analyzer/service.go:1227-1265 | for all 64-bit arguments the deadline lies between base and cap, even when sums wrap; it is the exact allowance, capped, when nothing overflows |
| Timing.ConfiguredValues | internal/analyzer/service.go:1228-1246 | the defaults, and that configured values count |
| Timing.DefaultDeadline | internal/analyzer/service.go:1227-1265 | the default deadline in numbers: 20 s, 25 s per started kilobyte, 20 s per started 256 tokens, 10 min at most |
| Timing.WrappedIsAllowance | internal/analyzer/service.go:1248-1257 | wrapping every sum on the way comes to wrapping the exact allowance once |
| Timing.DeadlineIsRightIff | internal/analyzer/service.go:1248-1264 | the deadline is the allowance up to the cap if and only if the allowance fits 64 bits, or wraps to the cap or beyond, or base and cap coincide |
| Timing.AnyDeadlineIsRightIff | internal/analyzer/service.go:1248-1264 | the same for all 64-bit arguments, the roundings overflowing included |
| Timing.LongerPromptsWaitLongerIff | internal/analyzer/service.go:1248-1264 | more characters and tokens get no shorter deadline if and only if the smaller allowance wraps to the base or below, the larger to the cap or beyond, the wrapped ones are in order, or base and cap coincide |
| Timing.LongerPromptsWaitLonger | internal/analyzer/service.go:1248-1264 | in particular the deadline is monotone absent overflow |
| Timing.OverflowShortensTheDeadline | internal/analyzer/service.go:1248-1264 | with overflow it is not |
| Timing.AnalyzeTime | internal/analyzer/service.go:766-831 | one analysis is at most 8 s + the scraping deadline + two model deadlines |
| Timing.SlowVisit | internal/analyzer/service.go:1429-1611 | when everything is late an analysis lasts exactly as long as its deadlines, by extractor |
| Timing.QuickVisit | internal/analyzer/service.go:766-831 | when nothing is late it lasts exactly as long as its requests |
| Timing.LastAnswerDecides | internal/analyzer/service.go:791-831 | the compact answer decides when the first was cut off, and otherwise the first does |
| Timing.TimeHandling | internal/analyzer/service.go:526-610 | the retry loop, the rate limiter and the statements together last the handling time |
| Timing.HandlingTimeBounded | internal/analyzer/service.go:766-831 | the handling time is at most limiter wait + slack + R * (8 s + scraping + two deadlines + slack) + base * (2^(R-1) - 1), slack being what the statements of an attempt take |
| Timing.HandlingBoundIsReached | internal/analyzer/service.go:766-831 | the bound is reached by a handling whose every attempt is as slow as can be |
| Timing.LongLeasesPreventOverlap | internal/analyzer/service.go:637-664 | a lease longer than that bound gives non-overlapping analyses in the whole system, if a handling still in hand at a new claim has lasted no longer than some handling can |
| Timing.DispatchTimeBounded | internal/dispatcher/service.go:528-575 | a dispatch lasts at most limiter wait + slack + R * (two requests of 20 s + slack) + base * (2^(R-1) - 1) |
| Timing.LastRequestDecides | internal/dispatcher/service.go:536-545 | a second request is made exactly when the first failed on its formatting, and the last one decides |
| Timing.DispatchBoundIsReached | internal/dispatcher/service.go:528-575 | the bound of a dispatch is reached |
| Timing.LongLeasesPreventDoubleDispatch | internal/dispatcher/service.go:427-454 | a dispatcher lease longer than that bound gives non-overlapping dispatches |
| Polling.Reader.StoreFeed | internal/rssreader/service.go:453-488 | the item loop with its cap and faults does what the recursive poll does |
| Polling.PollReceives | internal/rssreader/service.go:453-488 | an error-free poll stores and enqueues the first unseen items up to the cap |
| Polling.CappedPollingIsComplete | internal/rssreader/service.go:453-488 | k such polls of an unchanged feed receive exactly the first min(k * cap, remaining) distinct unseen items, once each, in feed order |
| Polling.UncappedPollTakesAll | internal/rssreader/service.go:453-488 | without a cap one poll takes everything new |
| Polling.UnseenIsNew | internal/rssreader/service.go:646-676 | the unseen items are distinct, not stored, and cover the feed |
| Polling.FaultyPollsEnqueueOnce | internal/rssreader/service.go:453-488 | whatever fails, no item is enqueued twice and the cap is respected |
| Polling.FirstInsertDecides | internal/rssreader/service.go:462-486 | a new item is decided by its first occurrence whose insert succeeds: enqueued, or stored as FAILED, unless the cap was reached before |
| Polling.FeedState.Poll | internal/rssreader/service.go:408-451 | a round runs exactly when the state can be read and the feed is forced or not cooling down, and fetches as often as the retry loop does; success clears the cooldown and failure starts one at the end of the round, unless the mark fails |
| Polling.CooldownEnds | internal/rssreader/service.go:894-920 | after a failed round the feed is ready exactly when the cooldown is over |
| Polling.SuccessClears | internal/rssreader/service.go:922-932 | after a successful one it is ready at once |
| Polling.CooldownSpacesRounds | internal/rssreader/service.go:909-932 | without forced polls, and with the starts of cooldowns recorded, no round starts within the cooldown of a failed round |
| Polling.FailingFeedIsSpared | internal/rssreader/service.go:428-442 | of an always failing feed, rounds ending in a window of length L fetch at most max(1, R) * (L / C + 1) times |
| Slug.Slugify | cmd/test-rss/main.go:432-449 | the dash-halving loop ends and leaves one dash of every run |
| Slug.CollapseHasNoDoubleDash | cmd/test-rss/main.go:445-447 | no double dash is left |
| Slug.CollapseKeepsLetters | cmd/test-rss/main.go:445-447 | and nothing but dashes is lost |
| Slug.TrimTakesDashes | cmd/test-rss/main.go:448-448 | trimming takes all dashes at both ends and nothing else |
| Slug.ReplacedByExample | cmd/test-rss/main.go:434-443 | what becomes of each of the eight replaced characters |
| Slug.OthersAreNotReplaced | cmd/test-rss/main.go:434-444 | every other character stays |
| Slug.ItoaIsRead | cmd/test-rss/main.go:368-378 | a printed number reads as itself |
| Slug.SlugRoundTrip | cmd/test-rss/main.go:368-388 | the index is read back from the slug if and only if the label keeps a character other than a dash; otherwise the slug is the bare number |
| Slug.TooBigIsRefused | cmd/test-rss/main.go:373-376 | a number beyond 64 bits is refused |
| TestFeed.GenerateSlots | cmd/test-rss/main.go:351-366 | slots one interval apart, backwards from the current one, each numbered by its own time |
| TestFeed.CurrentSlot | cmd/test-rss/main.go:351-352 | the current slot is the last grid point that has come, the grid starting at the beginning of the year 1 |
| TestFeed.SlotsAreConsecutive | cmd/test-rss/main.go:361-366 | the numbers go down one by one on one side of the epoch or on a grid through it |
| TestFeed.SlotsRepeatAtTheEpoch | cmd/test-rss/main.go:361-366 | otherwise two neighbouring slots share number zero |
| TestFeed.PublishedLinksAreServed | cmd/test-rss/main.go:316-327 | every link printed for a tidy site passes the rebuild-and-compare check and shows its own job |
| TestFeed.SlashesDoNotMatter | cmd/test-rss/main.go:309-314 | so does the link with slashes around it |
| TestFeed.JobsTakeTurns | cmd/test-rss/main.go:380-388 | the companies and the roles take turns, each list at its own pace |
| TestFeed.GenerateLatestJobs | cmd/test-rss/main.go:342-349 | every slot generated, down to number zero, has a link that is served and shows that slot's job |
| TestFeed.LinksAreDistinct | cmd/test-rss/main.go:351-366 | after the epoch, or on a grid through it, no two slots of a page share a link |
| TestFeed.OurLinksAreServed | cmd/test-rss/main.go:108-122 | the site's own names are tidy, so all its links work |
| Normalise.SanitizeTechStack | internal/analyzer/service.go:1724-1740 | the loop computes the shared clean-and-drop specification, case-insensitively |
| Normalise.SanitizeTags | internal/analyzer/service.go:1742-1760 | the same for tags cut to 24 characters |
| Normalise.UniqueURLs | internal/analyzer/service.go:1394-1411 | the same for trimmed URLs over several lists |
| Normalise.DistilSelects | internal/analyzer/service.go:1724-1760 | the result keeps the order of the cleaned input and drops only blanks and repetitions |
| Normalise.DistilIsDistilled | internal/analyzer/service.go:1724-1760 | the result is clean, non-empty and free of repeated keys |
| Normalise.CategoryTwice | internal/analyzer/service.go:1413-1427 | a category is one of the allowed ones, and normalising it again changes nothing |
| Normalise.UnknownCategoryIsOther | internal/analyzer/service.go:1413-1427 | a category without a known spelling belongs to the other roles |
| Normalise.SpellingsByExample | internal/analyzer/service.go:50-64 | two spellings |
| Normalise.InformationStays | internal/analyzer/service.go:1705-1722 | a trimmed text that is no placeholder stays, anything else becomes such a text or nothing |
| Normalise.PlaceholdersVanish | internal/analyzer/service.go:1710-1721 | every placeholder vanishes, in any case |
| Normalise.TagIsItsLetters | internal/analyzer/service.go:1762-1777 | neither the leading '#' nor white space makes a difference to a tag |
| Normalise.TagChars | internal/analyzer/service.go:1769-1776 | letters and digits are kept in lower case, other ASCII characters are not |
| Normalise.TagIsCut | internal/analyzer/service.go:1750-1752 | a tag is its first 24 characters |
| Normalise.NormaliseJob | internal/analyzer/service.go:1283-1307 | an answer is refused exactly when role, company or summary is missing; otherwise every field is cleaned as specified |
| Normalise.NormalisedIsFixed | internal/analyzer/service.go:1292-1306 | normalising again changes nothing, nor does cleaning the cleaned links and images |
| Normalise.TidyStays | internal/analyzer/service.go:1294-1306 | a clean answer stays as it is, field by field |
| Normalise.LinksAreTheSources | internal/analyzer/service.go:1292-1293 | links and images are the feed item's, its own URL first, all of them, in order and once each; an empty language becomes "it" |
| Normalise.NormalisedListsAreSmall | internal/analyzer/service.go:1300-1303 | at most 8 technologies and 6 tags of 1 to 24 characters, duplicate-free, in the order given |
| Normalise.ComputeJobPostQuality | internal/analyzer/service.go:1779-1809 | score + 20 * missing fields = 100, the missing fields in fixed order, the rank by their number |
| Normalise.MissingAgreesWithFields | internal/analyzer/service.go:1779-1827 | on a normalised job a field is missing exactly when it is empty, or when the salary has no clear amount |
| Normalise.MissingIs | internal/analyzer/service.go:1779-1809 | the missing list holds exactly the checked fields that fail their check |
| Normalise.AmountChars | internal/analyzer/service.go:1826-1826 | a digit or a currency sign is an amount, and nothing else is |
| Normalise.AmbiguousSalaries | internal/analyzer/service.go:1816-1825 | an ambiguous word anywhere spoils the salary |
| Markdown.UnescapeInvertsEscape | internal/dispatcher/service.go:606-615 | escaped text reads as the original |
| Markdown.EscapeInvertsUnescape | internal/dispatcher/service.go:606-615 | and every readable text is the escape of what it reads as |
| Markdown.EscapeDistributes | internal/dispatcher/service.go:606-615 | escaping distributes over concatenation |
| Markdown.SpecialsAreEscaped | internal/dispatcher/service.go:606-615 | every special character of the output, backslashes included, stands after an unpaired backslash or is a backslash that escapes the next one; an unpaired backslash is followed by nothing else |
| Markdown.LiteralsAreEscaped | internal/dispatcher/service.go:606-615 | every special character of the text stands in the output at its own place, after an unpaired backslash |
| Markdown.EscapeByExample | internal/dispatcher/service.go:606-615 | the five special characters, and a text without any |
| Markdown.OthersStay | internal/dispatcher/service.go:606-615 | every other character stays as it is |

## Left out

- Services.Analyzer.EnqueueDispatchJob: the enqueue counters on the item row are not modelled.
- Services.Analyzer.FailClaim: the error text, the only difference from a completion, is not modelled.
- Polling.Reader.StoreFeed: keys stand for the item hash, taken as injective on the normalised triple; links, descriptions and dates are not modelled.
- Timing.LongLeasesPreventOverlap: deadlines are taken to be honoured, and a process is not suspended beyond the slack of its statements.
- Normalise.NormaliseJob: decoding, confidence values and the fields copied from the feed item are not modelled.
- TestFeed.GenerateSlots: times outside the 64-bit nanosecond range (before 1678, after 2262) are not modelled.
- Every SQL statement, and the delete transaction, is atomic; write-ahead logging and busy timeouts are not modelled.
- The upsert and the item bookkeeping after it are one step for the reader and the web-admin; the requeue's SELECT is its own step.
- Swallowed database errors of the status marks are not modelled; a worker whose final complete, release or fail statement fails is one that crashes there. Failures of the stored-analysis read, the delivery-count read, the dispatched check, and both enqueues are modelled.
- The enqueue of a reader fails as a whole; an upsert that succeeds with a failing bookkeeping update is not modelled.
- Payloads are opaque with a flag for whether they decode; the item id inside a payload is the row's item id.
- The columns last_error, updated_at, analyzed_at and the enqueue counters are not modelled, nor is the table analyzed_items.
- Whether an item is ever dispatched: the dispatcher has no attempt limit, so no termination is claimed for it.
- Liveness under fair scheduling of several workers; `Budget.ClaimsAndAnalysesBounded` bounds their work, and `Drain.DrainQueue` shows termination for one analyzer.
- Cleanup is a step that removes any set of item rows; the retention time is not modelled.
- HTTP, RSS parsing, prompts, JSON, the model, scraping, Telegram and file delivery appear only as outcomes and durations.
- Confidence values: easy single-field maps over floating point.
- Text functions are ASCII, apart from the salary check's currency signs; title normalisation and SHA-1 are left out.
- The second CASE of the board and the CASE of countDerivedQueueStates: labels without an invariant of their own.
- bootstrapMarkExisting with pending_items, storeAnalyzed, handleProcessedReceipt and MQTT: legacy paths outside the queues.
- Telemetry, health servers, environment parsing, dashboards, the web page and the deployment files.
