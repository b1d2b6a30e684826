# Verified model of the demo's event pipeline, report engine and load shape

This project models the parts of the demo system whose comments make promises, and proves the
promises, or finds exactly when they hold.

- **Event store** (`EventStore`, `CurrentItems`, `BatchIngest`, `Store`, `Convergence`,
  `Conservation`). The analytics database is three tables: raw events with a unique key, hourly
  counters, and the current state of each item with tombstones. The upsert of an item row is an
  associative operation with "no row" as unit, so a sequence of events or of batches acts on an
  item through one digest row. Batch against serial ingestion, replay, interrupted re-runs and
  convergence are then facts about digests. `Store.AnalyticsStore` is the object the services
  write through.
- **Event distribution** (`Broadcaster`, `IngestProtocol`, `IngestClient`). Bounded queues with
  drop-oldest and a DISCONNECT sentinel, the item operations that publish after commit, and the
  analytics client's cycle of snapshot, reconcile, subscribe, ingest and retry, as a labelled
  transition system with an inductive invariant; the reconnect loop and its wrapping backoff.
- **Historical seeder** (`Seeder`). The generated sequence, the batching loop with every way out,
  and its composition with the store.
- **Report engine** (`ReportJobs`, `ReportEngine`, `ReportStartup`). One job with its catch and
  finally branches, the service as a transition system of submitters, workers, shutdown, crash and
  restart, and what its startup reconciliation may meet.
- **CSV renderer** (`Csv`). The printer and a parser written from section 2 of RFC 4180.
- **Load shape and schedule** (`LoadShape`, `Schedule`). Both implementations of the noise hash,
  weekday and rate, the time warp of anomalies, and the stage builder. `Words` holds 64-bit words.

`dafny verify dfyconfig.toml` checks everything.

## Where the code and its comments differ

The model follows the code. Where a promise fails for some input, the condition under which it holds
is stated and proved, and a lemma shows the input.

- `services/analytics/internal/store/seed.go:32-54` calls the batch equal to serial ingestion. The
  fold compares Go times, in nanoseconds; the SQL compares stored times, in microseconds (the
  database's precision, to which a time is floored when it is stored). An event that is earlier
  than an earlier-listed event of its item by less than a stored microsecond loses in the fold and
  wins serially (`BatchIngest.HiddenInversionIsVisible`). Rows, counters, `first_seen` and
  `last_seen` always agree; name and tombstone agree exactly when `BatchIngest.BatchRefinesSerial`
  says so. Times already at database precision always satisfy it. The seeder draws nanosecond
  times.
- For the same reason the final `current_items` can depend on the batch size, against
  `seed.go:172-177`, also for sequences the seeder generates (`Seeder.BatchSizeCanMatter`). Two ways to
  batch a sequence agree exactly when `BatchIngest.CutIndependence` says so, and all ways agree exactly
  when `BatchIngest.CutsNeverMatterIff` does.
- `ReportService.kt:127-132` deletes a failed job's artifact as far as it can. Whenever no body is at
  work on a job, in any run with crashes and restarts, its file is there exactly when its row succeeded
  with an acknowledgement or a step left it (`ReportEngine.ArtifactsAgreeWithRows`): a write that failed
  part way, because `writtenPath` is set only afterwards (`ReportStartup.FailedJobKeepsItsFile`), a
  failed delete, an Error after the write, or a crash while the file was stored and its row not yet
  settled (`ReportStartup.CrashStrandsAFile`).
- `ReportService.kt:42-46` promises that a job is never lost. `ReportEngine.OpenRowsHaveATask` lists why
  a row can be open: besides a task, an Error or an unrecorded failure (`ReportStartup.DeadJobStaysOpen`),
  an insert that took effect but threw, the forced stop, or an earlier instance before the startup
  reconciliation.
- A terminal status is meant to be final. It is, through all that may follow, exactly when nothing is
  left to come for its row (`ReportStartup.StatusIsFinalIff`), and that fails in exactly two ways: the
  startup reconciliation takes every open row for orphaned, but a submit can overtake it
  (`ReportStartup.EarlySubmitRevivesAFailedJob`); and a success that is recorded but followed by an
  exception is failed by the catch branch (`ReportStartup.LostAckFailsASucceededJob`).
- `services/analytics/internal/ingest/client.go:253` says the shift cannot overflow the product. It
  can for a base of 2^33 ns or more; the delay is the capped exponential exactly when
  `IngestClient.DelayIsCappedExponential` says so.
- `services/analytics/internal/seeder/seeder.go:149-157` promises a window of exactly `Days` times 24
  hours. The product wraps from 106752 days on and the run covers fewer hours; at 106752 the window
  starts in the future and the run succeeds without writing anything (`Seeder.OneDayTooMany`).
  `Seeder.WindowIsTheRequestedOne` has the equivalence.

## Assumptions

A database transaction takes effect or throws. A transaction of one event, an insert, and each repository
call of a job body may also take effect and throw; a batch, a snapshot reconcile, a retention pass and
the startup reconciliation may not. A write of an artifact that a crash cuts short is a partial write
followed by a crash. A commit in the backend and its publish are one step. The protocol's clocks may
disagree: an event older than a time already seen is recorded in the state, and agreement is claimed
only without one. Job ids are UUIDs: a new one names no row and no file yet, and it contains no path
separator, so that file names are paths. Floating-point numbers are real numbers, the cosine is any
function, and random draws are arbitrary.

## Model

| member | source | states |
|---|---|---|
| EventStore.EventsAfter | services/analytics/internal/store/current_items.go:131-139 | after any sequence of ingests the raw rows are the old ones, untouched, plus one row for each key offered, carrying the name of an event offered under that key |
| EventStore.BucketsAfter | services/analytics/internal/store/current_items.go:141-161 | each hourly counter grows by the number of distinct new keys in its hour and type, so duplicates never count twice, and the calls returning true are as many as the distinct new keys |
| EventStore.BucketIsTheHour | services/analytics/internal/store/current_items.go:142-159 | a bucket is the whole UTC hour around the event time, before and after the epoch |
| EventStore.ExpireKeeps | services/analytics/internal/store/retention.go:21-27 | a raw row stays, under its name, exactly when it is at or after the cutoff |
| CurrentItems.ItemAfter | services/analytics/internal/store/current_items.go:178-187 | any sequence of ingests acts on an item as one upsert of its digest row |
| CurrentItems.DigestWitness | services/analytics/internal/store/current_items.go:163-187 | the digest row carries name and tombstone of an event at the item's greatest time, that time, and the first event's time as first_seen |
| CurrentItems.WinnerPosition | services/analytics/internal/store/seed.go:164-170 | the running maximum with "not before" ends at the last event among those of greatest time |
| CurrentItems.SerialDigest | services/analytics/internal/store/seed.go:154-177 | serial ingestion settles on the last event of the item's latest stored microsecond |
| CurrentItems.WinnersShareTheTick | services/analytics/internal/store/seed.go:189-203 | the fold's nanosecond winner and the serial winner always lie in the same microsecond |
| BatchIngest.BatchRefinesSerial | services/analytics/internal/store/seed.go:32-54 | from every starting store the batch ends in the tables of serial ingestion if and only if, for each item, the nanosecond winner and the microsecond winner have the same name and deleted-ness |
| BatchIngest.CutsRefineSerial | services/analytics/internal/store/seed.go:172-177 | the same equivalence for any way of cutting a sequence into batches |
| BatchIngest.BatchRowsAndCounters | services/analytics/internal/store/seed.go:81-106 | raw rows and counters of a batch equal the serial ones with no condition |
| BatchIngest.BatchKeepsTheTimes | services/analytics/internal/store/seed.go:122-136 | batch and serial ingestion always agree on which items exist and on first_seen and last_seen |
| BatchIngest.BatchReport | services/analytics/internal/store/seed.go:14-23 | the inserted count is the number of serial calls returning true; the deltas are exactly the counters those calls change |
| BatchIngest.CutIndependence | services/analytics/internal/seeder/seeder.go:226-234 | two ways to cut one sequence end in the same tables, from every starting store, if and only if for each item the events they settle on carry the same payload |
| BatchIngest.CutsNeverMatterIff | services/analytics/internal/store/seed.go:172-177 | no cut of a sequence matters, and every cut is serial ingestion, if and only if every event of an item's latest microsecond that is newer in nanoseconds than all later events of the item has the serial winner's payload |
| BatchIngest.CutsShareRowsAndCounters | services/analytics/internal/seeder/seeder.go:226-234 | raw rows, counters and insert counts are the same for every cut, with no condition |
| BatchIngest.NoInversionSettles | services/analytics/internal/store/seed.go:167-170 | without a hidden inversion, so in particular with times at database precision, every cut meets the exact condition |
| BatchIngest.NoInversionIsCutProof | services/analytics/internal/store/seed.go:172-177 | a sequence without a hidden inversion meets the condition for every cut |
| BatchIngest.HiddenInversionIsVisible | services/analytics/internal/store/seed.go:194-203 | a concrete pair of events for which the batch keeps an item that serial ingestion tombstones |
| BatchIngest.ReplayIsNoOp | services/analytics/internal/store/seed.go:40-45 | ingesting a sequence right after itself changes no table and inserts nothing |
| BatchIngest.SafeRerun | services/analytics/internal/seeder/seeder.go:119-123 | any prefix in any batches, followed by the full sequence in any batches, equals the full run alone, with no condition on the times |
| BatchIngest.BatchRetryIsNoOp | services/analytics/internal/seeder/seeder.go:180-185 | sending a batch that already took effect again changes no table |
| Store.FoldCurrentItems | services/analytics/internal/store/seed.go:178-213 | the folded rows list each item of the batch once, in order of first appearance, and each is the row of its first event and its nanosecond winner |
| Store.GroupByBucket | services/analytics/internal/store/seed.go:91-95 | the deltas are the numbers of returned rows per hour and type |
| Store.BatchTransaction | services/analytics/internal/store/seed.go:77-136 | the statements of a batch commit the batch function's tables and report the serial insert count and the number of changed counters |
| Store.AnalyticsStore.IngestEvent | services/analytics/internal/store/current_items.go:120-195 | a call that takes effect changes the three tables as one ingest, acknowledged or not; an acknowledged one reports whether the key was new; otherwise nothing changes |
| Store.AnalyticsStore.IngestEventsBatch | services/analytics/internal/store/seed.go:55-142 | all three tables, both reported counts, the empty batch, the rolled-back batch, and equality with serial ingestion for times at database precision or without a hidden inversion |
| Store.AnalyticsStore.ReconcileSnapshot | services/analytics/internal/store/current_items.go:69-111 | current_items becomes the reconciled snapshot, the other tables stay, and the counts are of listed rows and of live rows no longer listed |
| Store.AnalyticsStore.DeleteEventsOlderThan | services/analytics/internal/store/retention.go:21-27 | only raw rows older than the cutoff go, counted, and nothing else changes |
| Store.AnalyticsStore.GetCurrentItem | services/analytics/internal/store/current_items.go:199-213 | found exactly when a row exists, and not tombstoned exactly when it is live |
| Convergence.DeliveriesConverge | services/analytics/internal/store/current_items.go:171-177 | order and repetition of events do not matter to raw rows and item states, from any starting store, if and only if events under one key carry one name and the latest events of each item agree on name and deleted-ness |
| Convergence.CountersConverge | services/analytics/internal/store/current_items.go:141-161 | counters and insert counts never depend on order or repetition, with no condition |
| Convergence.DeliveryConverges | services/analytics/internal/store/current_items.go:171-177 | two deliveries that meet the condition show the same items to readers |
| Convergence.FirstSeenRemembersArrival | services/analytics/internal/store/seed.go:158-163 | first_seen of a known item never changes and of a new item is its first arriving event's time |
| Convergence.ConflictKeepsTheLastArrival | services/analytics/internal/store/current_items.go:178-187 | a create and a delete at an item's latest instant leave whichever came last |
| Conservation.RunsConserve | services/analytics/internal/store/retention.go:13-20 | over every run of ingests, batches, reconciles and retention passes, each counter is the rows present plus the rows retention deleted, and the distinct keys offered plus the keys that came back |
| Conservation.DistinctUnlessRevived | services/analytics/internal/store/current_items.go:141-161 | the counters are the distinct events ever offered if and only if no deleted key was inserted again |
| Conservation.HorizonPreventsRevival | services/analytics/internal/store/retention.go:21-27 | a run that never offers an event older than an applied cutoff counts every distinct event once |
| Broadcaster.ItemEventBroadcaster.Publish | services/backend/app/events.py:59-68 | every subscriber's queue takes its own step, exactly the full ones stop being subscribers, and nothing is raised |
| Broadcaster.WatchStream.Next | services/backend/app/grpc_server.py:76-85 | one turn yields the oldest event, or ends the stream and the subscription on the sentinel |
| Broadcaster.ItemBackend.CreateItem | services/backend/app/crud.py:22-37 | a new row under an unused id and one created event to every subscriber; or, with no row and no event, a uniqueness error exactly when the name is taken and a database error exactly when the commit fails on a free one |
| Broadcaster.ItemBackend.DeleteItem | services/backend/app/crud.py:40-57 | the row goes with one deleted event carrying its last name; an absent id changes and publishes nothing |
| Broadcaster.SubscriberStreamShape | services/backend/app/events.py:59-68 | every interleaving delivers a prefix of all events since subscribing, or, after an overflow at publish k with c consumed, of 0..c-1, c+1..k-1, DISCONNECT, where k - c is the bound |
| Broadcaster.SentinelIsLast | services/backend/app/grpc_server.py:78-83 | nothing is delivered after the sentinel, and by then the whole script was |
| Broadcaster.DrainDeliversTheScript | services/backend/app/grpc_server.py:75-85 | polling as often as messages are queued delivers the whole script |
| IngestProtocol.ProtocolInvariant | services/analytics/internal/ingest/client.go:105-174 | the invariant over every interleaving from any store and any backend |
| IngestProtocol.ConnectedMeansInSync | services/analytics/internal/ingest/client.go:127-143 | connected over a harmless window, with no overflow and no event behind the clock, the live rows after applying everything on its way are exactly the backend's items |
| IngestProtocol.FlagsAreReadOffTheRun | services/backend/app/events.py:59-68 | the overflow and regression flags say exactly that, since the last answered ListItems, a commit on an open stream found the queue full or carried a time below one already seen |
| IngestProtocol.HighIsTheLatestTime | services/analytics/internal/store/current_items.go:178-187 | the high-water mark those times are measured against is the latest the run brought in, or the one it began with |
| IngestProtocol.WindowIsHarmlessIff | services/analytics/internal/ingest/client.go:127-135 | whatever is committed between ListItems, reconcile and subscribe, the stream starts in agreement if and only if the backend's items are then those that were listed |
| IngestProtocol.ReconcileAgreesIff | services/analytics/internal/ingest/client.go:181-203 | a reconcile ends in agreement if and only if the backend is still as listed |
| IngestProtocol.CommitHealsIff | services/analytics/internal/store/current_items.go:171-187 | with no agreement assumed, a delivered commit leaves its item in agreement if and only if its event wins or the row already showed the same, and moves no other item |
| IngestProtocol.OnlyOwnCommitsMoveAnItem | services/analytics/internal/ingest/client.go:142-173 | while connected, nothing but a commit on an item moves it into agreement or out of it, whatever else happens in whatever order |
| IngestProtocol.AgreementIsPerItem | services/analytics/internal/ingest/client.go:127-143 | the store agrees with the backend if and only if it does on every item |
| IngestProtocol.CommitKeepsAgreementIff | services/analytics/internal/store/current_items.go:171-187 | a delivered commit keeps agreement if and only if its event is no older than the row it meets |
| IngestProtocol.CycleRecovers | services/analytics/internal/ingest/client.go:176-180 | however far the store drifted, one undisturbed cycle restores agreement |
| IngestProtocol.ReconcileRecoversTheSnapshot | services/analytics/internal/store/current_items.go:62-68 | after a reconcile the live rows are exactly the snapshot, whatever was stored before |
| IngestProtocol.ReconcileRowByRow | services/analytics/internal/store/current_items.go:80-105 | what a reconcile does to first_seen, last_seen and tombstone of listed, unlisted and tombstoned rows |
| IngestProtocol.WindowLosesAnItem | services/analytics/internal/ingest/client.go:127-132 | an item created between the snapshot and the subscribe stays unknown |
| IngestProtocol.EachKeyCountsOnce | services/analytics/internal/store/current_items.go:131-161 | over every interleaving, with failed, unacknowledged and repeated tries, overflows and restarts, item_events gains exactly the keys of the persisted events and each counter counts each new key once |
| IngestProtocol.PersistedWereCommitted | services/analytics/internal/ingest/client.go:142-173 | every persisted event is one the backend committed in the run |
| IngestClient.HandleEvent | services/analytics/internal/ingest/client.go:208-236 | a malformed event and a failed transaction are told apart; the event lands exactly when the transaction took effect, acknowledged or not, and then its raw row and counter carry its own type word, and unless the item's row is newer the item is live under the event's name after a created or updated event and gone after a deleted one |
| IngestClient.PublishedEventArrives | services/backend/app/grpc_server.py:48-64 | an event encoded by the backend and decoded by the client is ingested as itself, with one type word on both sides |
| IngestClient.ConsumeStream | services/analytics/internal/ingest/client.go:142-173 | every well-formed event is ingested once and in order, however often persisting it fails or is not acknowledged; malformed ones are dropped; the loop stops early exactly where a retry is cancelled, and then the event in hand counts only if a try took effect |
| IngestClient.WellFormedOne | services/analytics/internal/ingest/client.go:208-219 | a recognised wire event becomes one record of its own item, name, word and time, any other none |
| IngestClient.WellFormedConcat | services/analytics/internal/ingest/client.go:142-173 | what is ingested of two stretches of a stream is what is ingested of the whole, in order |
| IngestClient.LandedTwice | services/analytics/internal/store/current_items.go:131-139 | retrying an event whose commit took effect unacknowledged changes nothing |
| IngestClient.BackoffDuration | services/analytics/internal/ingest/client.go:242-261 | for every int64 attempt, base and cap the wait is half the delay plus a draw from zero to half the delay, so between half and all of it, non-negative and at most the effective cap |
| IngestClient.DelayDoubles | services/analytics/internal/ingest/client.go:238-257 | when the largest product fits, with unset values one second and thirty seconds: the first delay is the base or the smaller cap, each delay from attempt 2 to 31 is twice the one before or the cap, and later ones stay |
| IngestClient.DelayIsCappedExponential | services/analytics/internal/ingest/client.go:253-257 | the delay is the capped exponential if and only if the product fits in int64 or its wrapped value is one the cap replaces |
| IngestClient.DelaysGrow | services/analytics/internal/ingest/client.go:238-241 | when the largest product fits, delays are exact and never shrink with the attempt |
| IngestClient.WrappedDelayShrinks | services/analytics/internal/ingest/client.go:253-254 | a base whose delay at attempt 31 is below its delay at attempt 1 |
| IngestClient.Run | services/analytics/internal/ingest/client.go:74-103 | the attempt before each cycle counts the cycles since the last one that connected, and the wait is drawn for it |
| IngestClient.ReconnectStartsOver | services/analytics/internal/ingest/client.go:92-97 | after a cycle that connected the next delay is the base again, or the cap when it is smaller |
| Seeder.Run | services/analytics/internal/seeder/seeder.go:124-257 | at every exit acknowledged batches followed by lost events are a prefix of the generated sequence, the store holds those batches, the count is their inserts. The run completes if and only if no hour of the window is cancelled and every batch call due in it commits; it fails if and only if the first thing to go wrong is a call that fails on its own, and is cancelled if and only if it is a cancelled hour or call. Every batch but the last is full; completion and a successful detached flush lose nothing, and completion generates the requested hours up to 106751 days |
| Seeder.ExitIsDetermined | services/analytics/internal/seeder/seeder.go:202-256 | at most one hour or call can be the one that ends a run, so the three endings exclude each other |
| Seeder.WindowIsTheRequestedOne | services/analytics/internal/seeder/seeder.go:155-157 | with wrapping int64 products the run covers Days times 24 whole UTC hours if and only if Days is at most 106751 |
| Seeder.OneDayTooMany | services/analytics/internal/seeder/seeder.go:156-157 | at 106752 days the window starts in the future and no hour is generated |
| Seeder.HourCountFollowsTheRate | services/analytics/internal/seeder/seeder.go:209-214 | an hour holds the rate at its half hour, times 3600, to the nearest whole number, and nothing for a rate that is not positive |
| Seeder.EventFollowsItsDraw | services/analytics/internal/seeder/seeder.go:216-225 | a draw decides the item by its index, created below one half and deleted from there, and the time to the nanosecond |
| Seeder.EveryItemCanBeDrawn | services/analytics/internal/seeder/seeder.go:218 | for every listed item there is a draw that names it |
| Seeder.GeneratedInOrder | services/analytics/internal/seeder/seeder.go:202-225 | the i-th event of a run is made from the i-th draw, in the hour that the rounded counts of the hours before it leave for it |
| Seeder.FullIsTheProduct | services/analytics/internal/seeder/seeder.go:226-234 | the k-th call is due once k times the batch size, and one batch more, is generated |
| Seeder.EachHourHoldsItsCount | services/analytics/internal/seeder/seeder.go:202-225 | each hour of the window holds round(rate at its midpoint times 3600) events and no other hour holds any |
| Seeder.EventStaysInItsHour | services/analytics/internal/seeder/seeder.go:217-224 | every event lies inside its hour, names a real item, and is a creation or a deletion |
| Seeder.HourIsItsBucket | services/analytics/internal/seeder/seeder.go:149-157 | a window of at most 106751 days is whole UTC hours, so an hour's events are counted in that hour's bucket |
| Seeder.OutageHoursAreEmpty | services/analytics/internal/seeder/seeder.go:209-214 | an hour whose midpoint lies in a zero-multiplier outage is generated empty |
| Seeder.BatchSizeDoesNotMatter | services/analytics/internal/seeder/seeder.go:132-135 | runs with any batch sizes agree on raw rows, counters and EventsWritten; they agree on every table if and only if they settle each item on the same payload, and all batchings agree if and only if the generated sequence meets the condition of CutsNeverMatterIff |
| Seeder.BatchSizeCanMatter | services/analytics/internal/seeder/seeder.go:216-225 | a one-hour plan whose two generated events end in different tables for two batch sizes |
| Seeder.InterruptedThenRerun | services/analytics/internal/seeder/seeder.go:117-123 | an interrupted run followed by a full run ends in the tables of the full run alone, and the two counts add up to its count |
| ReportJobs.FileNamesAreInjective | services/reports/src/main/kotlin/com/devopsdemo/reports/jobs/ArtifactStore.kt:25-35 | at most one job can own a file name |
| ReportJobs.FileNameIs | services/reports/src/main/kotlin/com/devopsdemo/reports/jobs/ArtifactStore.kt:25-35 | a file is named by its job's id and the format's own suffix |
| ReportJobs.ReportService.RunJob | services/reports/src/main/kotlin/com/devopsdemo/reports/jobs/ReportService.kt:115-166 | for every combination of faults, Errors and unacknowledged calls at any step included: when the row succeeds, when it stays open, exactly when the artifact is on the volume, what a succeeded row records, which error text a failed one records for an exception and for an interruption, and that nothing else changes |
| ReportJobs.ReportJobRepository.ReconcileOrphanedJobs | services/reports/src/main/kotlin/com/devopsdemo/reports/jobs/ReportJobRepository.kt:88-107 | afterwards no row is open, terminal rows are untouched, and the count is of the rows changed |
| ReportEngine.AdmissionIsAtomicWithShutdown | services/reports/src/main/kotlin/com/devopsdemo/reports/jobs/ReportService.kt:68-106 | over every interleaving, crashes included: no launch on a shut-down executor, no insert after admission stopped, inflight equals the running bodies and stays within the pool |
| ReportEngine.NothingIsAdmittedAfterTheStop | services/reports/src/main/kotlin/com/devopsdemo/reports/jobs/ReportService.kt:168-191 | from the step that stops admission to the next boot no row is inserted and no task launched, in every continuation of every run |
| ReportEngine.EveryLaunchIsQueued | services/reports/src/main/kotlin/com/devopsdemo/reports/jobs/ReportService.kt:68-106 | in every reachable state a launch finds the executor open and queues the task of the row just inserted |
| ReportEngine.OpenRowsHaveATask | services/reports/src/main/kotlin/com/devopsdemo/reports/jobs/ReportService.kt:168-191 | in every reachable state an open row is queued, running, being submitted, or left to nobody by a step of the run (an Error, a failure that could not be recorded, an insert that took effect but threw), or its task went with the forced stop, or it is an earlier instance's and the startup reconciliation is to come |
| ReportEngine.FinishedRowsAreTerminalIff | services/reports/src/main/kotlin/com/devopsdemo/reports/jobs/ReportService.kt:133-165 | a body that is over left a terminal row if and only if none of the steps that abandon a row was taken since the last crash and sweep |
| ReportEngine.ArtifactsAgreeWithRows | services/reports/src/main/kotlin/com/devopsdemo/reports/jobs/ReportService.kt:127-165 | in every reachable state, across crashes and restarts, the file of every job with no body at work exists if and only if its row succeeded with an acknowledgement or a step of the run left it (a partial write, an Error after the write, a failed delete, a crash while the file was at stake), with path and size recorded |
| ReportEngine.MarksAreReadOffTheLabels | services/reports/src/main/kotlin/com/devopsdemo/reports/jobs/ReportService.kt:127-165 | the three marks the engine keeps are exactly what the labels of the run say |
| ReportEngine.CleanRunsStrandNothing | services/reports/src/main/kotlin/com/devopsdemo/reports/jobs/ReportService.kt:127-165 | when no write is partial, no Error occurs, no success or insert goes unacknowledged, deletes and failure records take effect, and no crash falls on a file at stake, the file of every job with no body at work exists if and only if its row succeeded, every finished row is terminal, and until the forced stop every open row of a reconciled instance has a task, whatever else fails |
| ReportEngine.EarlierRowsAreTerminal | services/reports/src/main/kotlin/com/devopsdemo/reports/jobs/ReportService.kt:210-225 | once an instance has reconciled, no row of an earlier instance is open |
| ReportEngine.StatusMovesForward | services/reports/src/main/kotlin/com/devopsdemo/reports/domain/ReportEnums.kt:37-49 | across crashes and restarts a status moves along the state machine's edges only and a terminal one is final, unless the row was swept with a task to come or its success went unacknowledged |
| ReportEngine.PrematureHasACause | services/reports/src/main/kotlin/com/devopsdemo/reports/jobs/ReportService.kt:133-166 | a terminal row with a task to come comes about in those two ways only |
| ReportEngine.BodyMatchesRunJob | services/reports/src/main/kotlin/com/devopsdemo/reports/jobs/ReportService.kt:133-165 | the step-by-step body of the transition system ends as the sequential job does, for the same faults |
| ReportStartup.SweepIsFinalIff | services/reports/src/main/kotlin/com/devopsdemo/reports/jobs/ReportService.kt:210-225 | the startup sweep settles every row for good, whatever follows, if and only if no row has a task to come: none queued or about to be, no body before its catch branch, no catch branch about to fail a row that succeeded |
| ReportStartup.TooEarlyMoves | services/reports/src/main/kotlin/com/devopsdemo/reports/jobs/ReportService.kt:133-225 | each of the two ways in which a row becomes terminal too early can be followed by a run that moves its status |
| ReportStartup.StatusIsFinalIff | services/reports/src/main/kotlin/com/devopsdemo/reports/jobs/ReportService.kt:133-191 | in every reachable state a terminal status is final, through all that may follow, if and only if nothing is left to come for its row |
| ReportStartup.EarlySubmitRevivesAFailedJob | services/reports/src/main/kotlin/com/devopsdemo/reports/jobs/ReportService.kt:215-225 | a run in which a submit before the reconciliation makes a failed job go on |
| ReportStartup.FailedJobKeepsItsFile | services/reports/src/main/kotlin/com/devopsdemo/reports/jobs/ReportService.kt:139-161 | a run in which a partial write leaves the file of a failed job |
| ReportStartup.DeadJobStaysOpen | services/reports/src/main/kotlin/com/devopsdemo/reports/jobs/ReportService.kt:146-165 | a run in which an Error leaves a row running with no task |
| ReportStartup.LostAckFailsASucceededJob | services/reports/src/main/kotlin/com/devopsdemo/reports/jobs/ReportService.kt:139-161 | a run in which an unacknowledged success is recorded and then failed |
| ReportStartup.CrashStrandsAFile | services/reports/src/main/kotlin/com/devopsdemo/reports/jobs/ReportService.kt:137-142 | a run in which a crash between the write and its record leaves the file of a job that is then failed |
| Csv.Render | services/reports/src/main/kotlin/com/devopsdemo/reports/render/CsvReportRenderer.kt:15-51 | the parser reads the document back as exactly the summary, item and analytics records; no field read back begins with one of = + - @, tab or CR, and one that was printed from a field beginning with anything else, or from an empty one, is that field unchanged |
| Csv.CellsAreInert | services/reports/src/main/kotlin/com/devopsdemo/reports/render/CsvReportRenderer.kt:53-70 | a cell never begins with one of the six formula characters, and only a field that does gets an apostrophe |
| Csv.QuotedWhenNeeded | services/reports/src/main/kotlin/com/devopsdemo/reports/render/CsvReportRenderer.kt:62-66 | a cell is quoted exactly when it holds a comma, a quote, CR or LF |
| Csv.LinesRoundTrip | services/reports/src/main/kotlin/com/devopsdemo/reports/render/CsvReportRenderer.kt:48-67 | any records with at least one field survive printing and parsing, with commas, quotes, CR and LF in any field |
| Csv.OnlySeparatorsAreBlank | services/reports/src/main/kotlin/com/devopsdemo/reports/render/CsvReportRenderer.kt:24-31 | the two block separators are the only records of one empty field |
| Csv.ItemsReadBack | services/reports/src/main/kotlin/com/devopsdemo/reports/render/CsvReportRenderer.kt:26-30 | item i is read back with its number, negative ones behind an apostrophe, its neutralised name, and true or false as its flag says |
| Csv.SummaryReadsBack | services/reports/src/main/kotlin/com/devopsdemo/reports/render/CsvReportRenderer.kt:18-23 | the preamble is read back under its labels, with the three numbers, of which synthetic and real add up to the total and synthetic counts the flagged items |
| Csv.ItemHeaderReadsBack | services/reports/src/main/kotlin/com/devopsdemo/reports/render/CsvReportRenderer.kt:27 | the item table's header is read back |
| Csv.AnalyticsReadBack | services/reports/src/main/kotlin/com/devopsdemo/reports/render/CsvReportRenderer.kt:35-43 | each stat is read back with its type and its count in their columns, or, when degraded, the status row with the note or its default |
| Csv.Neutralize | services/reports/src/main/kotlin/com/devopsdemo/reports/render/CsvReportRenderer.kt:53-61 | no parsed field starts with a formula trigger |
| Csv.NeutralizeCollides | services/reports/src/main/kotlin/com/devopsdemo/reports/render/CsvReportRenderer.kt:60-61 | two fields become the same cell if and only if they are equal or one is the other behind an apostrophe that neutralising adds |
| LoadShape.HashParity | loadprofile/shape.js:18-29 | the masked BigInt hash equals the wrapping uint64 hash for every bucket, negative ones included |
| LoadShape.NoiseParity | services/analytics/internal/loadshape/loadshape.go:162-183 | both noise samples agree and lie in [-1, 1] |
| LoadShape.XorTwice | loadprofile/shape.js:18-29 | exclusive or undoes itself, so it loses nothing |
| LoadShape.HashIsInjective | services/analytics/internal/loadshape/loadshape.go:176-182 | no two 64-bit seeds share a hash: the shifted exclusive ors and the products with odd multipliers are all invertible |
| LoadShape.HashIsZeroOnce | services/analytics/internal/loadshape/loadshape.go:176-182 | a known value: the hash is zero for minus the increment and for no other seed |
| LoadShape.NoisePerMinute | services/analytics/internal/loadshape/loadshape.go:162-170 | every instant of a minute has that minute's sample |
| LoadShape.WeekdayIsEuclidean | services/analytics/internal/loadshape/loadshape.go:152-160 | the truncating remainders give (day + 3) mod 7 for every day number |
| LoadShape.HourOfDayInRange | services/analytics/internal/loadshape/loadshape.go:145-150 | the hour of day lies in [0, 24), before 1970 too |
| LoadShape.DayAndHour | services/analytics/internal/loadshape/loadshape.go:145-150 | day number and hour make up the time again |
| LoadShape.GoRate | services/analytics/internal/loadshape/loadshape.go:121-143 | the rate is the product of the six factors at profile time, never negative; what each factor does to it is stated by the lemmas below |
| LoadShape.JsRate | loadprofile/shape.js:95-123 | the second implementation, whose factors other than the noise sample are the same expressions and share one method here, gives the same rate, with scale 1 when omitted, and refuses a missing reference |
| LoadShape.PhaseHourIsThePeak | services/analytics/internal/loadshape/loadshape.go:124-128 | for an amplitude that is not negative and a wave greatest at zero, the rate at the phase hour is at least that of any instant whose other factors have the same non-negative product |
| LoadShape.TrendRises | services/analytics/internal/loadshape/loadshape.go:131-132 | a trend that is not negative never lowers the rate as days pass, with the other factors' product equal and non-negative |
| LoadShape.DaysSinceIs | services/analytics/internal/loadshape/loadshape.go:131 | the trend's days run from the reference, 86400 seconds each, and are negative before it |
| LoadShape.TrendScalesTheRate | services/analytics/internal/loadshape/loadshape.go:131-132 | the rate is 1 + pct * days times the rate without a trend at the same instant, as long as that factor is not negative |
| LoadShape.NoiseRaises | services/analytics/internal/loadshape/loadshape.go:134 | a greater noise sample never lowers the rate at one instant |
| LoadShape.SpikeMultiplies | services/analytics/internal/loadshape/loadshape.go:136-142 | inside its wall-clock window a spike or an outage multiplies the rate of the profile without it by its multiplier, wherever it is listed and whatever overlaps it |
| LoadShape.AnomalyContributes | services/analytics/internal/loadshape/loadshape.go:136-139 | every listed anomaly contributes exactly its own factor |
| LoadShape.WindowInvertsTheWarp | services/analytics/internal/loadshape/loadshape.go:185-205 | for every positive scale profile time is in an anomaly's window exactly when wall-clock time is in its real window |
| LoadShape.QuietOutsideAllWindows | services/analytics/internal/loadshape/loadshape.go:207-215 | outside all real windows the anomalies multiply to 1 |
| LoadShape.OutageIsSilent | services/analytics/internal/loadshape/loadshape.go:136-142 | the rate is 0 throughout the real window of a zero-multiplier outage |
| LoadShape.DegradationEnds | services/analytics/internal/loadshape/loadshape.go:219-225 | a degradation starts at factor 1, unless it has no length, and ends at its multiplier |
| LoadShape.DegradationRamps | services/analytics/internal/loadshape/loadshape.go:219-225 | throughout its window the factor moves one way and stays between 1 and the multiplier, for any length |
| Schedule.BuildStages | loadgen/lib/schedule.js:33-51 | as many stages as the ceiling of total over step, positive durations that sum to the total, each stage starting at the offset it was sampled at, every target at least the minimum, for any modulation |
| Schedule.TargetIsNearest | loadgen/lib/schedule.js:38-44 | a target above the minimum is within one half of the rate times the weight, or of what the modulation makes of it, at the instant where its stage begins, and a half goes up; at the minimum the sample was below it by rounding |
| Schedule.StepsBracketTheTotal | loadgen/lib/schedule.js:33 | the number of steps is the least whose length covers the total, and one when the total is not positive |

## Left out

- IngestProtocol.ConnectedMeansInSync: nothing is claimed between an overflow and the next cycle, when the queue takes no event any more.
- IngestProtocol.CycleRecovers: seeded history written while the client is connected is not a step of the protocol, although a seeded deletion newer than a live row would tombstone it.
- ReportJobs.ReportService.RunJob: timestamps and request parameters are not modelled; what an exception's message says is a parameter.
- Store.AnalyticsStore.IngestEventsBatch: the unnest and WITH clauses are modelled as the statements they combine; a commit whose acknowledgement is lost is not modelled for a batch, but BatchIngest.BatchRetryIsNoOp shows that sending it again is harmless.
- Broadcaster.WatchStream.Next: waiting on an empty queue is the caller's obligation to call again, not a blocked step.
- Seeder.Run: floating-point rounding of offsets; the conversion of a real offset to nanoseconds is a floor.
- Database plumbing: pools, drivers, migrations, the seed marker, the 24-hour statistics and other plain reads.
- gRPC and HTTP transport, tracing, logging, metrics other than the inflight gauge, and health endpoints.
- Path normalisation in the artifact download guard, which only reads.
- PDF and XLSX rendering, the report model builder's upstream calls, and UTF-8 encoding of the CSV text.
- Profile parsing, apart from the requirement of seven weekday coefficients.
- The frontends, the canary, the k6 scenarios, the scale guard, Grafana annotations, and deployment files.
- Rounding of floating-point numbers, values of the cosine, and the pseudo-random generator's stream.
