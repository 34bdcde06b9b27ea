# Evidra: a verified model of the evidence pipeline

Evidra polls Argo CD, stores what it sees as append-only events, pages through them, and projects them into
changes. This project models that pipeline in Dafny and proves what its documentation relies on: evidence is
not lost or duplicated by crashes and restarts, paging returns every row once, a change summary says what its
events say, and cached answers are neither wrong nor too old.

`dafny verify dfyconfig.toml` checks everything. One module per file:

| module | what it models |
|---|---|
| `Text`, `Clock` | trimming, case folding, string order, decimals; Unix seconds and 64-bit nanoseconds |
| `Keyset` | ordering by (time, ID), sorting, one page, following a cursor over quiet and growing rows |
| `CloudEvents`, `Store` | stored events and their hash; ingestion, batch posting, the timeline query |
| `Collector`, `CatchUp` | per-application cursors, one poll; what cursors guarantee along a run |
| `Repoll` | polling a batch again: cursors, what can still be stored |
| `Recovery`, `Isolation` | crashes at any point, against the uninterrupted run; independence of applications |
| `SourceEvents`, `Normalize`, `Pipeline` | snapshots to source events to stored events; whole clusters |
| `Incidents`, `Reread` | clusters that lose or repeat an entry; reading one entry from two snapshots |
| `Projection`, `Changes`, `ChangeList` | the accumulate-and-finalise loops, their guarantees, the change list |
| `ChangeIdentity` | which change a polled Argo event ends up in, across extraction, normalisation and projection |
| `Subjects`, `QueryCache`, `CacheRuns`, `Service` | request subjects, cache keys, interleaved and whole-request runs, the service object |
| `Export`, `EndToEnd`, `Outcomes` | evidence packs; what a polled store shows its users; what becomes of an operation's phase |
| `Evidence` | what one poll leaves on record of the snapshots it is shown |
| `Attempts`, `Ledger` | a cluster that changes between any two attempts, any failures: what is on record |
| `RateLimit` | the fixed-window limiter |

Conventions. An instant is an integer: nanoseconds since Go's zero time, so 0 is "not set". Clocks are
parameters. The integrity hash and the cache key are modelled by what is hashed, that is, as free of
collisions; the hash in change IDs is an arbitrary function. A cursor is blank, an encoded (time, ID), or
malformed. `sort.Slice` is modelled by its promise, a sorted permutation, and Go's map order by an arbitrary
choice. The normalise function of the collector is an arbitrary one in `Collector`, `CatchUp`, `Repoll`, `Recovery`
and `Isolation`; a collector without one behaves like one whose function always fails.

## What the proofs found

- The collector does what it is for, with one exception. Whatever clusters its attempts see and wherever fetching,
  saving or the process fails, every operation that an attempt worked through was shown is on record, or, if it has
  finished, a history entry without a positive ID that has its revision and instant
  (`Ledger.EveryOperationIsOnRecord`); for applications whose entries all have positive IDs it is the operation
  itself (`Ledger.NumberedOperationIsOnRecord`). As long as history IDs count up and dropped entries stay away,
  entries with an ID are on record too, or left to such an operation (`Ledger.EveryEntryIsOnRecord`); of those without
  one, something with the same key is (`Ledger.EveryEntryWithoutIDIsOnRecord`).
- The exception loses a finish event, which `docs/architecture/argo-ingest-logic.md:38` calls the primary completion
  signal, without any failure: the entry of an application's first deployment, which has ID 0, takes the key of the
  operation while it runs (`Incidents.FinishCanBeLost`). In one poll an operation stays off record exactly when its
  turn finds its own key in the cursor and its ID unknown to the store (`Evidence.OffRecordIff`).
- What is shown of operations is what they came to: a change of a polled store, and the evidence pack of an answer, has
  failed exactly when one of its rows reports an operation whose phase is Failed or Error, and has succeeded exactly
  when none does and a row reports one whose phase is Succeeded (`Outcomes.ResultsReportPhases`).
- A failed history entry is lost for good once a later entry of its application succeeds, and only then
  (`CatchUp.FailureRetriedIff`; told from before the poll, `CatchUp.TriedAgainIff`). With the installed
  normaliser this happens when the entry's ID is taken (`Incidents.TakenEntryIsLostIff`, instance
  `Incidents.EntryCanBeLost`), and an entry read from two snapshots takes its own ID when the snapshots differ
  in more than the entry (`Reread.RereadIsConflictIff`).
- `docs/architecture/argo-ingest-logic.md:50` says the checkpoint prevents duplicate writes. An event is let
  through again exactly when the last one collected in its cursor slot left another key
  (`Repoll.LetThroughAgainIff`); in a snapshot these are history entries whose ID is not positive, next to a
  finished operation (`Incidents.EntryRepeatsIff`). The store mostly recognises them: whatever the batch, a
  second poll leaves the cursors alone and can store only what the first skipped (`Repoll.RepollKeepsCursors`,
  `Repoll.RepollStoresIff`), and a third stores nothing (`Repoll.ThirdPollIsFree`). But there are clusters
  whose second poll does store something (`Incidents.UnchangedClusterCanGrow`).
- A polled health event never joins the change of any event with an operation key, because it carries none
  (`ChangeIdentity.HealthStaysApart`). The start and the finish of one operation share a change exactly when
  the application shows the same sync revision in both snapshots: the key is made of that field, not of the
  operation's own revision (`ChangeIdentity.OneOperationOneChangeIff`, instance
  `ChangeIdentity.OperationCanBeSplit`).
- The fallback at `internal/ingest/argo/client_fetch_argocd.go:347-349` is never of use: when the revision it
  replaces is blank, so is the one it falls back to (`SourceEvents.SuppressionReach` holds without it).
- Re-sending a request body that has no `time` conflicts with its first delivery (`Store.RetryOfBody`).
- Cached answers are right in all runs exactly when no two of the queries asked share a key and differ on some
  store (`CacheRuns.AnswersRightIff`). Pipe-free subjects with instants from 1677 to 2262 never do
  (`CacheRuns.CacheIsCoherent`). Within one window and text, the subject of a request shares its key with that of
  another exactly when a `|` stands in its application, in its environment, or in its cluster before the first
  colon (`QueryCache.SubjectKeySharedIff`): behind a colon no other request can respell it. If its parts are
  specific, the two also differ on some store (`CacheRuns.SubjectClashesIff`), and the later one is served the
  earlier one's events (`CacheRuns.SharedKeyServesWrongAnswer`). Across windows a `|` at the end of the cluster
  can do it too (`QueryCache.WindowInCluster`), as can windows 2^64 ns apart (`Clock.UnixNanoCollides`).
- The purge does not reach a request that has read the store but not yet filled the cache: its outdated
  answer is served afterwards (`CacheRuns.LateFillServesOldAnswer`), and once every write has been purged
  nothing else makes an answer outdated (`CacheRuns.OutdatedIff`). Staleness is still bounded by the cache
  lifetime plus that request's delay (`CacheRuns.BoundedStaleness`).

## Model

| member | source | states |
|---|---|---|
| `Collector.RejectedOnceAdvanced` | internal/ingest/argo/collector.go:383-429 | an event of any of the four known types is turned away right after its own advance, whatever the cursor was |
| `Collector.ArgoCollector.LoadCheckpoint` | internal/ingest/argo/collector.go:328-345 | once per collector: the saved cursors replace those in memory, no file empties them, and an unreadable file leaves them as they are |
| `Collector.RestartBetweenPolls` | internal/ingest/argo/checkpoint.go:32-67 | stopping after a poll and starting a new collector over the same file ends like two polls in a row |
| `Collector.ArgoCollector.AdvanceCheckpoint` | internal/ingest/argo/collector.go:370-429 | only the event's own application moves, and as the specification says: maxima for history, the trimmed key or health otherwise |
| `Collector.ArgoCollector.PollOnce` | internal/ingest/argo/collector.go:129-159 | the loop ends with the cursors and store of the specified run, saves those cursors, keeps every stored row, and changes nothing if nothing was collected |
| `Collector.CursorIsUnder` | internal/ingest/argo/collector.go:447-452 | an event is compared with the cursor kept under its trimmed application UID, or name without one, and with zeros and empty keys if there is none |
| `Collector.ProcessedIff` | internal/ingest/argo/collector.go:350-408 | for every cursor and event: a positive history ID is let through above the last one, or at it with a later time; otherwise, by trimmed type, a key or health other than the one last seen in that slot, nothing without type or ID, and everything of a type unknown |
| `Collector.AdvancedTo` | internal/ingest/argo/collector.go:370-429 | all five fields of a cursor after an advance, by type, as maxima or the trimmed key or health, and all others unchanged |
| `CatchUp.StepHistory` | internal/ingest/argo/collector.go:350-381 | the history cursor moves only for collected history of its application, and then to exactly the ID collected |
| `CatchUp.RunningMaximum` | internal/ingest/argo/collector.go:350-381 | between any two points of a run, last history ID and time never decrease, bound all history collected in between, and are attained by it or unchanged |
| `CatchUp.CollectedForGood` | internal/ingest/argo/collector.go:350-408 | history collected once is turned away in every later state of the run |
| `CatchUp.AttemptedIffAbove` | internal/ingest/argo/collector.go:129-158 | with increasing IDs per application, a poll attempts exactly the history above the cursor it started from, whatever failed before |
| `CatchUp.FailureFreeCatchUp` | internal/ingest/argo/collector.go:129-158 | without failures every history event above the starting cursor is stored, and the cursor ends at the maximum of its old value and the IDs seen |
| `CatchUp.FailureRetriedIff` | internal/ingest/argo/collector.go:140-157 | a failed history event is let through again after the poll exactly when no later history event of its application was collected |
| `CatchUp.CollectedIff` | internal/ingest/argo/collector.go:129-158 | with distinct stored IDs, a poll collects exactly the history above its starting cursor that the store takes as it is before the poll |
| `CatchUp.TriedAgainIff` | internal/ingest/argo/collector.go:140-157 | a history event above the starting cursor is let through again after the poll exactly when the store, as it is before, takes neither it nor any later one of its application |
| `Repoll.LetThroughAgainIff` | internal/ingest/argo/collector.go:361-407 | a collected event of a keyed slot is let through again after the poll exactly when the last one collected in the slot left a different key |
| `Repoll.RepollKeepsCursors` | internal/ingest/argo/collector.go:129-159 | for every batch, normaliser, failures and clock a second poll of the same batch ends with every cursor where the first left it |
| `Repoll.OnlySecondAttempts` | internal/ingest/argo/collector.go:361-407 | an event only the second poll attempts had its key in the starting cursors, and a later event of its slot displaced it |
| `Repoll.RepollStoresIff` | internal/ingest/argo/collector.go:129-159 | told from the first poll alone: a second one changes the store exactly when some event was skipped, is unknown to the store and unlike what its slot ended with, and before it nothing of the slot was collected, or skipped and would now be taken |
| `Repoll.RepollWritesIff` | internal/ingest/argo/collector.go:129-159 | a second poll changes the store exactly when it attempts an event that the first skipped and the store does not know |
| `Repoll.NewRowsWereSkipped` | internal/ingest/argo/collector.go:129-159 | every row the second poll adds is that of one event the first poll skipped |
| `Repoll.UnchangedBatchIsQuiet` | internal/ingest/argo/collector.go:129-159 | if the store knows the events whose key the starting cursors held and gave away, a second poll changes nothing |
| `Repoll.SecondPollAfterFreshStart` | internal/ingest/argo/collector.go:129-159 | the poll after a first poll from empty cursors changes nothing, for every batch |
| `Repoll.ThirdPollIsFree` | internal/ingest/argo/collector.go:129-159 | from any cursors, a third poll of the same batch changes no cursor and no row |
| `Recovery.IngestSameContent` | internal/store/store.go:99-114 | ingestion times influence neither outcomes nor anything else that is stored |
| `Recovery.PollIgnoresClock` | internal/ingest/argo/collector.go:130-158 | polls of the same batch at different times end with the same cursors and the same content |
| `Recovery.ReplayOne` | internal/ingest/argo/collector.go:129-158 | handling an event again on a store that already went further repeats its effect on the cursors and writes nothing |
| `Recovery.CrashRecovery` | internal/ingest/argo/collector.go:129-159 | in every state reachable with crashes at any point, also between write and advance, saved and current cursors are those of the crash-free run and the store is that of the same or a later position |
| `Recovery.EveryPollEndsAsIfUninterrupted` | internal/ingest/argo/collector.go:328-445 | whenever a batch has been worked through, cursors and store equal those of the uninterrupted polls; in between the content of the store extends that of one of their ends and is extended by that of the next |
| `Isolation.PollProjects` | internal/ingest/argo/collector.go:383-452 | a poll agrees with polling one application's events alone on that application's cursor and rows |
| `Isolation.InterleavingIrrelevant` | internal/ingest/argo/collector.go:130-158 | two interleavings of the same per-application sequences leave the same cursors and the same store |
| `SourceEvents.MostRecentTime` | internal/ingest/argo/client_fetch_argocd.go:294-322 | the latest known instant of the snapshot, or the clock if none is known |
| `SourceEvents.ToSourceEvents` | internal/ingest/argo/client_fetch_argocd.go:72-211 | the loop and switches produce the specified events, in order |
| `SourceEvents.EventOrigins` | internal/ingest/argo/client_fetch_argocd.go:87-210 | the events are exactly the history entries outside the terminal operation's window, in history order, then at most one operation and one health event |
| `SourceEvents.SuppressionReach` | internal/ingest/argo/client_fetch_argocd.go:331-367 | for every snapshot and entry: suppressed exactly when a finished operation shares its revision (the first of several, a blank entry counting as that) and its date, from whichever field, is within the operation give or take two minutes, or the operation has no start |
| `SourceEvents.UndatedEntry` | internal/ingest/argo/client_fetch_argocd.go:284-322 | an entry without dates is suppressed exactly when nothing the snapshot dates is two minutes younger than the operation's end |
| `SourceEvents.RecordedSays` | internal/ingest/argo/client_fetch_argocd.go:87-122 | a recorded entry in full: type, result "Recorded", history ID, revision, which date it takes, actor, operation key, event ID and payload, by literals and the fields of entry and application |
| `SourceEvents.OperationSays` | internal/ingest/argo/client_fetch_argocd.go:124-186 | when an operation is reported, as started or finished, and the event in full: its result and operation_phase are "Running", "Terminating", "Succeeded", "Failed" or "Error" for exactly those phases |
| `SourceEvents.HealthSays` | internal/ingest/argo/client_fetch_argocd.go:187-209 | a health event exists exactly for a status that is not blank, and all that is in it |
| `SourceEvents.RevisionIs` | internal/ingest/argo/client_fetch_argocd.go:74-77 | the sync revision, or the first of several without one |
| `SourceEvents.ActorIs` | internal/ingest/argo/client_fetch_argocd.go:235-245 | the user of the operation, else its automation, else Argo CD itself |
| `SourceEvents.AnnotationsAre` | internal/ingest/argo/client_fetch_argocd.go:213-233 | the four annotations that are passed on, trimmed, those left blank dropped |
| `SourceEvents.MostRecentIs` | internal/ingest/argo/client_fetch_argocd.go:294-322 | the latest positive one of the snapshot's five dates, or the clock |
| `Pipeline.HistoryTailsDiffer` | internal/ingest/argo/client_fetch_argocd.go:247-253 | different non-negative history IDs never yield the same ID text, whatever revision and time |
| `Pipeline.SnapshotIDsDistinct` | internal/ingest/argo/client_fetch_argocd.go:247-261 | all event IDs of a snapshot are pairwise distinct when its history IDs are distinct and not negative |
| `Pipeline.SnapshotIsRegular` | internal/ingest/argo/client_fetch_argocd.go:72-211 | a snapshot's history comes in ID order if its entries do, and only entries without a positive ID share a slot with a later event |
| `Pipeline.FetchIsRegular` | internal/ingest/argo/client_fetch_argocd.go:41-49 | so do whole fetched batches of applications with UIDs of their own |
| `Pipeline.FetchIsDisjoint` | internal/ingest/argo/client_fetch_argocd.go:247-261 | applications with distinct colon-free UIDs never produce the same stored ID, whatever their histories |
| `Pipeline.FetchIDsDistinct` | internal/ingest/argo/client_fetch_argocd.go:247-261 | no two events of a fetched batch are stored under one ID, if history IDs are distinct and not negative |
| `Pipeline.FetchIgnoresClock` | internal/ingest/argo/client_fetch_argocd.go:284-322 | snapshots that know when they were reconciled give the same events whenever they are read |
| `Pipeline.UnchangedClusterIsQuiet` | internal/ingest/argo/collector.go:129-159 | polling an unchanged cluster again moves no cursor, and writes nothing if history IDs are positive or the store knows the entries without one whose key the cursors held |
| `Pipeline.ListingOrderIrrelevant` | internal/ingest/argo/client_fetch_argocd.go:41-49 | the order in which Argo lists applications does not affect cursors or store |
| `Incidents.TakenEntryIsLost` | internal/ingest/argo/collector.go:140-157 | an entry whose stored ID is taken is refused and, once a later entry of its application is collected, never tried again |
| `Incidents.TakenEntryIsLostIff` | internal/ingest/argo/collector.go:140-157 | told from before the poll: an entry whose ID is taken is lost for good exactly when the store takes a later entry of its application |
| `Incidents.EntryCanBeLost` | internal/ingest/argo/collector.go:140-157 | with the installed normaliser and a sound store holding another event under its ID, entry 1 of every two-entry application is lost this way |
| `Incidents.EntryRepeatsIff` | internal/ingest/argo/client_fetch_argocd.go:277-282 | a collected entry without a positive ID is let through again exactly when its key is not that of the collected finished operation |
| `Incidents.UnchangedClusterCanGrow` | internal/ingest/argo/collector.go:129-159 | from nothing, three polls of a cluster that is unchanged since the second, the third of which stores an event |
| `Incidents.FinishCanBeLost` | internal/ingest/argo/client_fetch_argocd.go:277-282 | a first deployment polled while it runs and once it is done: the second poll changes nothing and the finish event is never stored, without any failure |
| `Reread.SameContentIff` | internal/ingest/argo/normalize.go:11-100 | two readings with one event ID get the same hash exactly when history ID, name, destination, actor, annotations, revision and instant agree |
| `Reread.RereadIsConflictIff` | internal/store/store.go:99-108 | the second reading of a stored entry is a duplicate if they agree and otherwise a conflict, in every later store |
| `Normalize.BuildExtensions` | internal/ingest/argo/normalize.go:36-79 | the conditional assignments add each extension exactly when it says something |
| `Normalize.NormalizedIsStorable` | internal/ingest/argo/normalize.go:11-100 | a normalised event is valid to the store, leaves its hash to it, and keeps different source IDs different |
| `Normalize.NormalizedSays` | internal/ingest/argo/normalize.go:11-14 | when an event normalises, and ID, source, type, subject and time of what it becomes |
| `Normalize.ExtensionsSay` | internal/ingest/argo/normalize.go:29-53 | what is found under any key of the extensions: nine keys are there when there is something to say, any other is one of the five written first or absent |
| `Normalize.BaseSays` | internal/ingest/argo/normalize.go:15-41 | those five, each with its own field and its own fallback |
| `Normalize.DataSays` | internal/ingest/argo/normalize.go:55-86 | what is found under any member of the data |
| `ChangeIdentity.ArgoReference` | internal/app/changes.go:446-459 | the reference of a stored Argo event is its operation key, and empty without one, whatever else it carries |
| `ChangeIdentity.ArgoIdentity` | internal/app/changes.go:446-486 | the text a stored Argo event's change ID is hashed from: subject, "argo", and its key or else its revision and second |
| `ChangeIdentity.SameTailSameChange` | internal/app/changes.go:446-459 | stored events of one application and destination belong to one change exactly when that last part agrees |
| `ChangeIdentity.SameChangeIff` | internal/ingest/argo/client_fetch_argocd.go:247-282 | two events of one application from any two snapshots belong to one change exactly when they have the same key or are health events of the same revision and second, if hashes do not collide |
| `ChangeIdentity.HealthStaysApart` | internal/ingest/argo/client_fetch_argocd.go:183-209 | a health event and an event with an operation key, of any two snapshots, belong to different changes, if hashes do not collide |
| `ChangeIdentity.OneOperationOneChangeIff` | internal/ingest/argo/client_fetch_argocd.go:124-180 | start and finish of an operation, seen in different snapshots, belong to one change exactly when the sync revisions agree, blank counting as "unknown" |
| `ChangeIdentity.OperationCanBeSplit` | internal/ingest/argo/client_fetch_argocd.go:134-134 | an operation during which the sync revision moves is shown as two changes |
| `CloudEvents.ParseEvent` | internal/cloudevents/ingest.go:66-116 | a body parses exactly when its required members are present; the event then has the body's own ID, source, type, subject, extensions and data, its time or the clock, no ingestion time, and the hash of all that |
| `CloudEvents.HashesAgreeIff` | internal/cloudevents/canonical.go:25-51 | two events hash alike exactly when ID, source, type, subject, time, data and the encoded extensions agree; ingestion time and old hash do not matter |
| `CloudEvents.ExtensionStringIs` | internal/cloudevents/ingest.go:119-134 | the trimmed text under the key, empty if there is none or it is no text |
| `CloudEvents.ExtensionBoolIff` | internal/cloudevents/ingest.go:136-158 | set exactly by true, a decoded number other than zero, and "true", "1" or "yes" in any case with blanks around |
| `Store.MemoryRepository.IngestEvent` | internal/store/store.go:86-115 | the new store is the specified one, extends the old one, holds the event's hash if the answer is good, and is unchanged unless the answer is accepted |
| `Store.IngestKeeps` | internal/store/store.go:86-115 | one write keeps rows, keys, and hashes that match their content |
| `Store.AppendOnlyRun` | internal/store/store.go:86-115 | over every run of writes no stored row is lost or altered, rows stay keyed by their ID, and hashes stay verifiable while writers are honest |
| `Store.IngestAgain` | internal/store/store.go:103-108 | every later store answers a write as before, "accepted" having become "duplicate", and stays unchanged |
| `Store.RepostIsIdempotent` | internal/api/handlers_events.go:76-117 | re-posting a batch at any later time changes nothing and stops at the same event with the same outcome |
| `Store.RetryOfBody` | internal/cloudevents/validate.go:22-24 | re-sending a body is a duplicate exactly when it carries a time or the clock stands still, else a conflict |
| `Store.MemoryRepository.QueryTimeline` | internal/store/store.go:127-191 | whatever order the map is read in, the answer is the page of matching rows after the cursor, or the cursor error |
| `Store.TruncateFetched` | internal/store/sql.go:171-203 | truncating limit + 1 fetched rows gives the same items and cursor as listing everything |
| `Store.BrowseIsFollow` | internal/store/store.go:181-190 | the cursor text handed out leads back to the row it was made from, request after request |
| `Store.BrowseUnderIngestion` | internal/store/store.go:127-191 | following cursors while events arrive: strictly increasing, all stored and matching, and complete for what the first request could see once no cursor is left |
| `Store.BrowseQuiet` | internal/store/store.go:127-191 | on a quiet store the pages concatenate to the sorted matching events in the least number of requests, for every limit |
| `Store.AnswerMeans` | internal/store/store.go:86-115 | for every store and event the outcome, by ID, hash and members, and the row written, member for member |
| `Store.PostedIsFound` | internal/cloudevents/ingest.go:66-116 | an accepted body is found in every later store under its own ID with its own source, type, subject, extensions, data and time; one recognised as a duplicate agrees with what was there |
| `Store.PostMeans` | internal/api/handlers_events.go:76-112 | a batch is written in order up to the first event that is invalid or in conflict, whose outcome is reported |
| `Store.ReturnedIff` | internal/store/store.go:142-176 | on a quiet store a client that follows the cursors is returned a row exactly when it meets both inclusive bounds, the subject, under one its cluster and namespace, source, type and correlation, and supporting observations are wanted or it is none |
| `Store.PageMeans` | internal/store/store.go:127-191 | one page: order, limit with 50 and 500, only rows after the cursor, and a next cursor exactly when rows follow, to the last row returned |
| `Keyset.ListingUnique` | internal/store/store.go:317-324 | sorting by (time, ID) has one outcome for a set of rows, whatever order they came in |
| `Keyset.LimitPlusOne` | internal/store/sql.go:175-203 | limit + 1 rows decide items, has-more and cursor |
| `Keyset.PageFacts` | internal/store/store.go:173-189 | a page holds only rows past the cursor, and every such row is on it or beyond the next cursor |
| `Keyset.FollowGrowing` | internal/store/store.go:173-190 | paging over growing rows is increasing, sound, and complete up to the open cursor |
| `Keyset.FollowQuiet` | internal/store/store.go:173-190 | paging over fixed rows returns the listing in exactly the least number of pages |
| `Projection.SummaryStep` | internal/app/changes.go:348-386 | one more event changes the per-group summary exactly as the loop body changes the open change |
| `Projection.FirstNonEmptyIsFirst` | internal/app/changes.go:349-376 | correlation fields, project, cluster, namespace and initiator are the first non-empty values in input order |
| `Projection.AccumulateAll` | internal/app/changes.go:319-387 | the open changes are the groups read so far, each with its summary |
| `Projection.EndHealthIsLastKnown` | internal/app/changes.go:425-436 | among time-sorted events the health at completion is unknown or the last known health, so the fallback coincides with it |
| `Projection.FinalizeChange` | internal/app/changes.go:396-444 | the four-variable loop computes last known health at the start and overall and the first degradation over the sorted events |
| `Projection.LastKnownMeans` | internal/app/changes.go:417-433 | last known health is that of the last event with known health in the span, or unknown if there is none |
| `Projection.FirstDegradedMeans` | internal/app/changes.go:428-431 | the first degradation is the least instant after the start with a degraded event, or absent |
| `Projection.BuildChangesByID` | internal/app/changes.go:319-392 | one finished change for each group and nothing else, each described by its own group alone |
| `Projection.MergedResultMeans` | internal/app/changes.go:642-650 | failed if any event failed, unknown only if all are |
| `Projection.MergedHealthMeans` | internal/app/changes.go:671-685 | degraded if any is, else progressing if any is, else the first known, else unknown |
| `Projection.ResultIs` | internal/app/changes.go:621-640 | failed exactly when type and status mention "fail", "error", "degrad" or "abort", else succeeded exactly when they mention "success", "succeed", "healthy" or "complete" |
| `Projection.HealthIs` | internal/app/changes.go:652-669 | each health exactly for its own word, in any case, under health_status, or under health without that, and unknown exactly for no such word |
| `Projection.StatusIsFirst` | internal/app/changes.go:621-634 | the status is the first that says something of the data members status, result, phase and outcome |
| `Projection.ProviderIs` | internal/app/changes.go:461-486 | the provider by the event's texts: observations of Argo operations, an explicit provider, the known sources, the source itself |
| `Projection.ReferenceIsFirst` | internal/app/changes.go:452-453 | reference and revision are the first of these extensions that say something |
| `Projection.ChangeIDIs` | internal/app/changes.go:446-459 | what is hashed into a change's ID with a reference and without one |
| `Projection.CorrelationsAre` | internal/app/changes.go:523-552 | external change, ticket and approval reference: the extension, or the annotation Argo passed on |
| `Changes.GroupsPartition` | internal/app/changes.go:319-392 | laid out in any order the changes hold every event exactly once, and their event counts add up |
| `Changes.BoundsAgree` | internal/app/changes.go:377-407 | the running minimum and maximum equal the first and last instants after sorting |
| `Changes.DescribesUnique` | internal/app/changes.go:396-444 | with distinct event IDs the finished change is a function of its group |
| `Changes.HealthAfterIsLastKnown` | internal/app/changes.go:425-438 | health after the deployment is the last known health overall |
| `Changes.HealthAtStartIsLastKnown` | internal/app/changes.go:422-437 | health at the start is the last known health at the earliest instant |
| `Changes.FirstTimestampIsLeast` | internal/app/changes.go:428-442 | the first timestamp is the least instant strictly after the start at which an event is degraded, absent if none |
| `Changes.ObservedIsDegraded` | internal/app/changes.go:439-442 | an observed degradation means the change's health is degraded, at an instant within the change |
| `Changes.StatusIgnoresOrder` | internal/app/changes.go:642-685 | result, degraded, progressing and unknown do not depend on the order of events |
| `Changes.StatusOnlyGrows` | internal/app/changes.go:642-685 | more events never lower either status, and the result is at least every event's own |
| `Changes.ChangeNames` | internal/app/changes.go:319-395 | identity, provider, reference and revision are the first event's; every other name is that of the first event that has one |
| `Changes.ChangeBounds` | internal/app/changes.go:396-413 | first and last instants, counts, approvals, and five minutes during which evidence may be incomplete |
| `Changes.ChangeStatus` | internal/app/changes.go:621-685 | for every finished change: failed exactly when an event of it mentions a failure, succeeded exactly when none does and one mentions success; degraded exactly when an event says "degraded", progressing exactly when none does and one says "progressing" |
| `Changes.ChangeHealth` | internal/app/changes.go:414-438 | the health at start and after the deployment is the word of the last event with a known one, up to the earliest instant and overall |
| `Changes.ChangeDegradation` | internal/app/changes.go:428-442 | a degradation is observed exactly when the word at the start is "healthy" and a later event says "degraded", and its timestamp is the first such instant |
| `ChangeList.BuildChanges` | internal/app/changes.go:304-317 | the one listing of the map's changes, completed-at descending then ID ascending, whatever the map order |
| `ChangeList.FilterChanges` | internal/app/changes.go:687-732 | exactly the changes that pass the filters, order kept |
| `ChangeList.ApplyChangeCursor` | internal/app/changes.go:765-773 | exactly the changes after the cursor in list order |
| `ChangeList.ListChanges` | internal/app/changes.go:118-152 | the page of filtered changes after the cursor, or the cursor error |
| `ChangeList.CursorReturns` | internal/app/changes.go:734-763 | a page's cursor decodes to the key it was made from |
| `ChangeList.BuiltIsPageable` | internal/app/changes.go:446-459 | changes built from stored events have a completion instant and an ID a cursor accepts |
| `ChangeList.BrowseChangesComplete` | internal/app/changes.go:132-150 | following cursors returns the filtered changes once each, in order, in the least number of requests |
| `ChangeList.ShownIff` | internal/app/changes.go:687-732 | for every query and set of built changes: a change is listed exactly when result and health are the words asked for, the set and unset states hold, the IDs are those asked for in any case, and approvals are there or not as asked |
| `ChangeList.ChangesPageMeans` | internal/app/changes.go:118-152 | one page of them: newest first and by ID, limit with 100 and 500, only changes after the cursor, the next cursor exactly when changes follow, errors exactly for unreadable cursors |
| `Clock.UnixNanoCollides` | internal/app/changes.go:229 | two instants render alike exactly when a multiple of 2^64 ns apart |
| `Clock.UnixMeans` | internal/ingest/argo/client_fetch_argocd.go:263-275 | Unix seconds round down, and 64-bit nanoseconds are exact precisely for the representable instants |
| `QueryCache.KeyInjective` | internal/app/changes.go:226-233 | for pipe-free subjects and representable instants the key determines the query |
| `Subjects.SplitN` | internal/app/service.go:212-223 | the scan cuts at the first n - 1 separators and nowhere else |
| `Subjects.ParseSubject` | internal/app/service.go:200-210 | the three fields of the text, or the error if there are fewer |
| `Subjects.ParsedIff` | internal/app/service.go:200-210 | parsing gives a subject exactly for its written form, if application and environment hold no colon |
| `Subjects.ReceivableIff` | internal/api/handlers_changes.go:130-137 | the subjects some request parameter yields: colon-free application and environment, no blanks at either end |
| `QueryCache.SubjectKeySharedIff` | internal/app/changes.go:227-230 | the subject of a request shares its key with that of another exactly when a pipe stands in its application, its environment, or its cluster before the first colon |
| `QueryCache.WindowInCluster` | internal/app/changes.go:226-233 | a cluster that ends like a window and a text that begins with one give two requests one key |
| `QueryCache.FreshRows` | internal/app/changes.go:249-266 | without a text the uncached answer is the rows in the window and of the subject, supporting observations included, by time and ID; a row is left out only after 500 earlier ones |
| `QueryCache.FreshWithText` | internal/app/changes.go:272-302 | with one it is those of these rows, in order, that have it in their ID, source, type, subject, data or a text extension, in any case |
| `CacheRuns.NextKeepsInv` | internal/app/changes.go:243-269 | every step of interleaved requests, for any queries, keeps each cached or pending answer genuine for the query and version it was read for |
| `CacheRuns.BoundedStaleness` | internal/app/service.go:31-37 | whatever interleaves, a cached answer is the uncached one, to a query with this key and to this query unless the two clash, on a version current no longer ago than the lifetime plus its reader's delay |
| `CacheRuns.LateFillServesOldAnswer` | internal/app/changes.go:252-268 | a fill after a write and its purge serves an outdated answer, for every write that changes the answer |
| `CacheRuns.OutdatedIff` | internal/app/changes.go:243-269 | however steps interleave, once every write has been purged a served answer is outdated exactly when a thread between read and fill at the last purge had read it from a version that answers otherwise |
| `CacheRuns.AnswersAreRecent` | internal/bootstrap/runtime.go:258-271 | with the collector writing directly and whole requests, every answer is right, for this query unless it clashes with the one cached, on a version no service write superseded and current within ten seconds |
| `CacheRuns.AnswersAreCurrent` | internal/app/service.go:39-56 | when all writes go through the service and no two queries asked clash, every answer equals the uncached one on the current store, with any evictions and expiries |
| `CacheRuns.CacheIsCoherent` | internal/app/service.go:39-56 | in every run whose writes go through the service and whose queries have pipe-free subjects and representable windows, every answer is the uncached one on the current store |
| `CacheRuns.AnswersRightIff` | internal/app/changes.go:226-269 | of a set of queries, all runs of a new service answer right exactly when no two of them share a key and differ on some store |
| `CacheRuns.SharedKeyServesWrongAnswer` | internal/app/changes.go:243-247 | for any two queries with one key and different answers: the second is served the first one's events |
| `CacheRuns.SubjectsTellApart` | internal/store/store.go:127-160 | a query for a specific subject and the same query for any other subject differ on some store |
| `CacheRuns.SubjectClashesIff` | internal/app/changes.go:226-233 | the specific subject of a request shares its key with that of a request answered differently exactly when a pipe stands in its application, its environment, or its cluster before the first colon |
| `CacheRuns.ServedForTenSeconds` | internal/app/service.go:31-37 | an answer is served from the cache exactly until ten seconds after it was put there |
| `Service.ChangeService.IngestEvent` | internal/app/service.go:39-56 | the store's answer, the cache purged on accepted and duplicate and untouched on errors |
| `Service.ChangeService.EventsForChangeQuery` | internal/app/changes.go:235-270 | the uncached answer of a query with the same key, hence of this query when keyable queries are all that was asked |
| `Service.ChangeService.ListChanges` | internal/app/changes.go:102-153 | the page over the changes of the fetched events |
| `Service.ChangeService.HandleEvents` | internal/api/handlers_events.go:76-112 | the loop stops where the specified batch stops, and counts accepted events by what the store gained |
| `Service.FilterByText` | internal/app/changes.go:272-284 | exactly the events matching the lowered, trimmed text, in order |
| `Export.DerivePrimaryChange` | internal/export/fs.go:145-201 | each field is the first non-empty value over the ordered events, and the result the merge of all of them |
| `Export.CreateEvidencePack` | internal/export/fs.go:47-66 | a sorted permutation of the events with the change derived from it |
| `Export.ExportResultMeans` | internal/export/fs.go:189-193 | failed if any event failed, unknown only if all are |
| `Export.ExportIsDeterministic` | internal/export/fs.go:47-72 | the same events with distinct IDs, fetched in any order, give the same pack |
| `Export.ExportAgreesWithChange` | internal/export/fs.go:187-195 | for stored Argo events the pack says failed exactly when the change list does, succeeded only if it does, and the same unless a text says "healthy" |
| `Export.PackSays` | internal/export/fs.go:187-230 | for every pack: its timeline is the events exported in order of time and ID, its result failed exactly when one of them mentions a failure, and succeeded exactly when none does and one mentions success |
| `Export.PackNames` | internal/export/fs.go:145-201 | whose change it shows: subject, cluster and namespace of the first event, the first values of the rest under their keys, and the given change ID or the hash of these |
| `EndToEnd.PolledRowsAreArgo` | internal/ingest/argo/collector.go:129-159 | in every state of the collector, whatever fails and whatever it fetches next, every row stands for a source event of a fetched batch, or of those the store began with |
| `EndToEnd.CollectedStandsFor` | internal/ingest/argo/collector.go:140-157 | a newly collected event is on record at the end of the run as what it was |
| `EndToEnd.PackAgreesWithChanges` | internal/export/fs.go:145-201 | the pack of Argo events says failed exactly when one of their changes has, succeeded only if one has, and unless a text says "healthy" unknown exactly when all are |
| `EndToEnd.CollectedExportAgrees` | internal/app/service.go:138-144 | so for every query of every such state, whatever the batches |
| `EndToEnd.PolledExportAgrees` | internal/app/service.go:138-144 | for fetched batches without that caveat: failed exactly when a change has, succeeded exactly when one has and none failed, unknown exactly when all are |
| `Outcomes.RowSaysPhase` | internal/app/changes.go:621-640 | a row of a polled store counts as failed exactly when it reports an operation whose phase is Failed or Error, as succeeded exactly when it reports one whose phase is Succeeded |
| `Outcomes.ResultsReportPhases` | internal/ingest/argo/client_fetch_argocd.go:124-186 | so whatever the attempts see and wherever they fail, for every query: each change listed and the evidence pack have failed exactly when a row reports a failed operation, and succeeded exactly when none does and a row reports a succeeded one |
| `Outcomes.CollectedOperationReports` | internal/ingest/argo/collector.go:140-157 | an operation a poll collects is on record at its end as a row that reports its phase |
| `Evidence.KeysStayOnRecord` | internal/ingest/argo/collector.go:361-407 | along a poll every key a cursor holds has the event of its operation in the store, or for a finish that of an entry without an ID with this key |
| `Evidence.KeyMeans` | internal/ingest/argo/client_fetch_argocd.go:263-282 | two operation keys are equal exactly when revision and instant are, whichever of start and end dates them |
| `Evidence.OffRecordIff` | internal/ingest/argo/collector.go:361-407 | a reported operation is off record after a poll exactly when every turn of its event finds its own key in the cursor and its ID unknown to the store |
| `Evidence.NewEntryIsAccounted` | internal/ingest/argo/client_fetch_argocd.go:87-122 | an entry above the cursor is stored by the poll, or left to the finished operation, whose key is then answered in the store |
| `Attempts.CrashAfterWriteIsCrash` | internal/ingest/argo/collector.go:149-158 | a crash between a write and its cursor advance leaves what one after both does |
| `Attempts.AttemptIsPoll` | internal/ingest/argo/collector.go:129-159 | an attempt that handles its batch and saves is one poll of that batch, with the same cursors in memory and on disk |
| `Attempts.CrashLosesCursors` | internal/ingest/argo/collector.go:328-345 | a crash puts the cursors back to the saved ones and keeps the store |
| `Ledger.EveryOperationIsOnRecord` | internal/ingest/argo/collector.go:129-159 | whatever each attempt sees, with failing fetches, saves, lost checkpoints and crashes anywhere: every operation a worked-through attempt was shown is on record, or if finished an entry without an ID of its revision and instant is |
| `Ledger.EveryEntryWithoutIDIsOnRecord` | internal/ingest/argo/client_fetch_argocd.go:277-282 | every entry without an ID is on record, or another of its revision and instant, or the finish with its key; a suppressed one is left to an operation that is |
| `Ledger.EveryEntryIsOnRecord` | internal/ingest/argo/client_fetch_argocd.go:87-122 | where history grows, every entry with an ID is on record unless a worked-through attempt that showed it left it to a finished operation that is |
| `Ledger.NumberedOperationIsOnRecord` | internal/ingest/argo/client_fetch_argocd.go:124-180 | of an application whose entries all have positive IDs every operation is on record itself, start and finish |
| `Ledger.NumberedEntryIsOnRecord` | internal/ingest/argo/client_fetch_argocd.go:87-122 | and every entry, or the finish event it was left to |
| `Ledger.RollingHistoryGrows` | internal/ingest/argo/client_fetch_argocd.go:87-122 | an application that lists its latest deployments, numbered upwards, while everything else about it changes, is such a cluster |
| `RateLimit.AuthRateLimiter.Allow` | internal/api/ratelimit.go:31-50 | window, counters and answer are the specified ones |
| `RateLimit.KeyIdentifiesPeers` | internal/api/ratelimit.go:40 | counters are shared exactly by calls of the same limited action and address |
| `RateLimit.AllowedIff` | internal/api/ratelimit.go:44-49 | a limited call is allowed exactly when fewer than the limit of its peers came before it in its window |
| `RateLimit.AllowedPerWindow` | internal/api/ratelimit.go:44-49 | exactly min(calls, limit) calls are allowed per window, whatever other keys do |
| `RateLimit.AllowedPerMinute` | internal/api/ratelimit.go:44-53 | at most twice the limit in any 60 consecutive seconds |
| `RateLimit.AllowedSays` | internal/api/ratelimit.go:31-50 | reads, exports and ingests are counted against their own limit; a limit that is not positive, any other action and a limiter that is off allow everything |
| `RateLimit.AllowedOnAnyClock` | internal/api/ratelimit.go:42-50 | also when the clock is set back: allowed exactly while fewer than the limit of its peers came since a call last fell into another window |
| `RateLimit.WindowMeans` | internal/api/ratelimit.go:53-55 | windows are the minutes of Unix time, rounded towards zero |

## Left out

- Case mapping is modelled on ASCII letters; Go folds all of Unicode.
- Encoding of cursors, of hashed content and of the checkpoint file: bytes, base64, JSON and RFC 3339 text are not modelled, so neither is an event time whose year RFC 3339 cannot write.
- CloudEvents.ParseEvent: takes a body already decoded into its members and its extensions; JSON decoding and the errors it can report are not modelled.
- `json.Marshal` compacts the payload before it is hashed, so bodies that differ only in spacing share a hash in the source and are told apart here; extensions that are objects, arrays or null are one value here and are told apart in the source.
- A store that is down. Failing fetches and saves and an unreadable checkpoint file are modelled in `Attempts`, how they come about is not.
- Recovery.CrashRecovery: compares with the uninterrupted run, so a restarted collector fetches the batch of the interrupted poll again; what holds if the cluster has moved on is stated in `Ledger`. Informer events carry the clock in their IDs and are in neither.
- Ledger.EveryEntryIsOnRecord: assumes of Argo that positive history IDs come in order, count up, and do not come back once dropped; an entry below one shown before is never attempted.
- Ledger.EveryOperationIsOnRecord: assumes that UIDs are the applications' own and colon-free and that applications have names; the store is empty and only the collector writes to it. Attempts that were interrupted before they were worked through promise nothing: what they alone were shown may be gone.
- Pipeline.UnchangedClusterIsQuiet: asks for reconcile times if the two fetches read the clock differently, because snapshots without one date events by the clock; one fetch takes one clock reading, while the source reads the clock anew for each missing time.
- Pipeline.ListingOrderIrrelevant: asks for the same.
- CacheRuns.SubjectClashesIff: speaks of queries without a text filter, for a window that is not empty and a subject with three non-empty parts, environment and cluster without blanks at their ends; an empty part does not restrict a query.
- QueryCache.SubjectKeySharedIff: compares requests of one window and text; across windows and texts it is KeyInjective and WindowInCluster that speak.
- ChangeIdentity.HealthStaysApart: assumes that RFC 3339 text in UTC has twenty characters and ends in "Z", and that SHA-256 does not collide; so does SameChangeIff.
- Projection.BuildChangesByID: speaks of the events fetched, of which the service reads at most the first 500, and takes one clock reading for all changes.
- Changes.DescribesUnique: events sharing time and ID may be sorted either way by the source, so uniqueness asks for distinct IDs.
- Change fields that repeat others (change ID, permalink, application) and approvals beyond whether there are any.
- The informer path's field extraction; its check, ingest, advance and save sequence is that of a poll over one event.
- Metrics, traces, logs, HTTP routing, authentication and configuration.
- SQL text, transactions and column formats of the SQL store; only its paging decision is modelled.
- `ListSubjects`, `EventsByExtension`, the export job table, the change detail, timeline and evidence views: easy members over the same store and map.
- The LRU cache's own bookkeeping: it may forget entries at any time and does not serve entries past their lifetime.
- Normalisation of the data object and of single events is written as a function; only the extension map is built step by step.
