# Notetaker: the durable reminder and recurring-series engine, verified

Notetaker keeps notes with a start time, sends an email a fixed number of minutes before it, and
expands recurring series into occurrences. Everything that matters is rows in one database:
series, notes, reminder rules, delivery cycles, notifications, trash actions and the outbox. HTTP
handlers and background jobs are short transactions on those rows; a task queue, an SMTP server,
Redis and the browsers around it may lose, repeat or delay anything.

This project models that store and every transaction on it, writes the handlers and jobs out
statement by statement against what they are meant to do, and proves what no interleaving can
break.

## How the model is laid out

* `Storage` has a row type per table and the record `Db` of all tables. `Session` is the object a
  handler or job works on; each call is one transaction, because the row locks of the source make
  it one. Rules are keyed by (note, offset) and deliveries by (rule, cycle), which the database
  keeps unique.
* `Reconciliation` says, row by row, what `reconcile_reminders` leaves behind; `Notes` has its
  loops. `Batches` is the same for several notes in turn, which the series handlers do.
* `Reminders` and `ReminderJobs` hold the delivery protocol: the scan, the final authorization,
  the second transaction of a delivery, and the classifier of lost workers.
* `NoteHandlers` (with `SaveResults` and `ContentSaves`), `TrashActions`, `RoundTrips`,
  `PortionRestore`, `Split`, `SeriesCreation`, `Tags`, `Maintenance` and `Cleanup` hold the other
  writers; `Calendar` and `Recurrence` the expansion of a series; `TrashListing` the paged trash;
  `Outbox` and `Realtime` the way of an event to a browser.
* `Invariants`, `Lineage`, `Progress` and `Store` say what every transaction keeps: `StoreInv` is
  the invariant of the whole store, and `Advances(a, b)` what is never undone between two of its
  states.
* `Transactions` puts all writers into one relation, `Effects` says what each of them does not do,
  and `Protocol` is the state machine: store, task queue, workers between their two transactions,
  and history. A run interleaves every transaction with lost and repeated tasks and with crashes
  between any two steps. `SplitResults` and `Segments` state what a split leaves, `Retention` how
  long the trash is kept, `Delivered` what the record of a delivery tells, `Versions` what
  optimistic locking gives, `SplitHistory` what splits spare. `BackwardSplit` and `LostWorker` are
  two runs, request by request, that end where one would not expect.
* `NoteRequests`, `SeriesRequests`, `TrashResults` and `PurgeResults` say for each request exactly
  when it is accepted and what it then leaves in each field of each table, in terms of the request
  and the two stores alone.

The main results are about all runs (`Protocol`): at most one email per delivery, one finalizer
per attempt, nothing attempted is ever claimed again, every authorized email is due under the
schedule then in force, closed trash actions stay closed, purged rows stay erased, nothing is
purged before its retention is over and until then everything in the trash can be restored,
recurrence keys stay unique while splits go forward, every reminder that lies ahead is armed, every
recorded result is what SMTP said, and no accepted request overwrites another it has not seen.

## Where a plausible claim is false

* *A content-only save leaves the deliveries alone.* It cancels an open delivery whose deadline
  has come, and rearms one that clocks running backwards had claimed or cancelled too soon.
  `ContentSaves.ContentSaveLeavesDeliveries` gives the exact condition for any clock,
  `ContentSaves.RetitlingCancelsDueReminder` an instance.
* *Recurrence keys are unique in a lineage.* The collision query of a split looks below the
  selected key only. `SplitResults.KeysStayUnique` gives the exact condition, and
  `Segments.SegmentsAreDisjoint` shows that forward splits always meet it.
  `BackwardSplit.BackwardSplitRepeatsKey` is a run of three accepted requests that ends with a key
  standing twice: a daily series at midnight of three days is split at the third into one occurrence
  at six on the first, and that one is split into one occurrence at midnight of the second.
* *A purge always commits.* Erasing the snapshots of a delivery whose worker has not reported breaks
  the shape constraint and rolls the whole batch back. `Maintenance.AbortsExactlyInFlight` says when;
  `Cleanup.CleanupTrash` finishes exactly when no expired note has such a delivery.
  `LostWorker.LostWorkerBlocksPurge` is a run that ends in such a store: the worker dies in its
  attempt, the note is deleted, and the classifier has not run when the trash expires.
* *The browser's seen set equals its queue.* An empty event id leaves the queue but not the set.
  `Realtime.PartedExactly` says after which deliveries they differ, `Realtime.BreaksOnEmptyEviction`
  at which step, `Realtime.EmptyIdEscapes` that it happens.

Where the code and a comment or document of the repository differ, the model follows the code. A
purged occurrence at or after the boundary of a split is announced as superseded
(backend/app/api/router.py:1006-1007), but the loop passes over it (lines 1047-1048), so it stays
an untouched tombstone.

## Hypotheses

The lease of a scan is positive. Ids and claim tokens are fresh. Only the results that say so
(`OnTime`, `Clocked`) assume a clock that does not run backwards. Zones are arbitrary: the instants
of a series differ in all of them. That they increase is shown for zones whose offsets are inside a
day and whose clocks, over the stretch of the series, never stand a day or more behind where they
stood earlier in it (`Recurrence.SteadyFor`, which looks at the transition table only).

## Model

| member | source | states |
|---|---|---|
| Storage.Session.Uuid | backend/app/domain/recurrence.py:228 | ids are drawn from a supply and never twice |
| Calendar.EpochDay | backend/app/jobs/maintenance.py:146-149 | the day number of the epoch written into a purged series is that of 1970-01-01 |
| Calendar.OrdinalOrders | backend/app/domain/recurrence.py:87 | day numbers order valid dates as the calendar does, and identify them |
| Calendar.AddDaysOrdinal | backend/app/domain/recurrence.py:96-99 | adding days adds to the day number, and fails exactly past the last representable day |
| Calendar.ReadingsExact | backend/app/domain/recurrence.py:90-93 | a local time exists exactly when some instant reads it, and the readings are those instants |
| Calendar.DifferentReadings | backend/app/domain/recurrence.py:90-93 | in any zone, no instant reads two local times |
| Calendar.SteadyThroughout | backend/app/domain/recurrence.py:79-93 | what the transition table shows at the marks of a stretch of time holds at every time in it: the clocks never stand a day or more behind where they stood earlier |
| Calendar.ReadingsInOrder | backend/app/domain/recurrence.py:92-93 | in a stretch over which the zone is steady, every instant that reads a local time comes before every instant that reads one a day or more later |
| Recurrence.NextMonth | backend/app/domain/recurrence.py:51-57 | the next cursor is in the following month, on the wanted day or, if that month has no such day, on the 1st; there is none exactly after the last month of the calendar |
| Recurrence.ExpandOccurrences | backend/app/domain/recurrence.py:60-102 | the cursor loop terminates and answers with the full expansion, too many exactly when it has more than `limit` entries, or the reason it is refused |
| Recurrence.NothingSkipped | backend/app/domain/recurrence.py:96-101 | no recurring day lies strictly between two cursor positions, placeholders on the 1st included |
| Recurrence.ExpandExact | backend/app/domain/recurrence.py:60-102 | the expansion is exactly all daily, weekly or same-day-of-month local times up to the inclusive end that exist in the zone, in order, each at its earliest instant |
| Recurrence.InstantsDiffer | backend/app/domain/recurrence.py:84-102 | in any zone no two occurrences share an instant, so no two share a key |
| Recurrence.InstantsIncrease | backend/app/domain/recurrence.py:84-102 | in a zone that is steady while the series runs the instants increase strictly |
| Recurrence.CalendarSuffices | backend/app/domain/recurrence.py:85-102 | the cursor never leaves the calendar for an end date before its last year |
| Reconciliation.NewCyclesAreFresh | backend/app/domain/notes.py:187-198 | a new cycle never meets an existing delivery, so no unique key is violated |
| Reconciliation.KeepsNumbered | backend/app/domain/notes.py:165-227 | deliveries of each rule stay numbered exactly 1..current cycle |
| Reconciliation.KeepsScheduled | backend/app/domain/notes.py:186-199 | the current delivery of an enabled rule stays due its offset before the start |
| Reconciliation.KeepsDeliverable | backend/app/domain/notes.py:176-220 | whatever is pending or claimed is the current cycle of an enabled rule on a live note |
| Reconciliation.KeepsShape | backend/migrations/versions/0004_storage_contract.py:110-139 | every delivery keeps one of the eight shapes, and exactly the authorized ones have a notification |
| Reconciliation.ReconcileKeepsInv | backend/app/domain/notes.py:144-227 | any rewrite of notes whose plan covers what died or moved keeps the whole reminder invariant |
| Reconciliation.CyclesGrow | backend/app/domain/notes.py:186-199 | cycle numbers grow by one exactly on a schedule change or the re-enabling of an offset |
| Reconciliation.ReconcileIdempotent | backend/app/domain/notes.py:144-227 | a second reconciliation with nothing moved changes nothing |
| Reconciliation.NewCycleBegins | backend/app/domain/notes.py:118-141 | a new cycle is cancelled at once if its note is not live, else missed if its deadline has come, else pending, due its offset before the start |
| Reconciliation.OldCycleEnds | backend/app/domain/notes.py:172-220 | a delivery acted on stays; one that serves a live note ahead of its deadline is pending, even if it was claimed or cancelled; any other open one is cancelled now |
| Reconciliation.RuleEnds | backend/app/domain/notes.py:175-189 | a rule is enabled exactly when its offset is wanted, and a disabled one keeps its cycle |
| Notes.ReconcileReminders | backend/app/domain/notes.py:144-227 | the loops over existing and missing rules have exactly the row-by-row effect of one plan |
| Notes.AddDelivery | backend/app/domain/notes.py:118-141 | the first delivery of a cycle is cancelled exactly when the note is inactive, trashed, replaced or purged, else missed exactly when its deadline has come, else pending |
| Store.ReconcileInTurn | backend/app/api/router.py:1156-1161 | reconciling notes one after another has the effect of one plan over all of them |
| Store.ReconcileAdvances | backend/app/domain/notes.py:144-227 | no reconciliation touches an attempted or missed delivery or lowers a cycle number |
| Store.EditKeeps | backend/app/api/router.py:310-346 | any handler that rewrites rows outside trash actions and reconciles them keeps the store's invariant and undoes nothing |
| Store.EditOnTime | backend/app/domain/notes.py:200-220 | such a handler writes off no deadline that is still ahead |
| Invariants.OpenOrClosed | backend/migrations/versions/0004_storage_contract.py:205-246 | a sealed trash action is open with all members intact, or closed with nothing pointing at it |
| Invariants.FrozenNotes | backend/migrations/versions/0004_storage_contract.py:280-303 | a step that leaves purged notes alone keeps their redaction complete |
| Invariants.FrozenSeries | backend/migrations/versions/0004_storage_contract.py:305-315 | likewise for purged series, which gain no unpurged note |
| Progress.AdvancesTransitive | backend/migrations/versions/0004_storage_contract.py:205-315 | what single steps never undo, no stretch of steps undoes |
| NoteHandlers.SaveKeeps | backend/app/api/router.py:310-346 | write, tags, reconciliation, exception and event together keep the store's invariant |
| NoteHandlers.CreateNoteTx | backend/app/api/router.py:272-293 | creation commits the specified store, or answers the first error and changes nothing |
| NoteHandlers.UpdateNoteTx | backend/app/api/router.py:310-346 | the same for an edit, with both version checks, the trash check and the tag check in order |
| NoteHandlers.DeleteNoteTx | backend/app/api/router.py:350-367 | the same for a delete, which is a no-op on a note already in the trash |
| NoteHandlers.RestoreNoteTx | backend/app/api/router.py:401-422 | the same for the restore of a note outside any action, within retention |
| NoteHandlers.ReplaceTags | backend/app/domain/notes.py:106-115 | the tag difference written is the tag set asked for |
| NoteHandlers.UpdateKeeps | backend/app/api/router.py:310-346 | every accepted edit keeps the invariant and undoes nothing |
| NoteHandlers.DeleteKeeps | backend/app/api/router.py:350-367 | every accepted delete does |
| NoteHandlers.RestoreKeeps | backend/app/api/router.py:401-422 | every accepted restore does |
| SaveResults.SaveTakesEffect | backend/app/api/router.py:310-346 | after a save the note, its tags and its enabled offsets are as asked, one event follows, and no other note, rule or delivery changed |
| SaveResults.SaveArmsReminders | backend/app/domain/notes.py:186-227 | after a save each reminder of a live note that lies ahead is pending under the new schedule, unless its unchanged cycle was already acted on; nothing of a dead note or past deadline is open |
| Api.StripExact | backend/app/api/router.py:312 | white space goes from both ends of a title, all of it and nothing else |
| NoteRequests.CreateMeans | backend/app/api/router.py:272-293 | accepted exactly with a title and known tags; then the note, its tags and its reminders are as asked and nothing else changed |
| NoteRequests.UpdateMeans | backend/app/api/router.py:310-346 | accepted exactly for a note outside the trash at the versions named, with a title and known tags; then title, body, start, active, tags and reminders are as asked, versions are bumped, one event follows and nothing else changed |
| NoteRequests.DeleteMeans | backend/app/api/router.py:350-367 | accepted exactly at the versions named; a note already in the trash stays as it is, another goes there and keeps the rest |
| NoteRequests.RestoreMeans | backend/app/api/router.py:401-422 | accepted exactly at the versions named for a note in the trash within thirty days; then the note is out of the trash and keeps the rest |
| NoteRequests.ExceptionSet | backend/app/domain/recurrence.py:306-380 | the exception of a recurring note laid over its template gives the note back and repeats nothing of it; the cancelled mark is as given or as it was |
| Batches.WriteAndReconcile | backend/app/api/router.py:1156-1161 | one turn of a handler's loop is one more row of its batch |
| Batches.BatchIsFrozen | backend/app/api/router.py:1010-1053 | a batch over unpurged notes leaves everything purged untouched |
| TrashActions.TrashSeriesPortionTx | backend/app/api/router.py:1108-1170 | trashing a portion commits its specification (made explicit by TrashMeans) under a new sealed action, or the right error |
| TrashResults.TrashMeans | backend/app/api/router.py:1074-1170 | accepted exactly at the current version with something to trash; then every occurrence from the requested key on, or from the first one, is in the trash, those that were not before under the new action and deleted now, and every other note is as it was |
| TrashResults.RestoreMeans | backend/app/api/router.py:1173-1243 | accepted exactly at the current version of an unpurged series while the action holds notes and is retained, with the selected note a member at its version; then exactly its members are out of the trash and of the action |
| TrashActions.TrashNotes | backend/app/api/router.py:1135-1169 | the update that seals the action always passes the trigger's check |
| TrashActions.TrashKeeps | backend/app/api/router.py:1108-1170 | the new action is open, sealable, and the invariant holds |
| TrashActions.NoBreach | backend/app/api/router.py:1219-1223 | the membership breach the code guards against is unreachable |
| TrashActions.RestorableIsOpen | backend/app/api/router.py:1173-1222 | only an open action of an unpurged series can be restored |
| TrashActions.RestoreActionKeeps | backend/app/api/router.py:1173-1243 | a restore closes the action as a unit and keeps the invariant |
| TrashActions.RestoreTrashActionTx | backend/app/api/router.py:1173-1243 | the restore loop commits the specified store, or the first error in order |
| RoundTrips.TrashThenRestore | backend/app/api/router.py:1108-1243 | trash then restore within retention is accepted and is the identity on notes (but for versions), rules and deliveries, except that deadlines passed meanwhile stay cancelled |
| RoundTrips.RestoresCommute | backend/app/api/router.py:1232-1243 | two open actions of one series restore to the same store in either order |
| RoundTrips.NoteRouteRestoresAction | backend/app/api/router.py:382-398 | restoring one held note restores its whole action, with the same answer as the direct route |
| RoundTrips.RestoreAnyNoteTx | backend/app/api/router.py:378-422 | the handler takes the branch of the note's action and commits what that branch specifies |
| PortionRestore.RestoreMarkedKeeps | backend/app/api/router.py:1334-1375 | the marks of the retired trash scheme go from a whole range, its notes come back but for those cancelled on their own, nothing else changes, and the invariant stays |
| PortionRestore.PortionRouteRestores | backend/app/api/router.py:1280-1375 | the portion route restores the one open action in range as the direct route does, or lifts the marks if no action is in range; without marks it does the former or fails |
| PortionRestore.PortionAccepted | backend/app/api/router.py:1280-1353 | accepted exactly when one open and retained action alone holds the range, beginning at the key if one is given, or when none does and the marks of the range can be lifted |
| PortionRestore.LiftMark | backend/app/api/router.py:1354-1370 | one turn of the loop lifts one mark, and reconciles the note only if it comes back |
| PortionRestore.RestoreSeriesPortionTx | backend/app/api/router.py:1280-1375 | the handler answers and commits as its specification says, every branch included |
| SeriesCreation.GeneratedAreDistinct | backend/app/domain/recurrence.py:199-222 | in any zone the accepted instants differ and begin with the announced start |
| SeriesCreation.GeneratedIncreases | backend/app/domain/recurrence.py:199-222 | in a zone that is steady while the series runs the announced start is the earliest instant and the others follow in order |
| SeriesRequests.GeneratedMeans | backend/app/domain/recurrence.py:195-222 | accepted exactly with a known zone, an end not before the start, at least one and at most the smaller limit of occurrences, the first at the announced start; the instants are the earliest ones of the days it recurs on |
| SeriesCreation.BulkIsReconcile | backend/app/domain/recurrence.py:247-302 | bulk insertion gives the rules and deliveries that reconciling each new note would give |
| SeriesCreation.MaterializeRules | backend/app/domain/recurrence.py:265-296 | one enabled rule and one first delivery per offset: cancelled exactly when the series is inactive, else missed exactly when its deadline has come, else pending |
| SeriesCreation.CreateSeriesTx | backend/app/domain/recurrence.py:195-303 | creation commits one occurrence per generated instant, or the first error in order |
| SeriesCreation.CreateKeeps | backend/app/domain/recurrence.py:228-303 | a new series keeps the store's invariant and is a lineage of its own |
| SeriesCreation.OccurrencesAreGenerated | backend/app/domain/recurrence.py:250-303 | the notes of a new series and its generated instants are in bijection, live and on their keys |
| SeriesRequests.CreateAccepted | backend/app/domain/recurrence.py:195-226 | a request to create a series is accepted exactly with known tags, a recurrence as above and a title |
| SeriesRequests.CreateMeans | backend/app/domain/recurrence.py:228-303 | the series, its template and each occurrence with its tags and reminders are as asked, field by field, and nothing else changed |
| Split.SplitSeriesTx | backend/app/api/router.py:826-1071 | the whole handler: refusals in order, otherwise exactly the specified store (made explicit by SplitAccepted and SplitMeans) |
| SeriesRequests.SplitAccepted | backend/app/api/router.py:826-983 | accepted exactly for an open end of a lineage and a selected occurrence at the versions named, when nothing from it on is in the trash or has started, the new instants lie ahead and meet no earlier key or start of the lineage, and tags and title are in order |
| SeriesRequests.StartedIsUntouched | backend/app/api/router.py:907-914 | an accepted split leaves every note that has started, its rules, deliveries and tags exactly as they were |
| SeriesRequests.SplitMeans | backend/app/api/router.py:984-1071 | the series split ends on the last local day before the key, the successor and its template are as asked, exceptions from the key on go exactly where no tombstone holds the slot, and nothing else of these tables changed |
| SeriesRequests.OccurrencesFollowTemplate | backend/app/api/router.py:1010-1044 | an occurrence of the successor, carried over or new, has the tags and reminders asked for; other notes keep their tags |
| SplitHistory.SplitsAreCurrent | backend/app/api/router.py:832-925 | in every run a split commits only for a request that fits the store: series and occurrence at the versions named, nothing from it on started or trashed |
| SplitHistory.SplitsSpareThePast | backend/app/api/router.py:907-914 | in every run a split leaves each note that has started exactly as it was |
| Split.CarryOver | backend/app/api/router.py:1024-1044 | an occurrence whose key is generated goes over with the template's content and tags |
| Split.Supersede | backend/app/api/router.py:1045-1053 | an unpurged occurrence that was not kept is deleted and superseded |
| Split.SplitKeeps | backend/app/api/router.py:826-1071 | an accepted split keeps the whole store's invariant |
| SplitResults.BelowUntouched | backend/app/api/router.py:887-900 | notes, rules, deliveries and tags before the key, and purged tombstones, are untouched |
| SplitResults.EarlierExceptionsUntouched | backend/app/api/router.py:1054-1065 | exceptions below the key, or of other series, stay as they are |
| SplitResults.ExactlyOneFate | backend/app/api/router.py:1008-1053 | each occurrence at or after the key is exactly one of carried over, superseded with nothing open, or an untouched tombstone |
| SplitResults.SuccessorIsGenerated | backend/app/api/router.py:1010-1044 | the successor's notes and the generated instants are in bijection, live and in the future |
| SplitResults.CyclesCarryOver | backend/app/api/router.py:1026-1044 | a kept occurrence keeps its cycle numbers unless its start moves back to its key |
| SplitResults.KeysStayUnique | backend/app/api/router.py:948-977 | keys stay unique in the lineage exactly when no new instant is the key of an occurrence standing at or after the boundary in an earlier segment |
| Segments.ForwardKeepsOrder | backend/app/api/router.py:948-1005 | a forward split keeps the segments of the lineage in ordered intervals |
| Segments.SegmentsAreDisjoint | backend/app/api/router.py:948-1005 | ordered segments have disjoint keys, so no key that stands repeats in a lineage |
| BackwardSplit.BackwardSplitRepeatsKey | backend/app/api/router.py:948-963 | a run of three accepted requests, a creation and two splits, after which one key stands twice in the lineage and before which none did |
| Lineage.SplitKeepsLineage | backend/app/api/router.py:832-853 | closing an open leaf and appending one successor keeps every lineage well linked |
| Lineage.LineageIsPath | backend/app/api/router.py:832-1005 | every lineage is a finite path to the series it is named after, and exactly the closed series have a successor |
| Lineage.NoCycle | backend/app/api/router.py:984-994 | predecessor links are acyclic and stay in the lineage |
| Tags.TaggedAreUnpurged | backend/app/api/router.py:229-260 | no row a tag deletion rewrites is purged, so no immutability trigger fires |
| Tags.DeleteTagTx | backend/app/api/router.py:213-268 | the tag goes with every use of it, versions are bumped, events follow |
| Tags.DeletedTagMeans | backend/app/api/router.py:213-268 | nothing carries the tag any more, exactly what carried it has the next version, its series are announced, and nothing else changed |
| Tags.DeleteTagKeeps | backend/app/api/router.py:213-268 | and the store's invariant stays |
| ContentSaves.ContentSaveLeavesDeliveries | backend/app/domain/notes.py:200-220 | whatever the clocks did, a save of content only leaves all deliveries alone exactly when none of the note is open and due, or current, claimed or cancelled with its deadline ahead |
| ContentSaves.ForwardClocksDisturbTheDue | backend/app/domain/notes.py:200-220 | with clocks that never ran backwards only the first of these two can be |
| ContentSaves.RetitlingCancelsDueReminder | backend/app/domain/notes.py:217-220 | a concrete store in which retitling a note cancels its due reminder |
| Reminders.ClaimKeepsInv | backend/app/jobs/reminders.py:46-77 | a claimed batch keeps the reminder invariant and only moves deliveries forward |
| Reminders.AuthorizeKeepsInv | backend/app/jobs/reminders.py:104-192 | so does the final authorization, whatever it decides |
| Reminders.RecordKeepsInv | backend/app/jobs/reminders.py:266-282 | so does the report of a worker, and an attempt always has its notification |
| Reminders.ClassifyKeepsInv | backend/app/jobs/reminders.py:285-304 | so does the classification of abandoned attempts |
| Reminders.EmailIsDue | backend/app/jobs/reminders.py:128-192 | an authorized email belongs to a live note, an enabled rule and its current cycle, inside the grace window of the schedule in force |
| Prelude.SelectFirst | backend/app/jobs/reminders.py:50-64 | a bounded ordered query returns as many rows as the limit allows, each once, in order, and none left out comes before one taken |
| ReminderJobs.SelectDue | backend/app/jobs/reminders.py:50-64 | the query returns as many claimable rows as the limit allows, earliest first |
| ReminderJobs.ClaimDueBatch | backend/app/jobs/reminders.py:46-77 | of the rows taken, those due within the grace period are claimed under fresh tokens and leased, each with one task, and those past it are missed; no other row changes |
| ReminderJobs.HandledOnce | backend/app/jobs/reminders.py:50-77 | with a positive lease a handled row is out of reach of the same scan |
| ReminderJobs.ScanAndEnqueue | backend/app/jobs/reminders.py:80-101 | the scan terminates and takes exactly the deliveries that are due and pending or past their lease; within the grace period they are claimed and counted, past it missed; nothing is left waiting, and enqueued tasks carry their claim's token |
| ReminderJobs.AuthorizeDelivery | backend/app/jobs/reminders.py:104-192 | the outcome case by case: ignored without its claim, cancelled if no longer wanted, pending if early, missed past the grace period, and in exactly the remaining case an attempt with the note's title and body in delivery, notification and email |
| Reminders.MarkIsOnce | backend/app/jobs/reminders.py:218-238 | the failure shows at the head of the title once, however often it is recorded, and no title outgrows its 255 characters |
| ReminderJobs.RecordVisibleEmailFailure | backend/app/jobs/reminders.py:218-243 | the notification, and no other row, is marked once: the prefix heads its title, a title that has it stays, the rest is cut at 255; and it is announced |
| ReminderJobs.FinishDelivery | backend/app/jobs/reminders.py:245-282 | an open attempt becomes sent exactly if accepted, unknown exactly if ambiguous, failed otherwise, each with its code, and unless accepted its notification is marked and announced; an attempt no longer open is left alone |
| Reminders.AddressHasTwoParts | backend/app/jobs/reminders.py:208-210 | a recipient is valid exactly if it has one part before its first @ and one after it, and no white space |
| ReminderJobs.ClassifyUnknown | backend/app/jobs/reminders.py:285-304 | up to `limit` attempts authorized before the threshold, the oldest first and all if there are fewer, become unknown, each with its code and visible failure; nothing else changes |
| Maintenance.AbortsExactlyInFlight | backend/app/jobs/maintenance.py:104-108 | the shape constraint rejects a batch exactly when a purged note has an attempt in flight |
| PurgeResults.TargetsMean | backend/app/jobs/maintenance.py:34-84 | a batch takes the notes it picked and those their actions hold, as far as deleted at or before the cutoff |
| PurgeResults.BatchRedactsNotes | backend/app/jobs/maintenance.py:96-124 | what a batch leaves of notes, deliveries, notifications and tags, field by field: redacted for the notes it takes, untouched for all others |
| PurgeResults.BatchRedactsSeries | backend/app/jobs/maintenance.py:113-153 | exactly the series it looked at that have no note left are redacted, with template and exceptions; other exceptions lose their overrides exactly if a note taken held their slot |
| PurgeResults.BatchAnnounces | backend/app/jobs/maintenance.py:154-175 | one event for each note taken, with its version after the purge |
| LostWorker.LostWorkerBlocksPurge | backend/app/jobs/maintenance.py:104-108 | a run, from creating a note to its deletion after a worker was lost, from which on no batch that picks the expired note commits |
| Maintenance.PurgedTogether | backend/app/jobs/maintenance.py:41-57 | a batch that meets one member of an action takes all of them |
| Maintenance.PurgeErases | backend/app/jobs/maintenance.py:96-124 | after a batch no authored content of a purged note is left anywhere |
| Maintenance.PurgeErasesSeries | backend/app/jobs/maintenance.py:126-153 | a series is purged only with all its notes, and its template, tags and overrides go |
| Maintenance.PurgeKeeps | backend/app/jobs/maintenance.py:31-175 | a committed batch keeps the store's invariant and undoes nothing |
| Cleanup.PurgeTrash | backend/app/jobs/maintenance.py:31-175 | the batch, table by table, is the specified purge of the bounded selection widened to whole actions, or is rolled back |
| Cleanup.PurgeEmptySeries | backend/app/jobs/maintenance.py:126-153 | the loop purges exactly the candidates' series without an unpurged note |
| Cleanup.CleanupTrash | backend/app/jobs/maintenance.py:178-186 | for any limit the loop terminates, finishes exactly when no worker is unreported on a note past retention, then every such note and no other is redacted, once and with one event, and every commit keeps the invariant |
| Cleanup.WholeOrNone | backend/app/jobs/maintenance.py:41-98 | at every commit each action is wholly purged or wholly intact, also when it is larger than a batch |
| Cleanup.LaterTrashUntouched | backend/app/jobs/maintenance.py:34-40 | notes deleted after the cutoff, or not at all, are untouched |
| TrashListing.OneEntryEach | backend/app/api/router.py:673-724 | every note in the visible trash is behind exactly one row |
| TrashListing.ListingPartitions | backend/app/api/router.py:673-771 | the rows partition the visible trash and their counts add up to it |
| TrashListing.ShownExactly | backend/app/api/router.py:673-724 | the list shows exactly the notes deleted, not replaced and not purged: under the action that holds them, under the legacy marker, else on their own |
| TrashListing.LatestFirst | backend/app/api/router.py:726-730 | the latest rows come first, at one time actions before legacy occurrences before notes, then by id |
| TrashListing.PageHolds | backend/app/api/router.py:731-732 | a page holds the rows from its offset on, as many as its size or as are left |
| TrashListing.Sort | backend/app/api/router.py:730 | the rows are sorted by time, kind and id, none lost |
| TrashListing.OnlyOneList | backend/app/api/router.py:726-730 | there is only one such list, so every page is cut from the same one |
| TrashListing.PagesConcatenate | backend/app/api/router.py:731-732 | the pages one after another are the whole list |
| TrashListing.First | backend/app/api/router.py:738-760 | the preview of a row is the first of its notes by recurrence key and id |
| TrashListing.ListTrashGroups | backend/app/api/router.py:668-771 | the handler returns the page asked for, with the time, member count and preview note of each row, and the total |
| Outbox.BackoffIsBounded | backend/app/jobs/outbox.py:41 | retry delays never shrink, lie in one second to one minute, and reach the minute at the seventh attempt |
| Outbox.BackoffDoubles | backend/app/jobs/outbox.py:41 | the delay starts at a second and doubles with each failure up to a minute |
| Outbox.MaintenanceForgets | backend/app/jobs/maintenance.py:198-200 | maintenance deletes exactly the rows published more than thirty days ago |
| Outbox.PublishBatch | backend/app/jobs/outbox.py:21-45 | the oldest events that are unpublished and rested are tried once each in order, all of them if fewer than the limit; a row is marked exactly if its event was sent without error, rests for its backoff otherwise, and no other row changes |
| Outbox.RestsBetweenAttempts | backend/app/jobs/outbox.py:26-41 | after a failure a row rests for its backoff, and rests never get shorter |
| Outbox.NeverResent | backend/app/jobs/outbox.py:22-45 | over every run, an event marked as published is never sent again, not even after its row is deleted |
| Outbox.NeverLost | backend/app/jobs/maintenance.py:198-200 | an event ever inserted is still waiting or was sent: no row is deleted before publication |
| Realtime.Client.OnMessage | frontend/src/realtime/use-realtime.ts:4 | the handler updates set and queue as specified and applies exactly the ids not in the set |
| Realtime.SeenIsQueue | frontend/src/realtime/use-realtime.ts:4 | without empty ids the set always equals the queue |
| Realtime.PartedExactly | frontend/src/realtime/use-realtime.ts:4 | after any messages the two differ exactly when an empty id was applied and at least a thousand events after it |
| Realtime.BreaksOnEmptyEviction | frontend/src/realtime/use-realtime.ts:4 | they part exactly when a full window evicts an empty id |
| Realtime.EmptyIdEscapes | frontend/src/realtime/use-realtime.ts:4 | an empty id and a thousand others make it happen |
| Realtime.AppliedAgainLate | frontend/src/realtime/use-realtime.ts:4 | an id is applied again only after a thousand other distinct ids |
| Transactions.TxKeeps | backend/migrations/versions/0004_storage_contract.py:110-315 | every transaction keeps the invariant of the store and undoes nothing that must stand |
| Effects.TxAttempts | backend/app/jobs/reminders.py:155-159 | only the final authorization starts an attempt, only a finalizer ends one |
| Effects.TxClaims | backend/app/jobs/reminders.py:72-76 | only a scan gives a delivery a claim token |
| Effects.TxOnTime | backend/app/domain/notes.py:200-220 | with a forward clock no transaction claims or writes off a deadline still ahead |
| Effects.TxPlaces | backend/app/api/router.py:1027-1034 | only a split moves an occurrence to another series or links series |
| Effects.TxMarksNothing | backend/app/api/router.py:1034 | no transaction sets the legacy trash marker |
| Protocol.StepKeeps | backend/app/jobs/reminders.py:246-304 | every step, of a handler, a job, a worker or the queue, keeps the invariant of store, history and workers |
| Protocol.Safety | backend/app/jobs/reminders.py:46-304 | the invariant holds in every reachable state |
| Protocol.Forwards | backend/migrations/versions/0004_storage_contract.py:205-315 | over any stretch of any run nothing that must stand is undone |
| Protocol.AtMostOneEmail | backend/app/jobs/reminders.py:246-265 | at most one email leaves for a delivery, whatever is lost, repeated or crashes |
| Protocol.OneFinalizer | backend/app/jobs/reminders.py:266-304 | at most one finalizer writes a result, worker or classifier, and the result stands |
| Protocol.NeverClaimableAgain | backend/app/jobs/reminders.py:50-64 | an attempted delivery is never claimable or authorized again |
| Protocol.EmailsAreDue | backend/app/jobs/reminders.py:128-192 | every email handed to a worker in a run is due under the schedule in force, so an earlier cancelling or moving commit has won |
| Protocol.SupersededCyclesStaySilent | backend/app/domain/notes.py:186-199 | once a rule has moved to a later cycle, earlier cycles are never authorized |
| Protocol.OldTasksAreIgnored | backend/app/jobs/reminders.py:128-129 | once a delivery was claimed again, no task of an earlier claim can authorize it |
| Protocol.ClosedAndPurgedForGood | backend/migrations/versions/0004_storage_contract.py:205-315 | closed actions never reopen, purged rows are never written, and redaction holds in every state |
| Protocol.NoLegacyEver | backend/app/api/router.py:1290-1297 | no reachable state has a row with the legacy marker |
| Protocol.RunOnTime | backend/app/jobs/reminders.py:50-77 | with forward clocks no reachable state holds a delivery claimed or written off early |
| Protocol.FutureRemindersAreArmed | backend/app/domain/notes.py:118-227 | with forward clocks, in every reachable state each enabled reminder of a live note that lies ahead is pending and due at its offset, whatever deactivated, trashed, moved or restored the note before |
| Delivered.NothingBeforeItsTime | backend/app/jobs/reminders.py:50-77 | whatever the clocks did, no delivery is missed or attempted before its deadline |
| Delivered.ReportsAreRecorded | backend/app/jobs/reminders.py:266-282 | in every run a report on an open attempt leaves the result, code and time its outcome stands for |
| Delivered.ResultsAreTrue | backend/app/jobs/reminders.py:245-304 | in every reachable state what is sent was accepted by SMTP for a valid recipient, what failed was refused or had no valid address, and what is unknown was ambiguous or never reported |
| Versions.TxVersions | backend/app/db/models.py:40-94 | every transaction bumps the version of each note and series it writes |
| Versions.NoLostUpdate | backend/app/api/router.py:310-422 | two accepted requests that rewrite a note were made for different versions of it, the later one for the later version |
| Versions.NoLostSeriesUpdate | backend/app/api/router.py:826-1243 | the same for every two requests that write under one series |
| Protocol.ForwardRunsKeepKeysUnique | backend/app/api/router.py:948-1005 | in runs whose splits go forward, segment keys lie in disjoint ordered intervals and none repeats in a lineage |
| Retention.TxReleases | backend/app/jobs/maintenance.py:34-57 | only the restore of its action or a purge past its deletion takes a note out of an action, and only such a purge purges it |
| Retention.NoEarlyPurge | backend/app/jobs/maintenance.py:34-40 | in no run is a note purged earlier than the retention period after its deletion |
| Retention.RestorableWithinRetention | backend/app/api/router.py:1173-1243 | with forward clocks an open action that nobody restores stays open, whatever else happens, and its restore succeeds exactly until its retention is over |
| Retention.TxTakes | backend/app/api/router.py:350-422 | a note deleted on its own is left as it was, but for its version, by every transaction but its restore, a split of its series at or before it, and a purge past its deletion |
| Retention.NoteRestorableWithinRetention | backend/app/api/router.py:401-422 | with forward clocks a note deleted on its own that nobody restores or splits away stays as it was, and its restore succeeds exactly until its retention is over |

## Left out

- Recurrence.ExpandOccurrences: models the zone as a table of transitions; how the tz database and dateutil compute it is not part of this model, nor is the overflow of `astimezone` at the edges of the calendar.
- Protocol.Safety: starts from a store with no rows but tags; stores migrated from earlier schema versions are not part of this model.
- ReminderJobs.ScanAndEnqueue: states termination and completeness without a concurrent writer; interleaved scans are steps of `Protocol`.
- Cleanup.CleanupTrash: states termination and completeness without a concurrent writer; interleaved batches are steps of `Protocol`.
- TrashListing.ListTrashGroups: gives the id of the preview note, not its rendered response; ids are ordered as numbers, which is the order of their canonical strings.
- Outbox.PublishBatch: keeps its own table of rows; the payloads are the events that the transactions append to `Db.outbox`.
- Rows are values in maps that a transaction replaces, not shared ORM objects; flush order inside a transaction is not modelled, only the version bumps it causes.
- One clock reading per transaction, although some handlers read the clock twice.
- `skip_locked`: a query returns whatever is claimable; two overlapping scans are two steps in some order.
- `updated_at` and `created_at` columns, except that writing them bumps the version; the `id` tie-breaks of ordered queries.
- White space is space, tab, line feed and carriage return; Unicode white space is not modelled.
- The 30-day deletion of notifications, which only removes history.
- `materialize_note`, which has no caller; `future_only`, which the reconciliation ignores.
- Creating and renaming tags, profile settings, search, calendar and notification listings, the preview of a series: they write nothing that the results are about.
- SMTP, Redis, Celery and WebSocket transport: they succeed, fail, lose or repeat.
- The toast that a realtime event may show, reconnection timers and the query cache.
- That a lost task is eventually recovered: the lease makes its delivery claimable again, but no result here is about when a scan runs.
