# Task runs, backfills and derived state, verified

A Dafny model of the service's background work: how tasks are submitted, delivered, retried and settled
over one shared `task_runs` table, how the backfill pump drives that protocol, which derived state is kept
beside the table, and a handful of smaller stateful machines (the in-process queue, the one-shot queue, the
event stream, the paged export, the vector object ids).

## The task-run protocol

`Protocol` is a transition system. A `World` holds the table rows, every submitter with its program counter
and saved reads, the sequence of hand-overs to the queue, the queue's messages, and every delivery with its
phase. A `Step` is one database or queue effect: the key check, the latest-run read, the guarded insert, the
two re-checks, the enqueue, the rejection write; a delivery, the attempt read, the in-progress write, the
outcome write, the HTTP answer, and a crash at any of these points. A submitter may also stop with an error
before any of its effects. `IsRun` is any interleaving of enabled steps from an empty service.

* `ProtocolSafety` assumes nothing about deliveries: ordinals are exactly 1..n, a backfill key has one run
  and one enqueue call for ever, all answers for a key agree, lost inserts and refusals have a cause, and
  the logical id identifies the same runs as the identity columns.
* `RowHistory` and `Progress` assume nothing either: every column of every row is determined by the steps that
  touched it, and every submission and delivery can go on whatever the others do, and ends.
* `Discipline` adds the three environment assumptions, as the predicate `Permitted` on delivery steps.
  (E1) `NoOverlap`: deliveries of one run do not overlap. (E2) `OnlyAccepted`: only an accepted hand-over is
  delivered, with the task that was handed over. (E3) `NotExhausted`: a recorded `CompleteFailure` is not
  delivered again. Under them, `DisciplineSafety` shows, each logical task has at most one run in flight,
  settled runs are never written again, and status and columns agree.
* `Redelivery` bounds deliveries. `Reliable` states that an acknowledged message is not delivered again
  (no other infrastructure failure than a crash).
* `Settlement` says when a run in flight can still be settled: some continuation within E1-E3 settles it if
  and only if its submitter has not stopped between its insert and the end of its hand-over.
* `Claims` traces rows and answers back to their causes in the history, and `FollowUps` says what the index
  submission after an illumination can rely on.
* `TaskMasters` holds the code's own form: the classes `TaskRunTracker` and `TaskMaster` with methods that
  update the rows, each proved against a specification function, and lemmas that say an undisturbed
  submission or delivery is a path of the protocol. `SubmitCases` and `DeliveryMeans` say what either comes to,
  in terms of the table before it.

None of the three assumptions can be dropped: `Counterexamples` has, for each, a run that breaks only that one
and changes a settled row. `TaskMasters.SettledRunIsResurrectedIffExhausted` shows for E3 that a delivered
settled run is taken up again exactly when it is an exhausted `CompleteFailure`.

A follow-up that is refused or told already-submitted counts as done in the code. `Counterexamples` has three
runs within E1-E3 that show what this does not guarantee. No index run need be in flight when the illumination
succeeds. A refused follow-up may rely on an index run that has read older data. And when a tagged illumination
is executed again after a crash, its second follow-up is told that the index run was already submitted, so the
index stays on the first result. `FollowUps.IndexFollowsStore` gives the exact condition on every run: the index
run succeeds only by an attempt that starts after the store, unless it had succeeded or was being executed when
the follow-up relied on it, and from a state where it is being executed it can succeed without one. Under E1-E3
`FollowUps.StatusShowsFreshness` lets a caller read the condition off the status. `IsRouted` states the order of
the illumination route (follow-up answered before the success is recorded); under it every succeeded
illumination has its follow-up and an index run, under any interleaving. The code's own delivery keeps that
order: `FollowUps.LoneDeliveryIsRouted` continues any such run by an undisturbed delivery, and
`Counterexamples.RefusedFollowUpMayBeStale` is such a run too.

## The event stream

`SseStream` is one connection on its own; `LiveStatus` places it beside a run of the protocol. The route
subscribes first and queries the catch-up second. `LiveStatus.LastFrameIsNewestIff` says exactly when a
receiver that has caught up shows a task's newest persisted status in its last frame about it: if and only if
nothing has inserted or written a run of the task since the write that was announced last, or since the catch-up
query if none was announced. Announcements may be lost, late or repeated. Announcing all writes of the task in
their order is enough (`InOrderIsQuiet`). The code announces after it commits, so another submitter can see a
settled run and announce the next one first; `Counterexamples.LateAnnouncementHidesNewerRun` is such a stream,
and its last frame carries the older run.

## The backfill pump

`PumpCoverage` places pumps inside a run of the protocol: selection reads the table of one state, and each
target has its own protocol submitter, interleaved in any way with the others and with everything else. Its
results need two kinds of conditions, both named: `Sole` (no other submitter inserts a run for this backfill)
and `AllUnhindered` (no submission stops before its insert, meets a taken run id, reads a run in flight, or sees
a foreign insert of its task between its read and its insert). A submission that stops later, after its row is
in the table, does no harm to them. `BackfillPump` holds the code's form, the counts and the dry latch.

## Code and documentation

Where the code and its documentation differ, the model follows the code. The comment on the catch-up
says only a running status has an estimate worth replaying, while the live publisher attaches one to every
status; `Catchup.ReplayEqualsLiveIff` gives the exact condition under which the two events are equal, and
`Catchup.RunningReplayEqualsLive` says when a run in progress meets it. The comment on illuminations says they
are only ever appended, while a retry rewrites the run's row in place with its old id;
`IlluminationStore.RetryKeepsShownRun` states what that means for the row shown.

## Layout

| file | content |
|---|---|
| `Options.dfy`, `Decimals.dfy`, `Orders.dfy` | optional values; decimal printing and its inverse; sorting by a key and first occurrences |
| `Statuses.dfy`, `Tasks.dfy`, `RunTable.dfy` | status codes, task identity and logical ids, the table with its keys, queries and writes |
| `Protocol.dfy`, `ProtocolSafety.dfy`, `Discipline.dfy`, `DisciplineSafety.dfy`, `Redelivery.dfy` | the transition system, what always holds, what holds under E1-E3, and the redelivery bound |
| `RowHistory.dfy`, `Progress.dfy` | what each column of a row says about the steps before; every submission and delivery can go on and ends |
| `Settlement.dfy`, `LiveStatus.dfy` | runs that can still be settled; what a caught-up stream shows |
| `Claims.dfy`, `FollowUps.dfy`, `Counterexamples.dfy` | causes of rows and answers, follow-up submissions, and concrete runs that show what fails |
| `TaskMaster.dfy` | submission and delivery in the code's form |
| `Backfill.dfy`, `PumpCoverage.dfy`, `BackfillPump.dfy` | selection and keys; pumps and series of pumps in the protocol; counts, the dry latch and the code's loop |
| `Timing.dfy`, `Catchup.dfy`, `Illumination.dfy` | derived state |
| `LocalDispatcher.dfy`, `OneShotQueue.dfy`, `SseStream.dfy`, `EntityExport.dfy`, `ObjectIds.dfy` | smaller machines |

## Model

| member | source | states |
|---|---|---|
| `Statuses.FromI32` | src/task/taskrunstatus.rs:50-61 | decoding a stored code is the exact inverse of encoding: codes 0 to 5 and no others are known, each for one status |
| `Statuses.StoredCodes` | src/task/taskrunstatus.rs:50-61 | which code stands for which status |
| `Tasks.LogicalIdInjective` | src/task/task_def.rs:57-65 | two tasks with letter-and-underscore type names share a logical id only if owner, task type, entity type and entity id all agree, negative ids included |
| `Tasks.SameLogicalIdIff` | src/task/task_def.rs:57-65 | two tasks share a logical id iff they are of one kind, of one owner and about one entity, whatever else they carry |
| `Tasks.DocumentedId` | src/webhook/r_illuminate.rs:10-10 | the ids have the documented form for every owner and entity |
| `RunTable.FindRun` | src/task/taskruntracker.rs:239-251 | the returned row has the asked run id; none is returned only if no row has it |
| `RunTable.FindKey` | src/task/taskruntracker.rs:226-236 | the returned row carries the backfill tag and logical id; none only if no row does; an absent tag never matches |
| `RunTable.LatestRun` | src/task/taskruntracker.rs:204-223 | the returned row has the greatest ordinal of its logical task; none only if the task has no row |
| `RunTable.WriteStatus` | src/task/taskruntracker.rs:81-128 | a status write changes exactly the row with that run id, keeps every identity column, and does nothing when the row is missing |
| `RunTable.OrdinalsAreExactlyOneToN` | src/model/task_run.rs:36-38 | in a table whose ordinals count up by insertion, an ordinal is taken iff it lies between 1 and the number of runs of the task |
| `RunTable.LatestIsCount` | src/task/taskmaster.rs:56-65 | the latest run's ordinal is the number of runs, so the decided next ordinal is the next free one |
| `RunTable.TableSurvivesInsert` | src/database/indexes/task_run.rs:9-22 | an insert the unique keys accept, with an ordinal decided from any earlier state of the table, keeps ordinals contiguous and both keys and the run ids unique |
| `RunTable.TableSurvivesWrite` | src/task/taskruntracker.rs:81-128 | no status write breaks the table invariants |
| `ProtocolSafety.InvariantStep` | src/task/taskmaster.rs:169-249 | every step of every submitter and worker keeps the protocol invariant and leaves every row in place with its identity |
| `ProtocolSafety.InvariantHolds` | src/task/taskmaster.rs:169-299 | every reachable state satisfies the protocol invariant |
| `ProtocolSafety.RowsPersist` | src/task/taskruntracker.rs:47-128 | between any two states of a run rows never move, vanish or change identity |
| `ProtocolSafety.OneRunPerKey` | src/database/indexes/task_run.rs:22-22 | over the whole history at most one run exists per backfill id and logical task |
| `ProtocolSafety.OneEnqueuePerKey` | src/task/taskmaster.rs:220-243 | two different queue calls never concern runs with the same tagged key, so a key is handed over at most once |
| `ProtocolSafety.AnswersAgree` | src/task/taskmaster.rs:251-267 | any two answers ever given for one tagged key, as enqueued or as already submitted, by any submitters at any times, name the same run id and ordinal |
| `ProtocolSafety.ReachableOrdinals` | src/task/taskmaster.rs:56-65 | in every reachable state the ordinals of a logical task are exactly 1..n and grow with insertion order |
| `ProtocolSafety.ConflictMeansLostRace` | src/task/taskruntracker.rs:45-71 | a conflicting insert always has a competitor that took the tagged key after the key check or the ordinal after the read |
| `ProtocolSafety.LossHasACompetitor` | src/task/taskmaster.rs:203-218 | the same over whole runs: the competing row is absent in the state where this submitter read and present where its insert fails |
| `ProtocolSafety.RefusalHasACause` | src/task/taskmaster.rs:184-218 | a refusal implies that the latest run was in flight at the submitter's own read, or that a run with the next ordinal and not of this tag committed since |
| `ProtocolSafety.ColumnsAgreeWithLogicalId` | src/backfill/engine.rs:74-88 | on every reachable table matching a run's identity columns and matching its logical id are the same test |
| `RowHistory.RowsTellHistory` | src/task/taskruntracker.rs:47-201 | on every run every row tells its history: created, updated and started at the last such step, status and attempts of its last touch (for a recorded result: success iff Ok, retry iff an error below the attempt limit with a 5xx status, else failure), each duration from the last start to the last end of that kind, and the error code of the last erring touch |
| `RowHistory.RecordAnswers` | src/webhook/http_status_for_task_run.rs:10-22 | on every run the worker that records a result answers 204 for Ok, 500 iff the error is a server error and attempts remain, and 200 otherwise |
| `Progress.SubmissionsEnd` | src/task/taskmaster.rs:169-249 | in every run a submission takes at most six steps of its own, can go on from every point before its answer whatever the others do and with either answer of the queue, and can be stopped there |
| `Progress.DeliveriesEnd` | src/webhook/r_illuminate.rs:14-45 | in every run a delivery takes at most five steps of its own, can go on with whatever result from every point before its end, and can crash there |
| `Claims.RowHasItsInsert` | src/task/taskruntracker.rs:47-71 | a row that appears between two states of a run was put there by an accepted insert between them, with that submitter's run |
| `Claims.KeyHasItsClaim` | src/database/indexes/task_run.rs:22-22 | a tagged key that becomes taken was claimed by an accepted insert in between |
| `Claims.AlreadyHasARival` | src/task/taskmaster.rs:186-211 | whoever is told already-submitted although its key was free in an earlier state has another submitter that claimed the key in between, whichever of the three checks gave the answer |
| `Claims.LossIsForeign` | src/task/taskmaster.rs:203-218 | a submission that is refused after a lost insert has a foreign insert of its task between its own read and that insert |
| `Claims.RefusalIsRechecked` | src/task/taskmaster.rs:186-218 | every refusal was given by a re-check that found the submission key free, whichever read or lost insert sent the submission there |
| `Claims.ErrorHasACause` | src/task/taskmaster.rs:203-243 | a submission that errs was stopped before its insert, met a taken run id, or a run of its task under its tag is in the table |
| `Claims.RefusalIsHindered` | src/task/taskmaster.rs:184-218 | a refused submission read a run in flight, or another submitter inserted a run of the task under another tag between its read and its insert |
| `Claims.UnhinderedIsPresent` | src/task/taskmaster.rs:169-249 | under any interleaving, a submission that is answered, was not stopped before its insert, met no taken run id, read no run in flight and saw no foreign insert of its task between its read and its insert leaves a run of its task under its tag, even if it fails later |
| `Claims.QuietIsUnhindered` | src/task/taskmaster.rs:180-218 | under E1-E3 it is enough that the task is idle before the submission starts and that, until its own insert, it does not stop or meet a taken run id and nobody else inserts a run of the task |
| `DisciplineSafety.GovernedHolds` | src/task/taskmaster.rs:269-352 | under E1-E3 the whole strengthened invariant holds in every reachable state |
| `DisciplineSafety.AtMostOneInFlight` | src/task/taskmaster.rs:180-218 | under E1-E3 a logical task never has two runs in flight, and the one in flight is its highest-numbered |
| `Discipline.SettledStays` | src/task/taskmaster.rs:71-78 | one step never changes a settled row in any column |
| `DisciplineSafety.SettledForever` | src/task/taskmaster.rs:278-299 | under E1-E3 a settled row is the same row in every later state, lost acknowledgements included |
| `DisciplineSafety.SupersededForever` | src/task/taskmaster.rs:56-65 | once a run has a successor it is settled, now and in every later state |
| `DisciplineSafety.BegunCountsAttempts` | src/task/taskruntracker.rs:150-162 | the bookkeeping counter equals the number of in-progress writes in the history for that run |
| `DisciplineSafety.RowsStayConsistent` | src/task/taskruntracker.rs:135-201 | in every reachable row status, attempts, start time and success duration agree, and `attempts` is the number of attempts begun on that very run |
| `DisciplineSafety.NoBadRequest` | src/webhook/r_spark.rs:17-21 | no worker ever answers 400: empty sparks are refused at submission, so the early rejection is unreachable |
| `Redelivery.BoundedHolds` | src/task/taskmaster.rs:303-352 | in every reachable state deliveries split into retried, crashed, acknowledged and open ones, and fewer retries than the limit were answered |
| `Redelivery.CountersCountSteps` | src/webhook/r_illuminate.rs:20-44 | the delivery and crash counters equal the numbers of such steps in the history |
| `Redelivery.RedeliveryEnds` | src/task/taskmaster.rs:303-352 | a run with c crashed deliveries is delivered at most max_attempts + c times, and after that many closed deliveries it has been acknowledged |
| `Redelivery.DeliveriesStartWithinBound` | src/task/taskmaster.rs:460-469 | each delivery that starts finds the bound not yet used up; the limit is at least one by the clamp |
| `Redelivery.AcknowledgedIffTerminal` | src/webhook/http_status_for_task_run.rs:10-22 | the answer is 2xx exactly for a settled outcome, and any other outcome leaves retry budget |
| `Settlement.AcknowledgedIsSettled` | src/webhook/r_illuminate.rs:20-44 | under E1-E3 a message that was acknowledged, and a worker about to answer with a 2xx, belong to a settled run |
| `Settlement.StrandedIff` | src/task/taskmaster.rs:203-243 | under E1-E3 a run in flight is held by its submitter or accepted and unacknowledged in the queue, except exactly when its submitter stopped between the insert and the end of the hand-over |
| `Settlement.CanSettleIff` | src/task/taskmaster.rs:203-243 | from every state of a permitted run, a run in flight is settled by some permitted continuation iff its submitter did not stop between the insert and the end of the hand-over |
| `Settlement.OrphanForever` | src/task/taskmaster.rs:220-243 | under E1-E3 a stranded run keeps its queued row in every later state |
| `Settlement.StrandedBlocksTask` | src/task/taskmaster.rs:56-65 | in every state after a run was stranded the next ordinal of its task is refused |
| `TaskMasters.SubmitCases` | src/task/taskmaster.rs:169-249 | an undisturbed submission answers already-submitted with the run that carries the key iff the key is taken, refuses iff the highest-numbered run is in flight, errs without a row iff the run id is taken, and otherwise adds exactly one row with the next ordinal, queued or marked failed with code 500; it keeps all table invariants |
| `TaskMasters.LatestInFlight` | src/task/taskmaster.rs:56-65 | no next ordinal is decided iff the row whose ordinal is the run count is in flight |
| `TaskMasters.SubmitIsAProtocolPath` | src/task/taskmaster.rs:169-249 | from any state an undisturbed submission is a path of protocol steps with the same table, queue call and answer |
| `TaskMasters.WorkIsAProtocolPath` | src/logic/beacon.rs:38-65 | the follow-up of an undisturbed attempt is one more submitter's path, with the same table and queue call and no effect on workers |
| `TaskMasters.DeliveryIsAProtocolPath` | src/webhook/r_illuminate.rs:14-45 | an undisturbed delivery, its follow-up submission included, is a path of protocol steps with the same table, queue calls and answer |
| `TaskMasters.DeliveryMeans` | src/webhook/r_illuminate.rs:14-45 | said of the table before a delivery: finished or never submitted runs are answered 204 and nothing changes; otherwise the attempt succeeds (204, `CompleteSuccess`) iff the execution is Ok and, for a projected V2 illumination, the index key is taken, or the index task is busy, or the run id is free and the queue accepts; an error is retried (500) iff attempts remain and it is a server error, a follow-up's error counting as 500, and fails for good (200) otherwise; a follow-up run is handed over iff the task is projected, the key free, the task idle and the run id free, and then it is the capture's index task with the next ordinal under the parent's tag |
| `TaskMasters.SettledRunIsResurrectedIffExhausted` | src/task/taskmaster.rs:71-78 | a delivered settled run is started again iff it is a `CompleteFailure`; otherwise it is acknowledged with 204 and nothing changes |
| `TaskMasters.LoneSuccessHasItsFollowUp` | src/logic/beacon.rs:38-65 | an undisturbed follow-up submission of a projected V2 illumination that does not err leaves the parent's tag taken for the index task or an index run of the capture in flight, under the same owner and capture; a run it hands over is the follow-up task under the parent's tag |
| `FollowUps.AnsweredFollowUpReliesOn` | src/logic/beacon.rs:38-65 | under any interleaving, a follow-up answered without an error has an index run of its capture to rely on: its own, one under its tag, one in flight at its own read, or one inserted since; the state relied on is the one where the follow-up starts unless its own read found the run in flight |
| `FollowUps.SuccessNeedsAttempt` | src/task/taskmaster.rs:278-352 | a run that nobody executes in a state and that has not succeeded yet succeeds only by an attempt started later, with no assumption on deliveries |
| `FollowUps.IndexFollowsStore` | src/webhook/r_illuminate.rs:30-36 | on every run, the index run a follow-up relies on succeeds only by an attempt started after the illumination was stored, unless it had succeeded or was being executed in the state relied on; and from there it can succeed without a new attempt iff it was being executed |
| `FollowUps.StatusShowsFreshness` | src/task/taskmaster.rs:278-299 | under E1-E3 a run that is absent, or neither in progress nor succeeded, is not being executed, so a status read decides the condition |
| `FollowUps.StaleSuccessIff` | src/task/taskmaster.rs:278-352 | the exact condition: a run can still succeed without a new attempt iff some worker is executing it |
| `FollowUps.SucceededHasFollowUp` | src/webhook/r_illuminate.rs:30-44 | under any interleaving of deliveries that follow the route, a projected V2 illumination recorded as a success has a follow-up started by its worker during the execution and answered without an error before |
| `FollowUps.SucceededHasIndexRun` | src/logic/beacon.rs:38-65 | and so an index run of its capture to rely on |
| `FollowUps.LoneDeliveryIsRouted` | src/webhook/r_illuminate.rs:14-45 | a run that keeps the order of the route can be continued by an undisturbed delivery as the code performs it, with the table and answer of the code, and still keeps that order |
| `Counterexamples.RefusedFollowUpFindsNothingInFlight` | src/logic/beacon.rs:50-62 | a concrete run within E1-E3 in which an untagged follow-up loses a race to an index run that is already done, the illumination succeeds, no row is in flight and none is tagged |
| `Counterexamples.RefusedFollowUpMayBeStale` | src/logic/beacon.rs:50-62 | a concrete run within E1-E3 and in the order of the route in which the follow-up of an illumination is refused for an index run in progress; both then succeed although no attempt starts after the follow-up did |
| `Counterexamples.TaggedFollowUpStaysStale` | src/logic/beacon.rs:50-62 | a concrete run within E1-E3 in which a tagged illumination crashes after its follow-up, stores again, and its second follow-up is told already-submitted for an index run that had succeeded before the second store |
| `Counterexamples.StoppedSubmitterStrandsRun` | src/task/taskmaster.rs:203-224 | a concrete run within E1-E3 in which a submitter stops after its insert and leaves a run in flight that nobody holds and the queue does not know |
| `Counterexamples.LateAnnouncementHidesNewerRun` | src/task/taskruntracker.rs:105-127 | a concrete run within E1-E3 and a concrete stream beside it: two writes of one task are broadcast in the other order, the client has received both, and its last status frame does not carry the newest status |
| `Counterexamples.OverlapOverwritesSuccess` | src/task/taskmaster.rs:276-277 | E1 is needed: a run that keeps E2 and E3 and in which a failure overwrites a recorded success |
| `Counterexamples.RejectedDeliveryRevivesRun` | src/task/taskmaster.rs:224-243 | E2 is needed: a run that keeps E1 and E3 and in which a failed submission becomes in progress |
| `Counterexamples.ExhaustedRedeliveryDoublesWork` | src/task/taskmaster.rs:1671-1676 | E3 is needed: a run that keeps E1 and E2 and ends with two runs of one task in flight |
| `TaskMasters.TaskRunTracker.InsertRun` | src/task/taskruntracker.rs:47-71 | a queued row is appended iff run id, ordinal and tagged key are all free; a taken run id is an error and not a lost race; otherwise nothing changes |
| `TaskMasters.TaskRunTracker.Write` | src/task/taskruntracker.rs:81-128 | the tracker's rows become the status write of the old rows |
| `TaskMasters.TaskMaster.AlreadySubmittedRun` | src/task/taskmaster.rs:251-267 | without a tag there is no answer; with one the answer names the run that carries it |
| `TaskMasters.TaskMaster.SubmitInner` | src/task/taskmaster.rs:169-249 | the table, the answer and the hand-over are those of the specified submission, and a sound table stays sound |
| `TaskMasters.TaskMaster.BeginAttempt` | src/task/taskmaster.rs:278-299 | there is no attempt iff the run's row is `CompleteSuccess` or `SubmissionFailed`, and then nothing changes; otherwise that row is in progress with one more attempt and a new start time, a missing row counts as a first attempt, and no other row changes |
| `TaskMasters.TaskMaster.FinishAttempt` | src/task/taskmaster.rs:303-352 | success iff the result is Ok, retry iff it is an error, the attempt is below the limit and the HTTP status is 500 to 599, terminal failure otherwise; the run's row gets that status, the attempt number, the duration since its start in the column of its kind and, on an error, the inner code, and keeps everything else; no other row changes |
| `TaskMasters.TaskMaster.Post` | src/webhook/r_illuminate.rs:14-45 | one delivery: begin, execute, submit the follow-up under the parent's tag, finish, answer, as specified; on a sound table it means what `TaskMasters.DeliveryMeans` says |
| `Backfill.SelectionIsForemostPending` | src/backfill/engine.rs:67-110 | a batch holds exactly the `limit` foremost unsubmitted targets, or all of them, each once, by descending entity id and then descending owner id |
| `Backfill.RegisteredIsFaithful` | src/backfill/illuminate_v2_backfill.rs:12-36 | the registered definition builds for each target a task with exactly that target's identity columns, and one that is followed by an index task of the same capture and owner |
| `Backfill.ReachableIsSound` | src/task/taskruntracker.rs:47-128 | every table the protocol can reach meets what the pump's lemmas ask of a table |
| `Backfill.ExclusionAgreesWithKey` | src/backfill/engine.rs:74-88 | the pump's column-wise exclusion holds iff the submission key is taken |
| `Backfill.SubmitTouchesOwnTarget` | src/backfill/engine.rs:138-153 | a submission changes no other target's submitted status and keeps the table sound |
| `Backfill.SubmittedOnce` | src/database/indexes/task_run.rs:22-22 | on a sound table a submitted target has exactly one tagged run |
| `PumpCoverage.AlreadyMeansRival` | src/backfill/engine.rs:138-153 | a pump whose submissions are protocol submitters, interleaved with anything, is told already-submitted only if a submitter outside it inserted a run for this backfill while it was under way |
| `PumpCoverage.NoneAlreadySubmitted` | src/backfill/engine.rs:138-153 | hence without a concurrent submitter of the backfill no submission of the pump is answered already-submitted |
| `PumpCoverage.NewTagIsOfBatch` | src/backfill/engine.rs:138-153 | without a concurrent submitter of the backfill a pump makes no target submitted but those of its batch |
| `PumpCoverage.TargetGetsSubmitted` | src/backfill/engine.rs:138-153 | the submission of a target that nothing hinders before its insert leaves its tagged run, whatever its answer, rejected enqueues and later failures included |
| `PumpCoverage.PumpSubmitsItsBatch` | src/backfill/engine.rs:112-166 | an unhindered pump removes exactly its batch from the pending targets, at most `limit` of them |
| `PumpCoverage.IdleTargetsAreUnhindered` | src/backfill/engine.rs:90-92 | under E1-E3 a pump is unhindered if its targets are idle at selection, no submission stops before its insert, run ids are fresh, and nobody else inserts runs of a target before its own insert |
| `PumpCoverage.SeriesShrinksPending` | src/backfill/engine.rs:112-166 | in one run of the protocol, after m pumps the pending targets have shrunk by m times the limit, down to none |
| `PumpCoverage.SeriesCoversAll` | src/backfill/engine.rs:90-110 | once the pumps have room for all targets, every target has exactly one tagged run and selection finds nothing, now and later while nobody else inserts for the backfill |
| `BackfillPump.StreakStart` | src/backfill/engine.rs:196-207 | the start of the maximal trailing run of dry pumps |
| `BackfillPump.LatchFollowsHistory` | src/backfill/engine.rs:196-229 | over any interleaving of dry checks and records, several pumps past the check included, the record's time is that of the last record and `dry_since` is the record time of the first pump of the trailing dry streak, none if the last one found work |
| `BackfillPump.DryNeverAfterLastPump` | src/backfill/engine.rs:201-207 | when records are timed in their order, `dry_since` never exceeds `last_pumped_at` |
| `BackfillPump.CoveredBackfillLatches` | src/backfill/engine.rs:155-155 | after a series of pumps with room for all targets the next pump records dry, which latches, and an unforced request after it is refused |
| `BackfillPump.PumpCounts` | src/backfill/engine.rs:132-165 | for a pump interleaved with anything each count is the number of answers of its kind and selected = enqueued + already + refused + errors; without a concurrent submitter of the backfill already = 0 |
| `BackfillPump.TallyCounts` | src/backfill/engine.rs:138-153 | for any outcomes the tally holds the number of each kind, and the error list holds the erring targets in batch order |
| `BackfillPump.EnqueuedAreQueued` | src/backfill/engine.rs:138-153 | left alone on a sound table the enqueued count is the number of rows the loop adds as queued |
| `BackfillPump.RefusedIffLastRanDry` | src/backfill/engine.rs:112-194 | a request is refused iff its limit is zero or it is unforced and the last pump that recorded was dry; asking changes nothing |
| `BackfillPump.Engine.SubmitBatch` | src/backfill/engine.rs:131-153 | the submission loop leaves the table of submitting each target in turn; each count is the number of outcomes of its kind, the errors list in order the targets that erred, and on a sound table the enqueued count is the number of queued rows added |
| `BackfillPump.Engine.Pump` | src/backfill/engine.rs:112-166 | a zero limit and a latched unforced request change nothing; otherwise the counts are those of the outcomes, enqueued is the number of queued rows added, they add up to the selected batch, and the record is upserted as dry iff the batch was empty |
| `BackfillPump.PumpIsAProtocolPath` | src/backfill/engine.rs:138-153 | the code's loop over a batch, left alone, is a path of protocol submitters with the same table and the same answers |
| `BackfillPump.LonePumpCountsNoneAlready` | src/backfill/engine.rs:133-143 | the code's own pump, left alone on a sound table, reports an already-submitted count of zero |
| `Timing.WindowIsUnique` | src/task/timing.rs:97-99 | a newest-first order of the samples with distinct update times starts with the window, its first thirty or all |
| `Timing.WindowIsNewest` | src/task/timing.rs:82-99 | the window holds update time and duration of successful runs of the type, newest first, at most thirty; a successful run left out is no newer than any of thirty that are in it |
| `Timing.OnlySuccessMovesWindow` | src/task/timing.rs:82-96 | a permitted step that is not a success write of a type leaves the samples of that type unchanged |
| `Timing.SuccessLeavesSample` | src/task/taskruntracker.rs:177-183 | a permitted success write always leaves a sample, so the refresh never skips an empty window |
| `Timing.RefreshHeals` | src/task/taskruntracker.rs:117-125 | a success write whose refresh succeeds makes the aggregate of its type right, whatever was stored before |
| `Timing.OtherWindowsKept` | src/task/timing.rs:82-96 | a permitted step that records no success of a type leaves the window of that type unchanged |
| `Timing.CacheStaysCoherent` | src/task/timing.rs:78-139 | over every permitted run, whichever refreshes fail, the stored processing aggregate of a type equals the aggregate of its newest at most thirty successful runs unless the refresh of its last success failed |
| `Timing.LastStoreDecides` | src/task/taskruntracker.rs:117-125 | when refreshes overlap each other and other writes, in the order in which they store, the stored aggregate is right as soon as the refresh that stored last read the table after the last success of its type; a refresh that reads no sample stores nothing |
| `Timing.AggregateKept` | src/task/timing.rs:78-96 | while no run of a type succeeds its stored aggregate does not change |
| `Catchup.LeaderIsLatest` | src/task/taskruntracker.rs:254-277 | the row with the greatest ordinal of its entity and task type is the row the by-logical-id query calls latest |
| `Catchup.QueryHasResult` | src/task/taskruntracker.rs:264-276 | every sound table has a result with one row per wanted entity and task type |
| `Catchup.CatchupEvents` | src/task/statuscatchup.rs:47-66 | the memoising loop makes one lookup per distinct running task type, no other, and yields the events of direct lookup |
| `Catchup.OneEventPerRow` | src/task/statuscatchup.rs:56-66 | each result row yields one event, in order, with every field of that row; a run in progress carries the median of its type if at least five samples back it, any other run no estimate |
| `Catchup.GroupHasOneLeader` | src/task/taskruntracker.rs:268-274 | each wanted run's group appears in the result exactly once, as the latest run of its logical task |
| `Catchup.CatchupIsExact` | src/task/statuscatchup.rs:35-67 | for each run of the owner about an entity asked for there is exactly one event of its entity and task type; it carries every field of the task's latest run, and all events are the owner's and about entities asked for |
| `Catchup.ReplayEqualsLiveIff` | src/task/statuspublisher.rs:30-51 | with estimates looked up at two times, the replayed event equals the live one iff both show clients the same estimate for a run in progress, or the live one showed none for any other run |
| `Catchup.RunningReplayEqualsLive` | src/task/statuscatchup.rs:56-73 | for a run in progress the replayed event is the one published when its row was written, if no run of its type has succeeded since |
| `Orders.OrderIsUnique` | src/api/schema/infomaker.rs:112-112 | ascending orders of the same elements with distinct keys are equal |
| `Orders.SortRestores` | src/api/schema/infomaker.rs:109-118 | sorting any rearrangement of an ascending list gives the list back |
| `IlluminationStore.WriteRefinesUpdate` | src/api/service/insert_illumination.rs:21-99 | a write refines a map update: the written run shows, column by column, exactly the new illumination, its children and its search text, every other run is untouched, and existing rows keep their ids |
| `IlluminationStore.StoreRefinesLastWritten` | src/api/service/insert_illumination.rs:9-101 | after any sequence of writes the store shows for each task run its last written illumination: one row, one search row, its children |
| `IlluminationStore.PositionsAreExact` | src/api/service/insert_illumination.rs:66-89 | the positions of a run's children are exactly 0..k-1 |
| `IlluminationStore.ReadBackLastWritten` | src/api/schema/infomaker.rs:95-130 | reading a row with its children in any row order returns the capture id, summary, details and searches last written for its run and the entities in their original order, with a platform link kept iff it had a handle |
| `IlluminationStore.CaptureShowsLastWritten` | src/api/schema/infomaker.rs:32-47 | after any sequence of writes the illumination a capture shows is the one last written for the run with the greatest row id |
| `IlluminationStore.NewRunIsShown` | src/api/schema/infomaker.rs:32-47 | the first write of a new run makes it the illumination shown for its capture |
| `IlluminationStore.RetryKeepsShownRun` | src/api/schema/infomaker.rs:37-47 | rewriting an existing run of the capture never changes which run is shown |
| `IlluminationStore.LatestOf` | src/api/schema/infomaker.rs:40-47 | the row shown for a capture has the greatest id among the capture's rows; none only if it has no row |
| `IlluminationStore.InsertChildren` | src/api/service/insert_illumination.rs:66-89 | the reinsertion loop never violates the position key and appends exactly one child per entity |
| `IlluminationStore.Projection.InsertIllumination` | src/api/service/insert_illumination.rs:9-101 | the transaction always commits and leaves the refined store |
| `LocalDispatcher.Connect` | src/task/taskqueue_local.rs:52-82 | the limit is the configured number, and one when that is zero |
| `LocalDispatcher.BoundedAndFifo` | src/task/taskqueue_local.rs:84-151 | in every run the running workers are the dispatched, unfinished ones and with the free permits add up to the limit; until a shutdown dispatched, held and queued jobs concatenate to the jobs of all the sends so far, read off the steps alone, and afterwards the dispatched ones are a prefix of the jobs sent before it |
| `LocalDispatcher.NeverStuck` | src/task/taskqueue_local.rs:89-109 | a live dispatcher with work and nothing running has an enabled step |
| `LocalDispatcher.WaitsOnlyWhenFull` | src/task/taskqueue_local.rs:90-96 | with work and no enabled dispatcher step, all permits are in use |
| `LocalDispatcher.NothingAfterShutdown` | src/task/taskqueue_local.rs:113-129 | after a shutdown nothing more is taken in or dispatched |
| `OneShotQueues.PopNeverPanics` | src/common/oneshotqueue.rs:96-116 | the `expect` and `unreachable!` of a pop are never hit, and a popped item was not popped before |
| `OneShotQueues.AlwaysLawful` | src/common/oneshotqueue.rs:73-142 | after any sequence of calls popped then pending items are the first-time enqueues in order, and nothing is popped or completed twice |
| `OneShotQueues.PopsInOrder` | src/common/oneshotqueue.rs:73-116 | after any calls what was handed out and what waits are the first occurrences of everything offered, in order, and a pop hands out the next of them iff there is one |
| `OneShotQueues.CompletesIffHandedOut` | src/common/oneshotqueue.rs:118-142 | an item is completed by a call iff it was handed out and not completed before |
| `OneShotQueues.BulkIsRepeated` | src/common/oneshotqueue.rs:83-94 | the bulk enqueue has the effect of repeated single ones, and its count is the number of items not seen before |
| `OneShotQueues.OneShotQueue.EnqueueItem` | src/common/oneshotqueue.rs:73-81 | a new item is appended as pending and reported new; a known one changes nothing |
| `OneShotQueues.OneShotQueue.EnqueueIter` | src/common/oneshotqueue.rs:83-94 | the loop enqueues one by one and returns the number of new items |
| `OneShotQueues.OneShotQueue.PopNext` | src/common/oneshotqueue.rs:96-116 | the front item, if any, is removed and reserved |
| `OneShotQueues.OneShotQueue.CompleteItem` | src/common/oneshotqueue.rs:118-142 | only a reserved item is completed; unknown, pending and completed items change nothing |
| `SseStream.StreamIsGapFree` | src/sse/http.rs:53-120 | in every reachable state the status frames are the replayed part of the catch-up list followed by the owner's share of a contiguous prefix of the events broadcast since subscription, read off the steps alone |
| `SseStream.HeartbeatsAreExact` | src/sse/http.rs:53-120 | in every reachable state the heartbeat frames are as many as the heartbeat timer has fired |
| `SseStream.EndIsFinal` | src/sse/http.rs:65-68 | once the stream has ended no frame follows |
| `SseStream.LagDeadlineAndShutdownEnd` | src/sse/http.rs:70-108 | a lagged receive, a fired deadline and an observed shutdown each end the stream without another frame |
| `SseStream.ReceiveDelivers` | src/sse/http.rs:84-120 | a receive emits the next broadcast to its owner, unless more than the ring holds are unread or the closed channel is drained, and exactly then it ends the stream |
| `SseStream.EndHasACause` | src/sse/http.rs:65-120 | a stream ends only by a fired deadline, an observed shutdown, a lost flag holder, a lag or a drained closed channel |
| `LiveStatus.TouchedIsLatest` | src/task/taskruntracker.rs:81-128 | under E1-E3 every row a step inserts or writes is the latest run of its task in the state after the step |
| `LiveStatus.ProgressRises` | src/task/taskruntracker.rs:135-201 | under E1-E3 every write of a run raises its progress (attempts and status together), so no two of its writes are announced alike |
| `LiveStatus.LastFrameIsNewestIff` | src/webui/v2/r_events.rs:39-62 | under E1-E3, for every interleaving and any announcements, lost, late or repeated, the last frame about a task that a caught-up receiver has emitted carries the newest persisted status iff no step has touched the task since the write announced last, or since the catch-up query if none was announced |
| `LiveStatus.InOrderIsQuiet` | src/task/statuspublisher.rs:30-51 | announcing every write of a task since the subscription, in the order of the writes, meets that condition |
| `EntityExport.ListedFrom` | src/api/admin/entities.rs:49-56 | every listed row is a row of the table with a greater id and, if a user is named, of that user |
| `EntityExport.MatchIsListed` | src/api/admin/entities.rs:49-56 | every such row of the table is listed |
| `EntityExport.ListingIncreasing` | src/api/admin/entities.rs:51-51 | the listing is in strictly ascending id order |
| `EntityExport.CursorSplitsListing` | src/api/admin/entities.rs:50-62 | the id of the k-th listed row, used as exclusive cursor, selects exactly the rows after it |
| `EntityExport.PageExtends` | src/api/admin/entities.rs:43-62 | the page after k known rows holds the next `limit` rows and a cursor, or the rest and none |
| `EntityExport.ExportAll` | src/api/admin/entities.rs:43-98 | a client that follows the cursor gets floor(n/limit)+1 pages whose concatenation is the listing |
| `EntityExport.GrowthNeverSkips` | src/api/admin/entities.rs:43-62 | when rows with greater ids are inserted between pages, the rows received are always a prefix of the current listing and all of it when the cursor runs out |
| `ObjectIds.PrintParse` | src/search/capture_searcher.rs:175-201 | for all 32-bit pairs parsing the printed id gives the same pair if both are non-negative and an error otherwise |
| `ObjectIds.ParsesIff` | src/search/capture_searcher.rs:175-201 | an id parses to a pair iff it is u, a number, -c and a number, each of digits after an optional plus sign and at most 2^31-1; no other text parses |
| `ObjectIds.AcceptHit` | src/search/capture_searcher.rs:145-165 | malformed ids, foreign users and the query capture itself are dropped; any other hit gives its capture |
| `ObjectIds.FilterHits` | src/search/capture_searcher.rs:79-104 | the hit loop returns the first occurrences of the caller's own captures |
| `Orders.FirstOccurrencesMeaning` | src/search/capture_searcher.rs:166-168 | first occurrences are the same values, ordered by where they first occur, hence each once |
| `ObjectIds.PrintedHits` | src/search/capture_data_object.rs:10-12 | on a page of printed ids the loops keep a capture iff some hit is that capture printed for the caller and it is not the excluded query capture |

## Left out

- 32-bit overflow of `run_number` and `attempts`: the model counts with unbounded integers.
- Run ids: opaque numbers instead of UUID text; a collision may be chosen by the environment. When an insert would violate the run id and a submission key at once, the model reports the collision.
- Permission checks of submissions, token checks of the worker routes, and the admin check of the export.
- Worker execution (language models, embeddings, storage): any success or error with any HTTP status.
- Error message text and truncation, payload serialisation, tracing.
- A worker's follow-up submission inside `Protocol`: there it is one more submitter; `FollowUps.IsRouted` ties the two as a condition on runs, which `FollowUps.LoneDeliveryIsRouted` shows of an undisturbed delivery.
- Database failures during selection or recording of a pump: the request then has no answer to describe; failures of a submission before its insert are modelled.
- The queue-wait measure, whose window moves on writes that do not refresh it, and the percentile arithmetic: the aggregate is any function of the window.
- CacheStaysCoherent: each refresh is atomic with its status write and is keyed by the written row's task type; `Timing.LastStoreDecides` is the statement for refreshes that overlap.
- Result order of the catch-up query: the lemmas hold for any order.
- Generated ids of entity and search rows, platform URLs, search text rendering, and the raw illumination table.
- The export's capture-archived column and its missing-capture error.
- A failed or skipped catch-up, after which the route streams live events only.
- JSON form of event frames, the clock behind heartbeats and deadlines: both may fire at any wait.
- Backfill status and failure listings, annotations, archive flags, user creation, schema versions.
