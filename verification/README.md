# StoryForge: proofs about whole-book runs, event streams and backfills

A Dafny 4.11 model of the parts of StoryForge whose behaviour is hard to see from
one function at a time, with proofs about every run, every interleaving or every
input. `dafny verify dfyconfig.toml` checks the whole project.

## What is modelled

**The resumable whole-book run.** `BookModel` holds the durable rows of a run (the
run row, jobs, child keys, success events, chapter workflows, accepted versions,
provider calls, snapshots, evaluations) and one function for every transaction of
`BookWorkflowApplicationService` and its neighbours. `BookMachine` turns them into a
state machine: a program counter that a crash erases, an action for every committed
transaction, every raised error, every crash, and for what others do meanwhile
(cancel, pause and resume requests, lease recovery, workflow routes on the in-flight
workflow, other jobs' workflows, accepted versions that appear from elsewhere,
provider calls). A run is any interleaving of
these from what `BookRunService.create` commits. `BookInvariant` states what every
reachable state keeps, `BookPreservation` proves it action by action, and the results
are in `BookTheorems`, `BookCounts`, `BookChecks`, `BookOwnership`, `BookCrashes`,
`BookHandling`, `BookUsage`, `BookBudget`, `BookOverspending`, `BookRounds`,
`BookCauses` (why `execute` stops itself), `BookOutcomes` (what each deciding step comes
to), `BookPeace` (executions in which nothing goes wrong) and `BookCompletion` (every
fresh book within its budget can be completed). The scheduler, the transition table, the
handlers and the relevant parts of the chapter workflow and snapshot services are modelled
as they are in the source.

`BookRows` is the run row and its tables as an object whose methods update fields in
place, and `BookExecute` is `execute` itself: its loop, its review and its revision
round on that object. `BookWorld` holds what it meets and asks: an arbitrary world that
says what others do between two transactions and whether the worker dies or is stopped
there, how the chapter workflows go, what the checks and analyses find and what a
revision plan holds. Every step is proved to be a step of the machine, and every choice
in it `execute`'s own or an answer of the world, so all the theorems hold of it. It is
proved to terminate, to stop itself only for a cause that stands in the rows, and to
complete the run, or stop at the budget gate, when nobody interferes and all goes well.

**The replayable event stream.** `EventStream` is the cursor loop over an append-only
log, `SseWire` prints its frames and parses them by sections 9.2.5 and 9.2.6 of the
HTML Standard, `JsonText` shows that a payload's text is one line, and `JsonReading` that
it is read as the payload again. The session
theorems of `SseWire` join them: any number of connections to the loop, each cut after
any character and chained by Last-Event-ID, for browsers that carry their id buffer over
and for browsers that start it empty.

**Migrations.** `Milestone4` (ranking update in place), `Milestone5` (version rows and
pointers), `FactHash` (normalised, disambiguated hashes) and `FactBackfill` (the two of
them on the facts, one after the other).

**Smaller loops.** `FactFilter`, `UsageBreakdown`, `Pagination`.

`Options`, `FiniteSets`, `Sums` and `Decimals` are shared helpers.

## What the proofs found

Statements that the code or its documentation suggests and that do not hold; each is a
theorem here, with the exact condition where there is one.

1. Inherited workflow. When a chapter's version is accepted and the worker stops before
   recording it, `_sync_already_accepted` marks the chapter accepted but leaves
   `workflow_run_id`. The next scheduled chapter inherits that id, exactly when the run
   row still has one (`BookOwnership.InheritanceExactly`); a completed one makes the
   next chapter "accepted" without any version (`BookCrashes.InheritanceHappens`, from
   any fresh book of two or more chapters). `BookOwnership.OwnershipHolds` is what holds
   as long as the window stays shut.
2. A crash in the middle of a chapter is not always survived. The next execution gets
   past the chapter's workflow exactly when one is in flight that is paused, completed
   or in need of review; otherwise the run fails (`BookCrashes.ResumesExactly`). So a
   crash between marking and linking fails the run (`BookCrashes.MarkCrashFailsRun`), a
   crash after the link is healed once the lease was recovered
   (`BookCrashes.FlightCrashResumes`), and one after the workflow has failed or was
   cancelled is not (`BookCrashes.EndedFlightFailsRun`). `docs/book-runs.md` promises
   resumption without these exceptions.
3. The caps do not bound spending. With no usage update missing, a cap is passed exactly
   when the chapter in flight spends more than the cap leaves
   (`BookOverspending.CapPassedExactly`), and after every passed gate any amount can be
   spent (`BookOverspending.AnySpendingHappens`). Revision workflows start without a
   gate (`BookOverspending.RevisionStartsOverBudget`), although `docs/book-runs.md` lists
   global revision as bounded. `BookBudget.BudgetBound` is the bound that does hold, over
   the whole life of a run.
4. `list_after` returns at most 500 events and the stream then looks at the job status
   in a later query. A stream of a finished job therefore closes with events
   undelivered exactly when more than 500 remained, or some were committed between the
   two queries (`EventStream.ClosesCompletely`, `EventStream.LostAtTheEnd`). Reconnecting
   delivers the rest (`EventStream.ReconnectsDeliver`). `docs/sse.md` says only that
   progress cannot be lost.
5. The idempotency lookup in `_record_chapter_completion` never finds a row in any
   reachable state (`BookTheorems.RecordHandsOver`).
6. A browser whose id buffer is empty at the start of a connection, as section 9.2.6 has
   it, forgets its last event id at the first heartbeat (`SseWire.HeartbeatForgets`) and
   is given events twice (`SseWire.DeliveredTwice`). Such a session delivers every event
   once exactly when each connection keeps the browser's place
   (`SseWire.ConnectExactly`, `SseWire.StandardSessionExactly`): it has no place yet, or
   an event arrived, or no heartbeat did, or nothing of the log lies behind it.
   `docs/sse.md` counts on query deduplication for duplicates.
7. A conflict backfilled by Milestone 5 points to a version of its own chapter only if
   its evaluation is of that chapter, which no constraint asks for
   (`Milestone5.Tables.BackfillConsistent`, with a table in
   `Milestone5.ConflictElsewhere`).
8. An error leaves the run ended exactly when no cancellation is pending
   (`BookHandling.ErrorEndsRunExactly`): the transition table has no way from
   `cancel_requested` to `failed`, and the next execution is refused
   (`BookCrashes.CancelThenErrorSticks`).
9. `needs_review_chapters` is only recounted when a chapter is recorded. Until then it
   stays exact exactly as long as no synchronisation meets a chapter under review that
   has an accepted version (`BookCounts.ColumnExactly`); `BookCrashes.ReviewColumnOverstates`
   is a run in which one does.
10. An accepted chapter on the check interval can still get its periodic check exactly
    while the worker is between its recording and that check
    (`BookChecks.CheckedExactly`). A crash, a pause or an error there loses the check for
    good (`BookChecks.CrashLosesCheck`), although `docs/book-runs.md` says that every
    interval is checked.

## Model

| member | source | states |
|---|---|---|
| BookPreservation.RunKeeps | src/storyforge/application/books.py:70-170 | every state of every run, whatever crashes, pauses, resumes and outside work are interleaved, satisfies the whole invariant of the durable rows and the worker |
| BookTheorems.WorkflowIdsNeverShared | src/storyforge/application/books.py:285-298 | no two job rows ever carry the same workflow id; the top job carries the in-flight id and no child does |
| BookTheorems.RecordHandsOver | src/storyforge/application/books.py:322-359 | recording moves the id from the top job to one new child in one step; the key lookup never hits; no other job, event or map entry changes |
| BookTheorems.JobsPerChapter | src/storyforge/application/books.py:328-359 | over the whole life of a run a chapter has at most one child job from generation plus one per revision round |
| BookTheorems.EventsAndJobMap | src/storyforge/application/books.py:360-381 | exactly one success event per child job and none for others; the job map names an existing child of this run for that chapter |
| BookTheorems.ChecksNeverRepeat | src/storyforge/application/books.py:617-630 | a chapter is followed by at most one periodic check however often execute is re-entered, and only after it was accepted |
| BookTheorems.CountersAgree | src/storyforge/application/books.py:374-388 | accepted and completed equal the counts of the status map; progress is 100 when the run is completed or left for review and otherwise at most 80 |
| BookTheorems.ProgressMonotone | src/storyforge/application/books.py:225 | the round-half-even progress of generation is monotone in finished chapters and at most 75 |
| BookCounts.RoundsToNearest | src/storyforge/application/books.py:388 | the rounding goes to the nearest whole number and on a tie to the even one |
| BookCounts.ProgressEnds | src/storyforge/application/books.py:383-388 | progress goes from 0 to 75, and in books of up to 150 chapters 75 means that all chapters are done; in a book of 151 it does not |
| BookCounts.ReviewsAndChecks | src/storyforge/application/books.py:137-140 | every periodic check follows a multiple of the interval; the needs-review column is exact after a recording and never below the count |
| BookCounts.ColumnExactly | src/storyforge/application/books.py:387 | from any state with an exact column up to the next recording, it stays exact if and only if no synchronisation meets a chapter under review that has an accepted version |
| BookCounts.SyncExactly | src/storyforge/application/books.py:216-224 | a synchronisation keeps an exact needs-review column exact if and only if no chapter under review has an accepted version |
| BookChecks.CheckedExactly | src/storyforge/application/books.py:137-140 | in every reachable state an accepted chapter without a check can still be checked if and only if it is on the interval and the worker is between its recording and its check |
| BookChecks.MissedForever | src/storyforge/application/books.py:617-630 | a missed check stays missed in every later state |
| BookChecks.CrashLosesCheck | src/storyforge/application/books.py:137-140 | a crash between the recording of an accepted chapter and its check loses the check for good |
| BookTheorems.RunGrows | src/storyforge/application/books.py:211-225 | between any two states of a run nothing accepted, no round, check, evaluation, call, child job or end status is taken back |
| BookTheorems.AcceptedForever | src/storyforge/application/books.py:300-309 | an accepted chapter stays accepted through every later crash, pause and re-entry |
| BookTheorems.ReviewNeverGenerates | src/storyforge/application/books.py:463-471 | once a run has reached the global review no chapter is generated again |
| BookTheorems.CompletionIsSound | src/storyforge/application/books.py:583-594 | a completed run has every chapter marked and really accepted, both snapshot columns name a snapshot that was analysed last and passed and that gives every chapter the version accepted for it when the snapshot was built, before the completion; and it stays so |
| BookTheorems.SnapshotsWereAccepted | src/storyforge/services/books.py:283-324 | every snapshot of a run gives every chapter of the book, and nothing else, the version that was its accepted one in a single earlier state about to build a snapshot |
| BookTheorems.AnalysedIsAccepted | src/storyforge/application/books.py:150-152 | a snapshot that is or was just analysed, found or new, holds the versions accepted when the worker asked for it |
| BookTheorems.NextChapterExactly | src/storyforge/application/books.py:79-114 | which of resume, wait, finish, review and schedule follows is decided by the durable row, both directions; a scheduled chapter is the least one not accepted |
| BookCauses.StopsExactly | src/storyforge/application/books.py:101-135 | in every reachable state a step of execute stops it if and only if there is a cause, and with its reason: a status that refuses execution, a cancellation, a chapter running without a workflow, the budget, a workflow that is not safely resumable, paused or badly ended, a failed revision, a critical check, a missing version, a planned chapter outside the book |
| BookCauses.StatusesByPlace | src/storyforge/book/transitions.py:11-73 | in every reachable state the status fits the place of the worker, or a cancellation is pending |
| BookPeace.PeaceLasts | src/storyforge/application/books.py:77-164 | a run whose steps are all smooth from a peaceful state on stays at peace: it can only stop at the budget gate and only return completed |
| BookCompletion.FreshBookCompletes | src/storyforge/application/books.py:142-164 | from every fresh book within its budget, and for every choice of versions, there is a run that ends completed, with both snapshot columns naming the snapshot that gives every chapter the version it had at first or the chosen one |
| BookModel.TableByTarget | src/storyforge/book/transitions.py:11-73 | the transition table read by its targets: from where each status can be reached, and which statuses are final |
| BookOutcomes.EntersExactly | src/storyforge/application/books.py:172-200 | an execution starts in the review exactly when the run was there or had stopped with all chapters finished, in the loop from any other live status, and is refused from the rest |
| BookOutcomes.GateExactly | src/storyforge/application/books.py:390-406 | a chapter passes exactly when 5 calls and 30000 tokens are left and the cost is within its cap; otherwise the run is blocked, or refused when a cancellation is pending |
| BookOutcomes.CheckDecides | src/storyforge/application/books.py:617-630 | in every reachable state a critical check pauses the run and is noted, or is lost to a pending cancellation; any other is noted and the loop goes on |
| BookOutcomes.CompletesExactly | src/storyforge/application/books.py:583-594 | in every reachable state after a passed analysis the run is completed with the analysed snapshot if and only if no cancellation is pending |
| BookOutcomes.RoundOpensExactly | src/storyforge/application/books.py:489-502 | in every reachable state after a first failed analysis a round is opened if and only if a revision was recommended, a round is left and no cancellation is pending; otherwise the run is left for review |
| BookOutcomes.LeftForReviewExactly | src/storyforge/application/books.py:596-609 | a book that needs review, or whose second analysis failed, is left for review unless a cancellation is pending |
| BookOutcomes.HandledExactly | src/storyforge/services/book_runs.py:276-302 | from which statuses the handler pauses, cancels and fails a run, and which it keeps |
| BookOutcomes.CancelledExactly | src/storyforge/services/book_runs.py:255-267 | where a cancellation request takes a run and which runs refuse it |
| BookOutcomes.ResumedExactly | src/storyforge/services/book_runs.py:220-253 | which resumptions happen, to which status and limits, and which are refused |
| BookOutcomes.ConfirmedExactly | src/storyforge/services/book_runs.py:266-274 | a confirmed cancellation ends the run, and takes the workflow in flight with it exactly when that runs or is paused |
| BookOutcomes.PausedExactly | src/storyforge/services/book_runs.py:204-218 | a run without a worker is paused from exactly the working statuses |
| BookOutcomes.RecoveredExactly | src/storyforge/jobs/worker.py:110-120 | a lost lease pauses the workflow in flight exactly when it runs |
| BookOutcomes.OthersExactly | src/storyforge/services/workflow.py:171-186 | which workflows others can move, and that a completion accepts a version of the workflow's own chapter |
| BookOutcomes.RaisedExactly | src/storyforge/application/books.py:117-151 | an error ends the execution at every place, a request for control exactly at the four safe points |
| BookPreservation.CandidateFound | src/storyforge/book/scheduler.py:103-119 | the scheduler's first candidate is the least chapter not accepted, and there is none only when all are |
| BookOwnership.OwnershipHolds | src/storyforge/application/books.py:278-298 | unless a synchronisation opened the window, the in-flight workflow of a running chapter is that chapter's own and every chapter marked accepted has an accepted version |
| BookOwnership.InheritanceExactly | src/storyforge/application/books.py:300-309 | a scheduled chapter keeps a workflow of its own or none if and only if the run row carries no workflow id |
| BookCrashes.InheritanceHappens | src/storyforge/application/books.py:218-222 | from any fresh book within its budget there is a run that records chapter 2 as accepted with chapter 1's workflow and without a version |
| BookCrashes.InheritedIsRecorded | src/storyforge/application/books.py:258-275 | any scheduled chapter that inherits a completed workflow is recorded as accepted with no new version and a child job carrying another chapter's workflow |
| BookCrashes.ResumesExactly | src/storyforge/application/books.py:248-270 | from every reachable idle generating state with a running chapter without an accepted version, the next execution gets past its workflow if and only if one is in flight that is paused, completed or in need of review, and goes on with that one; otherwise the run ends failed |
| BookCrashes.MarkCrashFailsRun | src/storyforge/application/books.py:107-108 | from every reachable scheduling state that is generating, within budget, with no workflow in flight and no accepted version of the chapter, a crash between marking and linking makes the next execution fail the run |
| BookCrashes.FlightCrashResumes | src/storyforge/jobs/worker.py:110-120 | from the same states, a crash right after the link whose lease is recovered is resumed with the same workflow and no second job change |
| BookCrashes.EndedFlightFailsRun | src/storyforge/application/books.py:267-270 | from the same states, a crash after the workflow has failed or was cancelled makes the next execution fail the run |
| BookCrashes.ReviewColumnOverstates | src/storyforge/application/books.py:218-225 | from any fresh book within its budget whose first chapter is unwritten there is a run after which the needs-review column is 1 and no chapter is under review |
| BookHandling.ErrorEndsRunExactly | src/storyforge/services/book_runs.py:294-302 | in every reachable state with an error to handle, the handler leaves the run ended if and only if no cancellation is pending; an ended run keeps its status and any other becomes failed |
| BookCrashes.CancelThenErrorSticks | src/storyforge/services/book_runs.py:294-299 | from every state in which a worker executes, a cancel request and then an error leave the run in cancel_requested, and the next execution leaves it there again |
| BookUsage.UsageIsExact | src/storyforge/application/books.py:437-461 | after any usage update, whatever updates were lost or repeated before, the columns are the number, the tokens and the known costs of the calls that succeeded for a workflow of a child job, over their positions; and they are the sum job by job |
| BookUsage.UpdateCountsCalls | src/storyforge/application/books.py:413-458 | an update for a workflow counts exactly the positions of the calls that succeeded for it or for a child job's workflow |
| BookUsage.OneMoreCall | src/storyforge/application/books.py:448-458 | one more call changes no column if it did not succeed or is of no linked workflow, and otherwise adds one call, its tokens and its known cost |
| BookUsage.SpentByCalls | src/storyforge/application/books.py:448-458 | the sum over any workflows is over the positions of their succeeded calls, each once |
| BookUsage.EveryJobOnce | src/storyforge/application/books.py:449-458 | summing over the distinct linked workflows is summing over the jobs, since no two share a workflow |
| BookUsage.UsageNeverDecreases | src/storyforge/application/books.py:408-461 | calls, tokens and cost on the run row never decrease along a run |
| BookBudget.BudgetBound | src/storyforge/application/books.py:390-406 | over the whole life of a run, what all workflows ever in flight have spent is at most max(cap, cap - reserve + u * lag) plus u for every revision workflow started, where lag counts completions missing from the columns when a chapter is scheduled |
| BookBudget.NominalBudget | src/storyforge/application/books.py:115 | with no update missing: max(cap, cap - 5 + U) calls, max(cap, cap - 30000 + T) tokens, cap + C cost, and U, T, C more for every revision workflow; before the first a chapter within the reserve never passes the call and token caps |
| BookOverspending.CapPassedExactly | src/storyforge/application/books.py:396-400 | in every reachable state with a workflow in flight and no completion missing, a cap is passed if and only if that workflow has spent more than the cap leaves over the column |
| BookOverspending.AnySpendingHappens | src/storyforge/application/books.py:115-124 | from every reachable passed gate with nothing in flight or missing, and for every amount, a continuation spends exactly that amount, and passes the cap if and only if it is more than the cap leaves |
| BookOverspending.RevisionStartsOverBudget | src/storyforge/application/books.py:534-535 | from any fresh book of one chapter there is a run that starts a revision workflow over budget |
| BookRounds.OneRoundPerExecution | src/storyforge/application/books.py:489-502 | between two entries into execute at most one revision round is opened, none once it has decided, and never more than the maximum |
| BookRows.BookRun.Transition | src/storyforge/book/transitions.py:89-103 | the status becomes the target exactly when the table allows it, and is unchanged on the raised error |
| BookRows.BookRun.Initialize | src/storyforge/application/books.py:172-200 | the status execute starts from, and in which statuses it refuses to execute |
| BookRows.BookRun.SyncedStatuses | src/storyforge/application/books.py:216-219 | the loop marks exactly the chapters that have an accepted version |
| BookRows.BookRun.SyncAlreadyAccepted | src/storyforge/application/books.py:220-225 | status map, both counters and progress after the synchronisation |
| BookRows.BookRun.BudgetGate | src/storyforge/application/books.py:391-406 | blocked exactly when one of the three comparisons fails, and the resulting status |
| BookRows.BookRun.ChildJob | src/storyforge/application/books.py:325-373 | the child found by its key, or inserted with exactly one event, and nothing else changed |
| BookRows.BookRun.RefreshUsage | src/storyforge/application/books.py:413-461 | the columns are the number, the tokens and the known costs of the calls that succeeded for a child job's workflow or this one, over their positions; the fallbacks for zero sums make no difference |
| BookRows.BookRun.RecordPeriodicCheck | src/storyforge/application/books.py:620-629 | the check is appended, and a critical one pauses the run or is refused as a whole |
| BookRows.BookRun.FinishReviewed | src/storyforge/application/books.py:584-593 | completion names the snapshot in both columns, or changes nothing |
| BookRows.BookRun.DecideRevision | src/storyforge/application/books.py:484-502 | a round is opened exactly when it was asked for and one is left, else the run is left for review |
| BookRows.BookRun.SelectedVersions | src/storyforge/services/books.py:269-324 | every chapter of the book, and nothing else, is given its own accepted version, and there is a result exactly when every chapter has one |
| BookRows.BookRun.HandleStop | src/storyforge/services/book_runs.py:276-302 | the status after a pause, a cancellation and an error |
| BookRows.BookRun.RequestCancellation | src/storyforge/services/book_runs.py:255-267 | where a cancellation request takes the run, and when it is refused |
| BookRows.BookRun.ResumeRun | src/storyforge/services/book_runs.py:220-253 | a run resumes if and only if it is paused, or blocked and not back to planning, and the new limits cover what is used; to the status that fits its completed chapters |
| BookExecute.BookService.RecordRowsNow | src/storyforge/application/books.py:318-388 | the whole recording transaction in place equals its specification |
| BookExecute.BookService.Interfere | src/storyforge/jobs/handlers.py:49-58 | between two transactions the rows become what the others' actions make of them, and a death, an error or a request at a safe point ends the execution there |
| BookExecute.BookService.RunWorkflow | src/storyforge/application/books.py:242-270 | the workflow ends as the world says, and undisturbed its provider calls are the ones the world gives, in order |
| BookExecute.BookService.ExecuteChapter | src/storyforge/application/books.py:227-276 | marking, starting or resuming, recording and settling a chapter is a stretch of a machine run that ends settled, raised or crashed |
| BookExecute.BookService.RunPicked | src/storyforge/application/books.py:116-140 | a pending request stops before the chapter is generated; going on leaves one more chapter accepted |
| BookExecute.BookService.Pass | src/storyforge/application/books.py:78-140 | a pass of the loop that goes on leaves strictly more chapters accepted, one that returns leaves the run for review, and with a request pending none goes on |
| BookExecute.BookService.CheckPeriod | src/storyforge/application/books.py:137-140 | the loop goes on exactly when the check is not critical |
| BookExecute.BookService.Analyse | src/storyforge/application/books.py:152 | the verdict taken and noted is the one the analysis gives for the snapshot in hand |
| BookExecute.BookService.DecideOnRevision | src/storyforge/application/books.py:484-535 | a revision goes through exactly the chapters of its plan, in their order |
| BookExecute.BookService.Revise | src/storyforge/application/books.py:532-555 | the revision round ends in every world, and never goes back to the loop |
| BookExecute.BookService.ReviewWholeBook | src/storyforge/application/books.py:142-170 | a pending request stops before the review |
| BookExecute.BookService.Execute | src/storyforge/application/books.py:77-170 | execute terminates in every world and all it does is a run of the machine justified by that world; a normal return leaves the run completed or for review; with nothing raised from outside it returns or stops itself for a cause in the rows; with nobody interfering, all workflows completing, no critical check and a passed analysis, an execution that starts in peace completes the run or stops at the budget gate |
| BookExecute.BookService.RunBook | src/storyforge/jobs/handlers.py:250-280 | the handler leaves a raised execution through the matching status change; when all goes well the run ends completed or blocked by its budget |
| EventStream.Stream | src/storyforge/api/job_routes.py:295-325 | the loop lives to the first turn that ends it and sends exactly the pages and heartbeats of its turns; what was emitted followed by what lies behind the cursor is exactly what lay behind the starting cursor, for any growth of the log |
| EventStream.TurnSends | src/storyforge/api/job_routes.py:297-322 | a turn sends the first 500 events behind its cursor, and with none a heartbeat exactly when the job is not finished, the client is there and no notification came |
| EventStream.Delivers | src/storyforge/api/book_routes.py:159-189 | the events of any turns followed by what lies behind the cursor after them are what lay behind the starting cursor |
| EventStream.PrefixAdvances | src/storyforge/repositories/jobs.py:172-178 | emitting a first part of the events behind a cursor moves the cursor exactly past it |
| EventStream.AfterGrows | src/storyforge/repositories/jobs.py:160-170 | events appended later come behind everything a cursor already had before it |
| EventStream.ClosesCompletely | src/storyforge/api/book_routes.py:159-174 | nothing is left undelivered if and only if the last query saw all events behind the cursor and there were at most 500 |
| EventStream.LostAtTheEnd | src/storyforge/api/job_routes.py:300-309 | an event committed between the query and the status check is not delivered by that connection |
| EventStream.ReconnectsDeliver | src/storyforge/api/job_routes.py:297-309 | n connections to a finished job deliver exactly its first 500 n remaining events |
| SseWire.WireRoundTrip | src/storyforge/api/job_routes.py:303-306 | parsing any printed event frames and heartbeats returns exactly the (id, event, data) triples sent |
| SseWire.LineEndsAgree | docs/sse.md:21-22 | the parser reads line feeds, carriage returns and pairs of them alike, as section 9.2.5 has it |
| SseWire.SeveralDataLines | docs/sse.md:21-22 | an event of several data lines and no type is a "message" with its lines joined, as section 9.2.6 has it |
| SseWire.CutConnection | src/storyforge/api/job_routes.py:322-323 | a connection cut after any character has dispatched exactly the frames that arrived whole, with their last event id |
| SseWire.SessionDelivers | src/storyforge/api/job_routes.py:280-297 | any connections to the loop, cut anywhere and chained by Last-Event-ID, give a browser that carries its id buffer over every event once and in order, as one uninterrupted stream |
| SseWire.ConnectExactly | src/storyforge/api/job_routes.py:297-306 | with the id buffer empty at the start, one connection keeps the browser on track if and only if it had no place, or an event arrived whole, or no heartbeat did, or nothing of the log lies at or below its id |
| SseWire.StandardSessionExactly | src/storyforge/api/book_routes.py:140-161 | a whole session of such a browser gives every event once and in order if and only if every connection keeps its place |
| SseWire.HeartbeatForgets | src/storyforge/api/book_routes.py:186-187 | a connection on which only a heartbeat arrives makes such a browser forget its place, and the log is ahead of it again |
| SseWire.DeliveredTwice | src/storyforge/api/job_routes.py:322-323 | for every event there is a session of three connections that gives it to such a browser twice |
| Decimals.DecimalRoundTrip | src/storyforge/api/job_routes.py:280 | reading a printed event id gives it back, and it is all digits |
| JsonText.PayloadsAreSendable | src/storyforge/api/job_routes.py:303-305 | the compact JSON text of any payload has no raw line break, so its frame can be sent |
| JsonReading.PayloadRoundTrip | src/storyforge/api/job_routes.py:303-305 | reading the compact JSON text of any payload gives the payload back |
| Milestone4.RankInPlace | alembic/versions/ad6fd0f94186_add_milestone_4_evaluations_and_.py:160-167 | the in-place update gives every row its rank, in whatever order the rows are visited |
| Milestone4.RanksAreDense | alembic/versions/ad6fd0f94186_add_milestone_4_evaluations_and_.py:169-170 | the versions of a chapter with n evaluations are exactly 1..n |
| Milestone4.RanksAreDistinct | alembic/versions/ad6fd0f94186_add_milestone_4_evaluations_and_.py:183-185 | within a chapter versions are distinct and in id order |
| Milestone5.Tables.InsertMissingVersions | alembic/versions/69c75316dd7e_add_milestone_5_revision_workflow.py:519-537 | every chapter gets its own version row, at most one is inserted for it and only when it was missing, no old row changes |
| Milestone5.Tables.HighestVersion | alembic/versions/69c75316dd7e_add_milestone_5_revision_workflow.py:557-559 | the selected row is a highest version of the chapter, and there is one exactly when the chapter has any |
| Milestone5.Tables.PointChapters | alembic/versions/69c75316dd7e_add_milestone_5_revision_workflow.py:552-571 | both pointers of a chapter with its own version row name its highest version |
| Milestone5.Tables.Backfill | alembic/versions/69c75316dd7e_add_milestone_5_revision_workflow.py:518-618 | on any database: chapters point to their own highest version, facts and evaluations get a version of their own chapter exactly when it exists, conflicts exactly when their evaluation's chapter does |
| Milestone5.Tables.BackfillConsistent | alembic/versions/69c75316dd7e_add_milestone_5_revision_workflow.py:661-667 | with consistent foreign keys no version is null afterwards; a conflict's is of its own chapter if and only if its evaluation's is |
| Milestone5.ConflictElsewhere | alembic/versions/69c75316dd7e_add_milestone_5_revision_workflow.py:608-618 | a database with consistent foreign keys in which a conflict gets a version of another chapter |
| FactBackfill.AssignAll | alembic/versions/69c75316dd7e_add_milestone_5_revision_workflow.py:583-597 | over facts that all have a version, taken in id order: every fact gets the hash of its own normalised text, disambiguated exactly when an earlier fact of its version has the same, and no two facts of a version share one |
| FactBackfill.Upgrade | alembic/versions/69c75316dd7e_add_milestone_5_revision_workflow.py:665-673 | backfill and hash loop together, with consistent foreign keys: every fact has a version and a hash of its own text, and the unique constraint on the pair holds |
| FactHash.AssignHashes | alembic/versions/69c75316dd7e_add_milestone_5_revision_workflow.py:583-597 | all (version, hash) pairs come out distinct, and a row keeps its natural hash exactly when it is the first of its version with that normalised triple; among texts with nothing to take out, exactly when no earlier row of its version agrees in folded subject, predicate and object |
| FactHash.NormalKeepsOthers | alembic/versions/69c75316dd7e_add_milestone_5_revision_workflow.py:82-88 | a normalised field is the folded field at exactly the positions that are neither white space nor the listed punctuation, in order |
| FactHash.SpellingIsForgiven | alembic/versions/69c75316dd7e_add_milestone_5_revision_workflow.py:82-88 | putting white space or listed punctuation into any field, or an underscore into the predicate, changes no natural hash |
| FactHash.PlainHash | alembic/versions/69c75316dd7e_add_milestone_5_revision_workflow.py:85-89 | the hashed text of a fact with nothing to take out is its folded subject, predicate and object with unit separators between |
| FactHash.NaturalDecides | alembic/versions/69c75316dd7e_add_milestone_5_revision_workflow.py:81-89 | two rows have the same natural hash if and only if their normalised subjects, predicates and objects are equal |
| FactHash.NeverNatural | alembic/versions/69c75316dd7e_add_milestone_5_revision_workflow.py:591-592 | a disambiguated hash is never a natural one |
| FactFilter.Extract | src/storyforge/agents/fact_extractor.py:15-31 | one pass with a set of seen keys computes the filter |
| FactFilter.FilterIsSubsequence | src/storyforge/agents/fact_extractor.py:17-31 | the output is the subsequence at exactly the positions of the earliest eligible fact of every eligible key |
| FactFilter.KeptExactly | src/storyforge/agents/fact_extractor.py:18-29 | these positions: confidence at the threshold, quote in the text, valid from that chapter, and no earlier such fact with the same folded subject, predicate and object |
| FactFilter.QuoteStands | src/storyforge/agents/fact_extractor.py:25 | a quote is in the text exactly when the text is something, the quote and something |
| FactFilter.KeysAreDistinct | src/storyforge/agents/fact_extractor.py:18-30 | the output facts are eligible and pairwise different in their folded keys |
| FactFilter.NothingElseLost | src/storyforge/agents/fact_extractor.py:23-29 | every eligible fact has its key in the output |
| FactFilter.FilterIsIdempotent | src/storyforge/agents/fact_extractor.py:12-48 | filtering the output again changes nothing |
| UsageBreakdown.Aggregate | frontend/features/governance/usage-page.tsx:197-219 | one line for each label that occurs, each the total of the calls with that label, in the order of the comparison |
| UsageBreakdown.SortRows | frontend/features/governance/usage-page.tsx:216-218 | every row is listed once, in the order of the comparison |
| UsageBreakdown.GroupingConserves | frontend/features/governance/usage-page.tsx:202-215 | the totals of any distinct labels that cover the calls add up to the totals of the input, each call once |
| UsageBreakdown.BreakdownConserves | frontend/features/governance/usage-page.tsx:202-217 | the lines of a breakdown add up to the calls, tokens, cost and unknown of the input |
| UsageBreakdown.UnknownExactly | frontend/features/governance/usage-page.tsx:212 | a row is unknown if and only if some succeeded call with its label has no cost |
| UsageBreakdown.Breakdowns | frontend/features/governance/usage-page.tsx:33-45 | each table's names are exactly the tasks, models, workflow texts and days of the calls, each line holds the number, tokens, known costs and unknown flag of the calls at the positions with its value, and the four agree with the input |
| UsageBreakdown.TotalByPositions | frontend/features/governance/usage-page.tsx:202-214 | the total of a label is the number, tokens, known costs and unknown flag over the positions that carry it |
| UsageBreakdown.WorkflowLabels | frontend/features/governance/usage-page.tsx:37-41 | "No workflow" names exactly the calls without one, and different workflows are named differently |
| Pagination.PagesPartition | src/storyforge/application/book_queries.py:75-104 | pages 1 to the page count are the whole list in order, all but the last full, later ones empty |
| Pagination.RowIsOnOnePage | src/storyforge/application/book_queries.py:80 | row k is on page k / size + 1 at its offset and on no other page |
| Pagination.LeastPages | src/storyforge/application/common.py:17-25 | both page-count formulas give the least number of pages that hold all items |

## Left out

- BookBudget.BudgetBound: assumes a bound u for every workflow; per-call reservations inside a chapter workflow, which may give one, are not modelled.
- BookTheorems.JobsPerChapter: counts one more job for every revision round, because a revised chapter gets a child job of its own.
- BookOwnership.OwnershipHolds: needs the window between acceptance and recording to stay shut, because the code does not close it; the exact condition and the bad run are proved beside it.
- BookExecute.BookService.Execute: one worker at a time executes a run, as the job lease is there to ensure; two overlapping executions of one run are not modelled.
- BookRows.BookRun.ResumeRun: a new limit below what is used but equal to the old one is refused here as in the source, while the machine also lets such a request through unchanged.
- FactHash.AssignHashes: the hash is assumed free of collisions and its digests free of colons and separators; case folding is any function that maps every character by itself.
- JsonReading.PayloadRoundTrip: the payload of an event holds nulls, whole numbers, strings and objects only; the reader is given no others, and no escaped surrogate pairs, which the writer never produces.
- UsageBreakdown.Aggregate: the locale comparison is any total preorder; the order among labels it holds equal and the page's filters are not modelled.
- SseWire.SessionDelivers: holds of browsers that carry the id buffer over a reconnect; what section 9.2.6 gives is stated beside it.
- Money is counted in units of 1e-8 and progress and page counts are exact quotients; floating point is not modelled.
- Node history, current node, blocking reasons, timestamps, error texts and the impacted-chapters map of a run.
- The status column of snapshots and revision plans, and what a revision plan contains beyond distinct chapters.
- Deletion of the top job or of a run while it executes, and a book whose chapters are added or removed meanwhile.
- The chapter workflow service beyond its row, its link, its calls and its end; every failed or cancelled end is some status other than completed.
- The parallel scheduling mode: `decide` is modelled for the default chain of dependencies, where both modes pick the same chapter.
- Revisions and workflow rows of the Milestone 5 backfill, whose version columns may stay null.
- Semaphore accounting, disconnect timing and heartbeat sleeping of the event stream, and byte decoding before its parser.
- The two update filters of the fact extractor, which are plain comprehensions.
