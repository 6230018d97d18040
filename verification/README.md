# SkillJudge, verified

A model of the logic of SkillJudge, a service in which laboratory videos are uploaded, scored by people and by a
language model, and reported on. The Go backend and the Python job service are modelled module by module; every
property below is proved for all inputs, all reachable states or all runs, not for samples.

Code that changes state in place is a class whose methods are proved against functions on plain values; the
properties are lemmas about those functions and about runs of them, and for each operation one of them says what it
leaves without using the function that computes it. What interleaves is a state machine whose steps
are the statements or transactions of the source and the stretches between two `await`s, with a crash possible
wherever the source may stop.

| component | files |
|---|---|
| task analysis reports: the table and its operations, the queue of callers and workers, and that its undisturbed runs are the operations | `AnalysisReports`, `AnalysisQueue`, `QueueRefinement` |
| videos, reviews and cached counters: the operations as transitions, what they leave told column by column, and the service | `EvaluationStatus`, `Lifecycle`, `ReviewEffects`, `ReviewService` |
| status columns, evaluation rows and counters when reads, writes and recounts overlap, and that without overlap these are the operations above | `StaleStatus`, `StatusRefinement`, `StaleCounters` |
| AI evaluations: creators, poller and its fairness, and the service | `AiPolling`, `AiService` |
| scorer relations and invitations | `Invitations`, `InvitationService` |
| the job service: store with expiries, dispatcher, its operations, everything interleaved, that undisturbed runs are the operations, and the schedule of video deletions | `JobStore`, `Dispatcher`, `JobService`, `JobPipeline`, `JobRefinement`, `JobDeletion` |
| turning raw model output into scores, and what each entry of a report says, told from the raw output alone | `HalfPoints`, `Json`, `Scoring`, `ReportEntries` |
| who reviews which video | `Allocation` |
| the array literal and the rubric sheet | `Text`, `StringArray`, `RubricShares`, `RubricTemplate` |

`dafny verify dfyconfig.toml` checks the project.

Conventions. Ids are opaque numbers. Clocks never go back, and two writes never carry the same time where the source
orders rows by time. Scores are exact numbers. The shuffle, the provider's answers, the outcome of downloads, and
what a hash yields are arbitrary. A report's position in its table stands for its creation order. Actors are
authorised. The database runs at its default isolation level, read committed: each statement sees what is committed
when it starts, and an updated row is locked until its transaction ends. Whether it refuses a second evaluation row
for an assignment, as `designingDocs/double_review_sql_draft.md` proposes, is a parameter.

Results that differ from what one might expect of the code, each with an input or a run that shows it, and the
exact condition under which all is well where there is one:

- A caller may be answered with a report that failed after it was read (`AnalysisQueue.AnswerMayBeStale`,
  `AnalysisQueue.CommitAgreesIff`); what is inserted is nevertheless always right.
- A report whose worker crashes after its claim stays processing and blocks its task for ever
  (`AnalysisQueue.OrphanIsReached`, `AnalysisQueue.OrphanedIff`); so does an AI evaluation whose creator stops before
  storing the job id, with its video (`AiPolling.OrphanIsReached`, `AiPolling.OrphanedIff`, `AiPolling.BlockedIff`).
- Two creations of an AI evaluation for one video may both proceed when they overlap
  (`AiPolling.OverlappingCreationsBothProcess`, `AiPolling.OneProcessingIff`).
- Overlapping AI and review writes may leave a video finished on both sides but not completed
  (`StaleStatus.OverlapBreaksTheLaw`, `StaleStatus.AgreesIffHarmless`).
- A draft that passed its guard before a submission undoes it, and the counters go wrong with it
  (`StaleStatus.DraftUndoesSubmission`, `StaleStatus.SubmittedIsLeftIff`, `StaleCounters.LateDraftMiscounts`).
- Two recounts of a task that overlap may leave its counter wrong for good, although never its project's
  (`StaleCounters.OverlappingRecountsMiscount`, `StaleCounters.CountersSurviveIff`, `StaleCounters.SureThroughoutIff`,
  `StaleCounters.OverlapSparesTheProject`); recounts of two tasks may do so to the project's
  (`StaleCounters.OtherTasksMiscount`, `StaleCounters.ProjectSurvivesIff`).
- Two first drafts of one review that overlap may leave it with two evaluation rows (`StaleStatus.TwoFirstDrafts`,
  `StaleStatus.RowsAreAddedIff`, `StaleStatus.OneRowThroughoutIff`).
- Polls that end in an error write nothing and cost rounds, restarts too (`AiPolling.StarvedWithoutWrites`,
  `AiPolling.StarvedByRestarts`); `AiPolling.EveryCandidateIsPolled` says how many at most.
- An answer stored just before a crash may never become an accepted relation (`Invitations.AnswerMayBeLost`), unless
  a second acceptance makes it good (`Invitations.AnswerMayBeMadeGood`, `Invitations.CanConfirmIff`).
- A relation that is removed or expires while it is being accepted may be accepted afterwards
  (`Invitations.RemovedMayBeRevived`, `Invitations.RevivedIff`).
- The invitation behind an accepted relation may be marked expired (`Invitations.EvidenceMayBeMarkedExpired`,
  `Invitations.MarkedExpiredIff`).
- A video list with repetitions is not shared out evenly in the average mode of first assignment
  (`Allocation.FairIffNoRepeats`), and nil scorer ids divide by zero (`Allocation.NilScorerDividesByZero`,
  `Allocation.PlanAssignments`, `Allocation.PlanReassignment`).
- The evenly split last sub score may be negative (`RubricShares.LastMayBeNegative`,
  `RubricShares.LastIsNegativeIff`), and the split may miss the rounded score by a cent
  (`RubricShares.SharesMissByACent`, `RubricShares.SharesAddUpIff`).
- A report for a rubric with repeated names may not read back as itself (`Scoring.RepeatedNamesDrift`,
  `Scoring.ReadsBackIff`).
- Items with white space at their ends, and the word null, do not survive the array column
  (`StringArray.SomeItemsChange`, `StringArray.RoundTripIsExactIff`).
- A completed job may outlive its result (`JobStore.ResultExpiresFirst`).
- A crash between a job's last update and the entry in the schedule leaves a video that nobody deletes
  (`JobDeletion.VideoMayStay`, `JobDeletion.StrandedIff`).

## Model

| member | source | states |
|---|---|---|
| AnalysisReports.Latest | internal/modules/task/repository.go:181-195 | the newest report of a task: one of the task's, with none of the task's after it, and none only when the task has no report |
| AnalysisReports.Repository.EnsureQueuedAnalysisReport | internal/modules/task/repository.go:218-265 | a missing task is refused and nothing written; a last report of the task that is queued, in work or ready answers and nothing is written; otherwise one empty queued row is added behind all others and answers |
| AnalysisReports.Ensured | internal/modules/task/repository.go:224-259 | the answer is the task's newest row and is queued, processing or ready; at most one row is appended and none rewritten |
| AnalysisReports.EnsuringTwiceIsOnce | internal/modules/task/repository.go:234-241 | a second request straight after the first answers with the same report and adds none |
| AnalysisReports.Repository.ClaimAnalysisReport | internal/modules/task/repository.go:274-288 | a claim succeeds exactly on a queued report; it becomes processing with its start time and no other row or column changes |
| AnalysisReports.QueuedFrom | internal/modules/task/repository.go:296-302 | queued rows only, oldest first, and a queued row is left out only when the page is full of older ones |
| AnalysisReports.Repository.FailAnalysisReport | internal/modules/task/analysis_service.go:222-233 | the report, if it exists, ends as failed with its cause, whatever its status was, and nothing else changes |
| AnalysisReports.Repository.ProcessQueuedReport | internal/modules/task/analysis_service.go:149-220 | one undisturbed pass: nothing without a claim; otherwise only the claimed row changes, to ready, or to failed with the first cause, superseded when it is not the newest |
| AnalysisQueue.OnlyNewestIsActive | internal/modules/task/repository.go:218-265 | under every interleaving of callers and workers, also with the read and the insert apart, a report that is not failed is its task's newest, so no task has two |
| AnalysisQueue.SupersededIsUnreachable | internal/modules/task/analysis_service.go:159-165 | the look-up after a claim always finds the claimed report newest: no worker fails and no row ever records "superseded" |
| AnalysisQueue.OnlyTheClaimantWrites | internal/modules/task/repository.go:267-288 | in any step from a reachable state a processing report is written only by its claimant's final write, statuses move forwards only, ready and failed rows are never written, and claims are never taken over |
| AnalysisQueue.HistoryIsKept | internal/modules/task/analysis_service.go:149-233 | the same between any two moments of a run |
| AnalysisQueue.InsertAgreesWithTransaction | internal/modules/task/repository.go:224-259 | a row inserted after a delayed read is the one the uninterrupted transaction would insert at that instant |
| AnalysisQueue.CommitAgreesIff | internal/modules/task/repository.go:224-259 | a commit leaves and answers what the uninterrupted transaction would if and only if the report read as active, if any, has not failed since |
| AnalysisQueue.AnswerMayBeStale | internal/modules/task/repository.go:235-241 | a run in which a caller is answered with a report that has failed since it was read |
| AnalysisQueue.OrphanedIff | internal/modules/task/analysis_service.go:149-233 | a processing report is left processing by every run if and only if no worker is at it |
| AnalysisQueue.OrphanIsReached | internal/modules/task/analysis_service.go:151-159 | a run that leaves such a report: a worker crashes straight after its claim |
| AnalysisQueue.OrphanBlocksItsTask | internal/modules/task/repository.go:234-241 | every later request for the task of such a report is answered with it |
| AnalysisQueue.StepKeeps | internal/modules/task/repository.go:218-288 | every step of a caller or a worker keeps the invariant behind these results |
| QueueRefinement.CallRefines | internal/modules/task/repository.go:218-265 | a caller whom nobody disturbs locks, reads and commits to exactly what ensuring a report leaves and answers |
| QueueRefinement.PassRefines | internal/modules/task/analysis_service.go:149-220 | a worker whom nobody disturbs claims, looks up, builds and writes exactly what one pass leaves, for every first failure |
| EvaluationStatus.ResolveOverall | internal/domain/evaluation/status.go:28-45 | completed iff submitted and AI-completed; failed iff the AI part failed; pending iff both are pending |
| EvaluationStatus.ResolveCompletedAt | internal/domain/evaluation/status.go:58-64 | a date iff the overall status is completed, and then the given time |
| Lifecycle.CountersAreExact | internal/modules/task/repository.go:307-447 | after any history of operations each task's counters are the numbers of its ready and of its ready and completed videos, and each project's are the sums over its tasks |
| Lifecycle.RefreshCounts | internal/modules/task/repository.go:307-348 | whatever changed in one task's videos, recounting that task makes every task and project counter right |
| Lifecycle.QuietCounts | internal/modules/scoring/repository.go:226-288 | an operation that leaves task, readiness and completion of every video alone may skip the recount |
| Lifecycle.TotalsCountUnions | internal/modules/task/repository.go:425-447 | the sum of exact task counters is the count over the union of their videos |
| Lifecycle.StatusFollows | internal/domain/evaluation/status.go:28-64 | after any history the overall status is the one resolved from the manual and AI statuses, and a completion date is there iff both are finished |
| Lifecycle.ReviewIsConsistent | internal/modules/scoring/repository.go:382-657 | after any history a begun review has exactly one evaluation row, of its status and with the video's score; the video's manual status is the assignment's and its submitted count is 1 iff submitted |
| Lifecycle.SubmittedIsForever | internal/modules/scoring/service.go:145-147 | a submitted review keeps its assignment and score through every later operation |
| Lifecycle.AssignNeedsItsGuard | internal/modules/scoring/service.go:527-538 | without its guard assigning would keep the counters right if and only if no planned video is completed |
| Lifecycle.ReassignedDraftKeepsItsScorer | internal/modules/scoring/repository.go:428-438 | a drafted video that is reassigned and drafted again keeps the first scorer's evaluation row |
| Lifecycle.SeenIsStored | internal/modules/scoring/repository.go:38-48 | the statuses that guards see after an assignment is laid over its video are the stored ones |
| Lifecycle.ApplyKeeps | internal/modules/scoring/service.go:133-302 | every operation, refused ones included, keeps the invariant behind these results |
| ReviewEffects.AllowedIff | internal/modules/scoring/service.go:133-302 | what every operation accepts, in terms of stored rows alone: a review open for scoring is the scorer's own and not submitted, a selectable video is the task's, ready and not submitted or completed, and saved drafts are of this task, this scorer, in progress and unsubmitted |
| ReviewEffects.ApplyLeaves | internal/modules/scoring/repository.go:226-657 | what every operation leaves, column by column over videos, assignments, evaluation rows and counters, without the functions that compute it; a refused one leaves everything |
| ReviewEffects.LeavesIsExact | internal/modules/scoring/repository.go:226-657 | that telling leaves nothing open: two databases it holds of are the same |
| ReviewEffects.ScoreIsRecorded | internal/modules/scoring/repository.go:382-588 | an accepted draft or submission of a score leaves that score on the video and on its only evaluation row, with the operation's status, scorer, start and submission dates, and every other video, row and assignment as it was |
| ReviewEffects.SavedSubmits | internal/modules/scoring/repository.go:343-355 | submitting saved drafts changes exactly the drafts of that task and scorer, each keeping the score it was saved with |
| ReviewEffects.RefreshRecounts | internal/modules/task/repository.go:307-348 | a recount stores the numbers of ready and of completed videos for one task and its project, and touches no other counter |
| ReviewService.Service.RefreshVideoStats | internal/modules/task/repository.go:307-348 | the recount of one task and its project, in place |
| ReviewService.Service.ConfirmUpload | internal/modules/video/service.go:157-176 | the video becomes ready and its task is recounted; an unknown video changes nothing |
| ReviewService.Service.WriteAiStatus | internal/modules/ai/service.go:414-494 | the video takes the AI outcome, its derived columns follow and its task is recounted where the source does so |
| ReviewService.Service.ValidateAssignable | internal/modules/scoring/service.go:527-550 | accepts exactly selections whose videos are in the task, ready, not completed, and still pending when reassigning |
| ReviewService.Service.WriteAssignments | internal/modules/scoring/repository.go:226-288 | the loop over a plan, in any order, is the one simultaneous assignment |
| ReviewService.Service.AssignScorers | internal/modules/scoring/service.go:253-255 | the guard and the write of a finished plan as one transition; refused exactly when the guard fails, and then nothing changes |
| ReviewService.Service.ReassignPendingVideos | internal/modules/scoring/service.go:386-388 | the guards and the write of a finished plan for pending videos; refused exactly when a guard fails, and then nothing changes |
| ReviewService.Service.WriteScore | internal/modules/scoring/repository.go:382-588 | evaluation row, assignment and video after a draft or a submission: the score given, its status, scorer and dates, and every other video, row and assignment as it was |
| ReviewService.Service.SaveTaskDraft | internal/modules/scoring/service.go:133-161 | the whole operation; refused exactly for a negative total, a video of another scorer or none, or a submitted review, and then nothing changes; otherwise the score is recorded as a draft and no counter changes |
| ReviewService.Service.SubmitTask | internal/modules/scoring/service.go:195-223 | from the check of the total on: refused exactly for a negative total, a video of another scorer or none, or a submitted review; otherwise the score is recorded as submitted and the task recounted |
| ReviewService.Service.SubmitSavedDrafts | internal/modules/scoring/repository.go:590-657 | the loop over drafts, in any order, submits them all at once and counts them |
| ReviewService.Service.SubmitSavedTask | internal/modules/scoring/service.go:163-189 | the whole operation; refused exactly without drafts of that task and scorer; otherwise these and no others are submitted and the task recounted |
| ReviewService.SubmitOneMore | internal/modules/scoring/repository.go:590-657 | submitting a set of drafts is submitting all but one and then that one |
| ReviewService.AssignOneMore | internal/modules/scoring/repository.go:226-288 | assigning a plan is assigning all but one and then that one |
| StaleStatus.DatesSurvive | internal/modules/ai/service.go:651-670 | with every read, guard and write of every operation apart, under every interleaving, a completion date is there iff the overall status is completed |
| StaleStatus.AgreesIffHarmless | internal/modules/ai/service.go:414-494 | after a write the overall status is the resolved one if and only if what the writer had read was harmlessly old |
| StaleStatus.AgreesThroughoutIff | internal/modules/scoring/repository.go:452-579 | throughout a run the overall status is the resolved one if and only if every write in it is harmless |
| StaleStatus.OverlapBreaksTheLaw | internal/modules/ai/service.go:433-471 | a run of an evaluation and an overlapping submission after which a video finished on both sides is not completed, with nothing outstanding |
| StaleStatus.StuckIsLeftIff | internal/modules/scoring/service.go:145-147 | without a write of an AI operation some run repairs such a video if and only if a review has passed its guard and will write anything but a submission over an AI status read before the evaluation ended |
| StaleStatus.StuckUntilAiWrites | internal/modules/scoring/service.go:145-147 | when there is none, no run without an AI write repairs it, whatever is read, refused, written or given up |
| StaleStatus.AiWriteRepairs | internal/modules/ai/service.go:433-471 | an AI operation that reads now repairs it |
| StaleStatus.SubmittedIsLeftIff | internal/modules/scoring/repository.go:452-476 | submitted is left by some run if and only if a draft or an assignment that passed its guard before the submission is still under way |
| StaleStatus.DraftUndoesSubmission | internal/modules/scoring/repository.go:382-480 | a run to a completed video with such a draft |
| StaleStatus.BegunHasARow | internal/modules/scoring/repository.go:394-430 | under every interleaving a review that has begun has an evaluation row, and exactly one when the database refuses a second |
| StaleStatus.RowsAreAddedIff | internal/modules/scoring/repository.go:401-430 | a review with a row may be given another if and only if the database allows it and a draft or submission under way looked before the row was there |
| StaleStatus.OneRowThroughoutIff | internal/modules/scoring/repository.go:401-430 | throughout a run a review never has two rows if and only if every insert finds it still without one |
| StaleStatus.TwoFirstDrafts | internal/modules/scoring/repository.go:401-430 | a run of two first drafts that ends with two rows, when the database allows it |
| StatusRefinement.ScoringRefines | internal/modules/scoring/repository.go:382-588 | a draft or a submission whose reads and write nobody comes between leaves the video, its scorer and its rows as the operation in one piece does |
| StatusRefinement.ScoringGuard | internal/modules/scoring/service.go:145-147 | its guard on the reads is the guard of the operation in one piece |
| StatusRefinement.AssigningRefines | internal/modules/scoring/repository.go:226-288 | so does every video of an assignment, first or anew |
| StatusRefinement.AssigningGuard | internal/modules/scoring/service.go:527-550 | and its guard is the same, for a video that is the task's and uploaded |
| StatusRefinement.AiRefines | internal/modules/ai/service.go:414-494 | so does the write of an AI status |
| StaleCounters.CountersSurviveIff | internal/modules/task/repository.go:307-348 | throughout a run the task's counter counts the video rightly, or a recount that will make it do so is to come, if and only if every store is of a value that is still right or has such a recount to come, none that is needed is given up, and none of the unrecounted writes takes a completion away unseen; then it is right whenever no recount is under way |
| StaleCounters.SureIff | internal/modules/task/repository.go:307-348 | the recounts under way make the task's counter right in whatever order they end if and only if those that wait, or else the one that holds the lock, or else the stored value, are right |
| StaleCounters.SureThroughoutIff | internal/modules/task/repository.go:307-348 | that stays so throughout a run if and only if no write that changes the completion meets a recount between its count and its update of the task, no unrecounted one lacks a later count, and nothing needed is given up |
| StaleCounters.ProjectSurvivesIff | internal/modules/task/repository.go:332-348 | the project's counter goes wrong only by an unrecounted write, a recount given up, or a recount of another task, and exactly when one of those is not made up for: the lock on the task's row puts its recounts in line |
| StaleCounters.OverlapSparesTheProject | internal/modules/task/repository.go:332-348 | so overlapping operations and recounts of one task, however many, leave its project's counter right |
| StaleCounters.OverlappingRecountsMiscount | internal/modules/task/repository.go:316-330 | a run of an evaluation and a submission with overlapping recounts after which the completed video is not counted by its task, but is by its project, with nothing outstanding |
| StaleCounters.LateDraftMiscounts | internal/modules/scoring/repository.go:382-480 | a run in which a draft undoes a submission and both counters go on counting the video |
| StaleCounters.OtherTasksMiscount | internal/modules/task/repository.go:332-344 | a run in which a recount of another task leaves the completed video out of the project's counter |
| AiPolling.OneProcessingIff | internal/modules/ai/service.go:187-211 | throughout a run no video has two evaluations processing if and only if every creation inserts while its video is idle |
| AiPolling.InsertKeepsOneIff | internal/modules/ai/repository.go:93-107 | the same for one insert |
| AiPolling.SerialRunsAreSpaced | internal/modules/ai/service.go:187-211 | serialised creations insert while their video is idle |
| AiPolling.VideoShowsNewest | internal/modules/ai/service.go:179-281 | in every run whose creations insert while their video is idle only a video's newest evaluation may be processing, and the video's AI status is that evaluation's, pending without one |
| AiPolling.OnlyTheOwnerWrites | internal/modules/ai/service.go:237-494 | an evaluation is written by its creator until it has a job id and by its own poll from then on; finished ones never |
| AiPolling.FinishedIsForever | internal/modules/ai/service.go:433-494 | completed and failed evaluations never change again |
| AiPolling.EveryCandidateIsPolled | internal/modules/ai/repository.go:137-155 | with N candidates, batch size B, K polls that write nothing and R restarts, any run of (N + K) / B + R rounds, rounded up, selects a given candidate, whatever arrives meanwhile |
| AiPolling.PolledWhenPollsWrite | internal/modules/ai/repository.go:137-155 | so N / B rounds, rounded up, are enough when every poll writes and nothing restarts |
| AiPolling.PassedOverPays | internal/modules/ai/repository.go:137-155 | in any run every round that passes a candidate over is paid for with a full batch: by those ahead of it, by polls that write nothing, and by restarts |
| AiPolling.BatchExists | internal/modules/ai/repository.go:137-155 | the oldest-first selection is always possible |
| AiPolling.StarvedWithoutWrites | internal/modules/ai/service.go:375-396 | runs of any number of rounds that pass a candidate over, each paid for by its polls that write nothing |
| AiPolling.StarvedByRestarts | internal/modules/ai/service.go:298-329 | the same, each paid for by its restart |
| AiPolling.StarvationIsReached | internal/modules/ai/service.go:331-396 | for every batch size and number of rounds a state reached from the start, and two such runs of that many rounds: one of polls that write nothing, one of restarts |
| AiPolling.OverlappingCreationsBothProcess | internal/modules/ai/service.go:187-211 | a run in which two creations for one video both look before either inserts, and two evaluations are processing |
| AiPolling.OrphanedIff | internal/modules/ai/service.go:209-281 | a processing evaluation is left processing by every run if and only if it has no job id and no creator |
| AiPolling.BlockedIff | internal/modules/ai/service.go:187-200 | a video can never be given another evaluation, forced or not, if and only if its newest one is of that kind and nobody is about to insert |
| AiPolling.OrphanIsReached | internal/modules/ai/service.go:209-215 | a run that leaves such a video: a creator stops straight after its insert |
| AiPolling.StepKeeps | internal/modules/ai/service.go:179-494 | every step of a creator or the poller keeps the invariant behind these results |
| AiPolling.MayCreateIff | internal/modules/ai/service.go:187-200 | a creation may go on if and only if the video has no evaluation, or its last one is finished and the creation is forced |
| AiPolling.CheckAdmitsIff | internal/modules/ai/service.go:187-200 | in the protocol a creation is let through exactly then, and one that is refused leaves nothing behind |
| AiService.CreationRuns | internal/modules/ai/service.go:179-281 | the protocol's steps of one creation that nobody disturbs leave what the service's creation leaves |
| AiService.Service.CreateAndMarkVideoProcessing | internal/modules/ai/repository.go:93-107 | one new processing evaluation, its video marked processing |
| AiService.Service.SetJobID | internal/modules/ai/repository.go:127-135 | only that evaluation changes: it has a job and the time of the write |
| AiService.Service.CreateForVideo | internal/modules/ai/service.go:179-281 | an evaluation is created if and only if the video has none, or its last one is finished and the creation is forced; then exactly one row is added, with a job and processing, or without and failed at once, and the video takes its status; it is the protocol's run |
| AiService.Service.PollEvaluation | internal/modules/ai/service.go:370-494 | what one poll writes for each answer: the status, the time and the video's AI status, and no other evaluation or video |
| AiService.Service.PollOnce | internal/modules/ai/service.go:331-368 | a round writes each listed evaluation once and no other, and leaves all of them behind every evaluation not listed |
| Invitations.AcceptedHasEvidence | internal/modules/taskscorer/service.go:782-846 | through any interleaving and any crash an accepted relation has an invitation for its task and scorer answered no later than it expired |
| Invitations.EvidenceMayBeMarkedExpired | internal/modules/taskscorer/service.go:786-797 | a run after which that invitation itself is marked expired |
| Invitations.MarkedExpiredIff | internal/modules/taskscorer/service.go:786-797 | up to its expiry an answered invitation has its answered status in every reachable state; a further acceptance marks it expired if and only if the expiry is past |
| Invitations.CanConfirmIff | internal/modules/taskscorer/service.go:782-846 | an invitation that is no longer open can still confirm a relation if and only if some process holds it having seen it open in time, or is answering or confirming it |
| Invitations.DeadNeverConfirms | internal/modules/taskscorer/service.go:798-838 | when no process does, no run ever confirms a relation on its strength |
| Invitations.ConfirmingAccepts | internal/modules/taskscorer/service.go:831-838 | what confirming means: a relation of the same task and scorer becomes accepted |
| Invitations.AnswerMayBeLost | internal/modules/taskscorer/service.go:823-838 | a crash between the two writes after which an answer never becomes an accepted relation |
| Invitations.AnswerMayBeMadeGood | internal/modules/taskscorer/service.go:782-846 | the same crash beside a second acceptance that has seen the invitation open, after which it still can |
| Invitations.RevivedIff | internal/modules/taskscorer/service.go:799-838 | an inactive relation that nobody reopens becomes accepted in some run if and only if an acceptance that found it active before is about to write |
| Invitations.RemovedMayBeRevived | internal/modules/taskscorer/service.go:548-563 | a run in which a removal comes between the two writes of an acceptance, which then accepts the relation |
| Invitations.StepKeeps | internal/modules/taskscorer/service.go:366-846 | every step of every operation, and a crash between any two, keeps the invariant behind these results |
| Invitations.StepExtends | internal/modules/taskscorer/repository.go:78-159 | a step keeps every row's task and scorer and every answer in time |
| Invitations.ExpiryIsItsOwn | internal/modules/taskscorer/repository.go:149-159 | the steps of an expiry cancel exactly the open invitations of its own task and scorer and close its own relation; all other rows stay |
| Invitations.RemovalIsItsOwn | internal/modules/taskscorer/repository.go:91-105 | a removal makes exactly the relations of its task and scorer inactive |
| InvitationService.Service.AcceptInvitation | internal/modules/taskscorer/service.go:782-846 | the answer and both tables for each case, in the source's order of checks; evidence is kept, and it is the protocol's run of one acceptance |
| InvitationService.Service.Notify | internal/modules/taskscorer/service.go:366-427 | one new invitation; the relation is created, reopened, or left accepted; evidence is kept, and it is the protocol's run |
| InvitationService.Service.Resend | internal/modules/taskscorer/service.go:450-546 | refused, in this order, without a relation, for an inactive one, without an email address, and when mail is needed and does not work; otherwise as a notification; evidence is kept, and it is the protocol's run |
| InvitationService.Service.ExpirePendingRelation | internal/modules/taskscorer/service.go:565-588 | a pending relation becomes inactive and exactly the open invitations of its task and scorer are cancelled; any other is left alone; evidence is kept, and it is the protocol's run |
| InvitationService.EvidenceStays | internal/modules/taskscorer/repository.go:78-159 | evidence survives every change that keeps whose rows are whose and accepts nothing without evidence |
| JobStore.PutKeepsIndex | ai_eval_mock/job_store.py:76-86 | a write keeps every unexpired unfinished job in the active set and the set's expiry no earlier than the job's |
| JobStore.TimeKeepsIndex | ai_eval_mock/job_store.py:58-61 | so does the passing of time |
| JobStore.ScanIsExact | ai_eval_mock/job_store.py:100-114 | a recovery scan returns precisely the unexpired queued and processing jobs |
| JobStore.Store.ListRecoverableJobs | ai_eval_mock/job_store.py:100-114 | the recoverable members of the active set, each once, oldest first |
| JobStore.Store.Create | ai_eval_mock/job_store.py:34-63 | the queued record, the active set and both expiries |
| JobStore.Store.Update | ai_eval_mock/job_store.py:72-87 | nothing for a record that is gone; otherwise the patched record, the active set by its status, and the expiries |
| JobStore.Store.ListExpiredVideoJobs | ai_eval_mock/job_store.py:120-122 | the due jobs, each once, earliest first, all of them unless there are more than a hundred |
| JobStore.Store.ClearVideoCache | ai_eval_mock/job_store.py:128-131 | the record forgets its video, if it is still there, and leaves the schedule |
| JobStore.ResultExpiresFirst | ai_eval_mock/job_store.py:96-98 | clearing a cached video renews the job and not its result, so a visible completed job has lost its result exactly from one lifetime after saving |
| Dispatcher.QueueIsExact | ai_eval_mock/dispatcher.py:12-24 | with any number of workers the queue has no repetition, the id set is exactly what is pending, and every accepted id is pending or returned, none twice |
| Dispatcher.NoRequestIsLost | ai_eval_mock/dispatcher.py:12-24 | an id that is refused or pending is returned by a later get in every run that drains the queue |
| Dispatcher.EnqueueIsAddThenPut | ai_eval_mock/dispatcher.py:12-18 | the method's effect is that of the two protocol steps |
| Dispatcher.InMemoryDispatcher.Enqueue | ai_eval_mock/dispatcher.py:12-18 | accepted iff not in the id set, and then appended |
| Dispatcher.StepKeeps | ai_eval_mock/dispatcher.py:12-24 | every step keeps the invariant behind these results |
| JobPipeline.OneOwnerAtATime | ai_eval_mock/worker_pool.py:32-38 | at any moment at most one of request handler, recovery, workers and cleanup is concerned with a job, and none while it waits |
| JobPipeline.NoLostUpdate | ai_eval_mock/job_store.py:72-87 | a record overwritten by an update is the one it read, or has expired |
| JobPipeline.CompletedMeansSaved | ai_eval_mock/runner.py:100-119 | no job is visible as completed before its result was saved |
| JobPipeline.NothingIsStranded | ai_eval_mock/main.py:54-68 | after the recovery scan every unexpired unfinished job waits in the dispatcher or for recovery, or is in a process's hands; the scan returns precisely those jobs |
| JobPipeline.TerminalIsForever | ai_eval_mock/runner.py:53-183 | a job seen finished is never seen with another status, across crashes and expiries |
| JobPipeline.StepKeeps | ai_eval_mock/runner.py:53-183 | every step of every process, and a crash between any two, keeps the invariant behind these results |
| JobService.Service.CreateAnalysisJob | ai_eval_mock/main.py:121-122 | stored first, then enqueued |
| JobService.Service.RecoverJobs | ai_eval_mock/main.py:54-68 | exactly the unexpired unfinished jobs wait, oldest first, each once, all of them queued; every other record is untouched |
| JobService.Service.CleanUp | ai_eval_mock/main.py:43-51 | exactly the listed due videos are forgotten and leave the schedule |
| JobService.Service.Run | ai_eval_mock/runner.py:53-134 | the record, result, active set and schedule that a run leaves, for every way it can go; a finished or missing job is left alone |
| JobService.Service.HandleFailure | ai_eval_mock/runner.py:160-182 | the record and schedule that a failure leaves, with and without a kept video |
| JobRefinement.TurnRefines | ai_eval_mock/runner.py:53-183 | a worker that has taken a job and whom nobody disturbs goes through the interleaved stages to exactly the store that a run of the service leaves, in every way the world may answer, and lets the job go |
| JobRefinement.RecoveryRefines | ai_eval_mock/main.py:54-68 | so does recovery with the next job of its list: the record, the queue and the id set |
| JobRefinement.CleanupRefines | ai_eval_mock/main.py:47-51 | so does the cleanup loop with the next due video |
| JobRefinement.CreationRefines | ai_eval_mock/main.py:121-122 | and so does accepting a job |
| JobDeletion.StrandedIff | ai_eval_mock/runner.py:112-121 | over whole runs: a visible job's record says that its video is to be deleted, but it is not on the schedule and nobody holds it, if and only if a crash came between the record and the entry |
| JobDeletion.KeptVideoIsBooked | ai_eval_mock/runner.py:160-182 | short of such a crash a kept video, also a failed job's, is on the schedule at the time its record says once nobody holds the job; and the job is finished |
| JobDeletion.VideoMayStay | ai_eval_mock/runner.py:112-121 | a run with such a crash, whenever videos are downloaded to disk |
| JobDeletion.StepStrandsIff | ai_eval_mock/runner.py:53-183 | the same for one step |
| HalfPoints.QuantizeRange | ai_eval_mock/runner.py:513-520 | a quantised score lies in its range, on the half-point grid or at the maximum, within a quarter point of the clamped value |
| HalfPoints.QuantizeIsIdempotent | ai_eval_mock/runner.py:513-520 | clamping or quantising it again changes nothing, also for a maximum off the grid |
| HalfPoints.QuantizeKeepsGrid | ai_eval_mock/runner.py:517-520 | a grid score in range is its own quantisation |
| Json.IndexBy | ai_eval_mock/runner.py:314-318 | the map built from a list finds for each text the last object that has it |
| Scoring.BuildDetailGroups | ai_eval_mock/runner.py:313-409 | the two nested loops compute the declared details or the first error |
| Scoring.NormalizeResult | ai_eval_mock/runner.py:273-299 | the method computes the declared report, the fixture branch included |
| Scoring.ReportIsAligned | ai_eval_mock/runner.py:313-409 | for any raw JSON: one group per rubric item, one entry per sub item, same order, titles and full scores, every score in its range |
| Scoring.ScoreIsConserved | ai_eval_mock/runner.py:280-299 | when the maxima fit, the report's score is the sum of its groups and of all its entries |
| Scoring.GroupAddsUp | ai_eval_mock/runner.py:369-379 | when a group's maxima fit, its score is the sum of its entries |
| Scoring.NormaliseIsAProjection | ai_eval_mock/runner.py:273-388 | a report read back as raw JSON gives the same details and score, also after the fixture branch, for every rubric in which equal names stand for equal things, distinct names among them |
| Scoring.ReadsBackIff | ai_eval_mock/runner.py:313-388 | for any rubric the details of a report read back as themselves if and only if every entry agrees in points, status, feedback and evidence with the last one of its name in the last group of its title, or with the fixture where there is none |
| Scoring.RepeatedNamesDrift | ai_eval_mock/runner.py:327-335 | of any two sub items of one name on the grid, an earlier one worth more than the last falls to the last one's score when its report is read back |
| ReportEntries.ReportIsTold | ai_eval_mock/runner.py:273-409 | which raw results are refused, exactly; and of every report each group and entry, told from the rubric and the raw JSON: the object that answers for it, its score from the number or the fixture's share, its status as given or by the share reached, feedback, evidence, the sums, and the stand-in for a total that is not positive |
| ReportEntries.EntryIsTold | ai_eval_mock/runner.py:331-367 | one entry: its name, full score, score, status ("error" below 65 percent, "ok" from 85 percent on, "warning" between, unless one is given), feedback and evidence |
| ReportEntries.MatchAnswers | ai_eval_mock/runner.py:314-326 | the object that answers for a name is the last one in the list that bears it, or an empty one |
| ReportEntries.GetIsValueAt | ai_eval_mock/runner.py:273-279 | the value that counts for a key of an object is the last one given, null without one |
| ReportEntries.QuantizedIsScore | ai_eval_mock/runner.py:513-520 | a quantised score is the nearest half point, ties to the even one, of the number kept between zero and the full score, and no more than the full score |
| ReportEntries.TextsAreIn | ai_eval_mock/runner.py:529-547 | evidence texts are the list's non-blank texts, stripped, in order |
| ReportEntries.DecimalIsWritten | ai_eval_mock/runner.py:323-330 | the number in a stand-in name is the position, in digits without leading zeros |
| Allocation.UniqueUUIDs | internal/modules/scoring/service.go:685-699 | the ids without the nil id, each once, in order of first occurrence |
| Allocation.ValidateAssignScorersInput | internal/modules/scoring/service.go:482-507 | accepts exactly complete inputs of a known strategy |
| Allocation.BuildAssignments | internal/modules/scoring/service.go:593-632 | in turn: every id with the scorer at its last position modulo their number, an unknown video, or a division by zero without scorers; specified: for each video the scorer of the last item that names it, or an error exactly for an unknown id or an uncovered video |
| Allocation.PlanAssignments | internal/modules/scoring/service.go:233-270 | from validation to plan: divides by zero exactly in average mode when all scorer ids are nil and the first video id is not; a nil video id is refused; otherwise every video has the scorer of its turn or of the last item that names it |
| Allocation.NilScorerDividesByZero | internal/modules/scoring/service.go:607-613 | one video and the nil scorer pass every check before the division |
| Allocation.FairIffNoRepeats | internal/modules/scoring/service.go:607-613 | assigning in turn is fair to every team of scorers if and only if no video id is repeated |
| Allocation.RepeatedIdsMayBeUnfair | internal/modules/scoring/service.go:607-613 | one video selected twice goes to the wrong one of two scorers |
| Allocation.TurnsCount | internal/modules/scoring/service.go:650-653 | going round k scorers gives each n / k, and one more to exactly the first n mod k |
| Allocation.BlocksCount | internal/modules/scoring/service.go:654-668 | quota by quota each scorer gets exactly his count |
| Allocation.SpecifiedIsAsSpecified | internal/modules/scoring/service.go:616-631 | a specified plan names a video if and only if some item does, with the scorer of the last such item |
| Allocation.TurnsAreAsTheyGo | internal/modules/scoring/service.go:607-613 | a plan in turn names exactly the ids, each with the scorer at its last position modulo their number |
| Allocation.OnlyOnePlanIsAsSpecified | internal/modules/scoring/service.go:616-631 | only one plan does what a specified input says |
| Allocation.ValidateReassignPendingVideosInput | internal/modules/scoring/service.go:552-591 | accepts exactly inputs whose quotas are sensible and add up to the unique videos; the mismatch error exactly when only the sum is wrong |
| Allocation.Shuffle | internal/modules/scoring/service.go:735-743 | whatever is chosen, the shuffle permutes |
| Allocation.BuildReassignments | internal/modules/scoring/service.go:634-683 | for any input and every shuffle: the spread of the shuffled rows by mode, or its first error, then the first selected video without a row or an assignment |
| Allocation.MismatchIsUnreachable | internal/modules/scoring/service.go:654-671 | sensible quotas that add up can only fail for an unknown scorer |
| Allocation.SpreadKeepsPromise | internal/modules/scoring/service.go:648-672 | every spread plan covers exactly the rows, fairly or by quota, for every shuffle |
| Allocation.PlanReassignment | internal/modules/scoring/service.go:366-401 | from validation to plan: row counts and validation make the count-mismatch exits unreachable; divides by zero exactly in average mode with nil scorer ids only; otherwise every selected video is assigned exactly once, fairly or by quota |
| StringArray.Column.Value | internal/model/string_array.go:41-58 | the printed literal, none for the nil list |
| StringArray.Column.Scan | internal/model/string_array.go:12-39 | the parsed list, told by where the text's separating commas are, or an error and the column unchanged |
| StringArray.ParseStringArray | internal/model/string_array.go:60-117 | the loop over characters: the text is cut at the commas outside quotes and not escaped, each piece is its characters without open quotes and escaping backslashes, trimmed, NULL as the empty text; errors exactly for text that is no literal or is malformed |
| StringArray.TwoPassesAreOne | internal/model/string_array.go:119-123 | the two replacement passes equal one escape per character |
| StringArray.MalformedIff | internal/model/string_array.go:83-107 | the text between braces is refused if and only if a quote is left open or a backslash has nothing to escape |
| StringArray.SplitOfBody | internal/model/string_array.go:88-109 | the text between printed braces splits into exactly the printed items |
| StringArray.SplitCuts | internal/model/string_array.go:83-107 | for any text between the braces, quoted, unquoted or mixed: the items are the pieces between the separating commas, without quotes and escaping backslashes |
| StringArray.WordsSplit | internal/model/string_array.go:83-107 | words free of commas, quotes and backslashes, joined by commas, split into exactly those words |
| StringArray.ParseReads | internal/model/string_array.go:60-117 | what the parse gives for any text, without the scanner: null, the JSON list, or the pieces trimmed |
| StringArray.RoundTrip | internal/model/string_array.go:41-117 | reading a printed list gives each item trimmed, with NULL in any case as the empty text, for any contents |
| StringArray.RoundTripIsExactIff | internal/model/string_array.go:110-115 | the list itself comes back if and only if every item is trimmed and none is NULL |
| StringArray.ReadIsStable | internal/model/string_array.go:60-117 | whatever the literal reader returns survives printing and reading |
| StringArray.PrintIsInjective | internal/model/string_array.go:41-58 | different lists are printed differently |
| StringArray.SomeItemsChange | internal/model/string_array.go:110-115 | an item with white space at its ends, and the word null, do not come back |
| Text.TrimKeepsTheMiddle | internal/model/string_array.go:61-61 | trimming cuts off nothing but white space |
| RubricShares.AssignAverageSubScores | internal/modules/project/rubric_parser.go:197-224 | explicit scores are kept; otherwise every share but the last is the rounded average and the last is the rounded rest |
| RubricShares.SharesAddUpIff | internal/modules/project/rubric_parser.go:212-228 | the shares add up to the rounded score unless the score ends in half a cent and the rest is negative |
| RubricShares.SharesMissByACent | internal/modules/project/rubric_parser.go:212-228 | 0.505 over a hundred sub items: the shares add up to 0.50 and the score is rounded to 0.51 |
| RubricShares.WholeCentsAddUp | internal/modules/project/rubric_parser.go:212-228 | a score in whole cents is split to the cent |
| RubricShares.SplitIsEven | internal/modules/project/rubric_parser.go:214-222 | the last share is within n / 2 cents of the others, which are equal |
| RubricShares.LastIsNegativeIff | internal/modules/project/rubric_parser.go:218-218 | exactly when the last share is negative |
| RubricShares.EnoughCents | internal/modules/project/rubric_parser.go:218-218 | it is not negative with at least n (n - 1) / 2 cents |
| RubricShares.LastMayBeNegative | internal/modules/project/rubric_parser.go:218-218 | half a point over a hundred sub items gives the last one -0.49 |
| RubricTemplate.ParseRubricTemplate | internal/modules/project/rubric_parser.go:31-152 | the first problem in row order, told by cells; or the template: the m-th sub item has the trimmed cells 3, 5, 6 and 7 of the m-th non-blank row, a written sub score is the number in cell 4, each item has the name and number of its first row, and the total is the rounded sum |
| RubricTemplate.TemplateIsRead | internal/modules/project/rubric_parser.go:84-149 | that template, told on the sheet's cells, for every cut of the rows into groups |
| RubricTemplate.FirstProblemIs | internal/modules/project/rubric_parser.go:84-128 | the first row with a complaint, and its first complaint, told on the sheet's cells |
| RubricTemplate.Reader.FlushCurrent | internal/modules/project/rubric_parser.go:64-82 | closing an item always succeeds: the error for a named item without sub items is unreachable |
| RubricTemplate.Reader.Take | internal/modules/project/rubric_parser.go:84-139 | a row's error, by the source's order of checks, or the groups with one more row |
| RubricTemplate.RowsAreSubItems | internal/modules/project/rubric_parser.go:120-138 | rows and sub items correspond one to one in order, with ids k-j counted from the named rows |
| RubricTemplate.GroupsAreUnique | internal/modules/project/rubric_parser.go:98-114 | there is only one way to cut the rows into groups |
| RubricTemplate.ItemAddsUpIff | internal/modules/project/rubric_parser.go:72-78 | exactly when the sub scores of an item without explicit ones add up to its score |

## Left out

- AiPolling.EveryCandidateIsPolled: counts rounds of one poller; several instances of the backend polling at once are not modelled.
- Allocation.PlanReassignment: the panic of the division by zero is an error value; that the request then ends without an answer is not modelled.
- JobService.Service.Run: one undisturbed run at one moment of the clock, because `JobPipeline` has its steps interleaved and the clock moving.
- JobService.Service.RecoverJobs: reads each record again just before its write, as the source's update does; the records listed before are not kept.
- JobPipeline.CompletedMeansSaved: says that the result was saved; that it may have expired since is `JobStore.ResultExpiresFirst`.
- Scoring.ScoreIsConserved: the empty rubric has one stand-in group whose score is not on the half-point grid, and is not covered.
- Scoring.NormaliseIsAProjection: details and score only; the summary text, stages, points and artifact links of a report are not modelled, nor the errors of malformed ones.
- InvitationService.Service.Notify: mail delivery, credentials and read marks are not modelled, nor are the failures between the statements, which `Invitations` has; that the undisturbed operation is a run of `Invitations` is proved.
- ReviewService.Service.SubmitTask: the refusal of an empty list of score details comes before the operation and is not modelled.
- ReviewService.Service.AssignScorers: takes the finished plan; how a plan is made, from the validation of the input on, is `Allocation.PlanAssignments`.
- ReviewService.Service.ReassignPendingVideos: takes the finished plan; how it is made is `Allocation.PlanReassignment`; the notifications sent afterwards are not modelled.
- ReviewService.Service.ConfirmUpload: ends with the recount; the evaluation that is then started is an operation of its own, `ReviewService.Service.WriteAiStatus` and `AiService.Service.CreateForVideo`.
- StaleCounters.CountersSurviveIff: the counters' view of one video; that other videos' operations recount its task, and other tasks' its project, at any time, are events of the model.
- Inviting and provisioning a scorer: the same relation and invitation writes as `InvitationService.Service.Notify`, after creating the user.
- HTTP handlers, sessions, roles, object storage, mail, PDF pages, video processing and calls of the language model: plumbing around the modelled state.
- SQL text, isolation levels other than the default, and failing database or Redis commands, except that an operation may stop between two of them.
- Deleting a video and the script that imports AI results: neither recounts, so neither belongs to the counters' law.
- Payload columns: file names, messages, model versions, stored snapshots, comments, score details.
- IEEE floating point: not-a-number, infinities and binary rounding; scores are exact.
- JSON text inside the array column: its reader is a parameter of the parse; texts are valid Unicode.
- Rubric data of the wrong type and the repair call of the language model: the rubric is well formed.
- The limits on concurrent workers, polls and model calls: the protocols allow any number.
- Cancelling an asyncio task: a stopping service is a crash.
- Bulk renewal of expiries in the job store, which nothing calls.
- Histograms, averages, listings and pagination: easy to state and to prove.
