# Verification of the practice backend

This project models the backend that runs spoken practice conversations and mock interviews, and
proves properties of the model in Dafny 4.11. `dafny verify dfyconfig.toml` checks all of it.

| files | what they model |
|---|---|
| `Jobs`, `QueueModel`, `QueueInvariant`, `QueueRuns` | the background-job protocol: jobs, target rows, queue messages, dead letters and workers' claims as a state machine, with the database's check of jobs against their rows at commit, and its invariant over every run |
| `QueueTheorems`, `QueueCheck`, `QueueSteps` | fencing of stale workers, agreement of rows and jobs, budgets, dead letters, what the API makes of rows and jobs |
| `QueueJam`, `QueueLiveness` | when a reaper pass commits and what it leaves, which queued jobs will ever run |
| `QueueTurn` | what a worker's turn makes of a message, by the executor's replies |
| `QueueRepository`, `QueueWorker`, `QueueEndpoints` | the SQL repository, the worker loop and the retry and cancellation endpoints as classes, proved against that state machine |
| `RoomModel`, `RoomInvariant`, `RoomContext`, `RoomTheorems`, `RoomReplies`, `RoomResults` | one practice room: messages, interview answers, replies in flight, running summary, endings, its result |
| `InterviewRounds` | interviews with one outstanding answer at a time end, whatever the model says |
| `PracticeRoom` | the room's repository and adapter operations as a class, and the executor's decision |
| `GoalProgress` | concurrent evaluations of a scenario's goal |
| `Documents`, `DocumentTheorems`, `DocumentSteps`, `DocumentRepository` | interview documents, analyses, chunks and configurations |
| `DocumentReplacement`, `DocumentDeadEnds`, `DocumentGeneration` | what replacing a document does to configurations built on it, which of them wait for good, and which get settled or ready |
| `Idempotency` | idempotency records with leases |
| `TtsBatching`, `TtsStream`, `TtsTheorems`, `TtsReader` | batching of audio, the chunk table, the polling reader |
| `Chunking`, `GoldQuotes`, `Retrieval`, `RetrievalTheorems`, `Sampling`, `Scores` | document chunking, quotes in chunks, threshold retrieval and its metrics, stratified sampling, score normalisation |

## How to read it

State machines are functions on values: a state, an `Event`, a `Step`, and a `Run` over a list of
events. An event that is not enabled leaves the state alone, so every list of events is a run, and a
statement about `Run(events)` is one about every reachable state. Classes hold the same tables as
fields; each method does what the repository does in the order of its statements, undoes it where the
transaction rolls back, and its contract equates the new state with the specification step. Those
contracts link the text of the code to the state machines; the results are the lemmas. Rows marked
"link only" have a body that is hardly more than the step itself.

What the model takes as given:

- One committed transaction is one step. Reading a message, claiming its job and discarding it after
  a refusal is one step; so is the retry decision with the repository call it leads to.
- There is one clock, which only moves forward. Only the idempotency records are modelled with
  clocks that need not agree.
- Random tokens and row ids are fresh numbers.
- What a provider returns, and how it fails, is arbitrary, and so are the jitter of a retry, which
  expired jobs a reaper pass could lock, and the order of everything that happens.
- A job may be claimed three times, as the execution policy has it.
- Deleting a document or a room touches several targets. In the job protocol these appear as
  consecutive steps, one for each target.
- The unique indexes on current answers, current documents and active configurations are part of
  the model: a transaction that would break one is taken back.
- So is the deferred trigger that compares every inserted or updated job with its row at commit. What
  it refuses is taken back and raises in the worker, or in the reaper for the whole pass.
- `runs` and `announced`, and the reader's `read` and `cuts`, only record what happened.

## What is not as one would wish

The model follows the code where the code falls short of what one would expect, and the project
says exactly where:

- Deleting a document under a configuration job in processing leaves a job whose row is invalidated.
  When the job's deadline passes, the reaper's transaction over all expired jobs of the queue cannot
  commit any more, so that nothing of that queue is reaped and each worker turn ends there. This is
  the only cause, and a reaper pass commits if and only if no such job is in it
  (`QueueJam.ReaperCommitsIffNothingJams`, `QueueJam.JamHasItsCause`,
  `QueueJam.InvalidatedUnderItsJobJams`, `QueueJam.OneJobJamsAnother`).
- A queued job whose target is not claimable is discarded and stays queued for good: it runs in some
  continuation if and only if its target is claimable now. The retry endpoints insert such jobs, for
  example for a reply whose room has ended (`QueueLiveness.QueuedJobRunsIffClaimable`,
  `QueueLiveness.RetriedJobRunsIffClaimable`, `QueueLiveness.StuckForGood`).
- A configuration can be generating for good, and bars its setup until another document behind it is
  deleted: its job is queued, and the claim, which counts current documents, will not be granted.
  Replacing a document behind a queued job does this, also while a job given back after a provider
  error waits for its retry; so do a retry and a regeneration after a replacement, which do not look at
  the documents, and listing an analysis twice. Nothing else does (`DocumentDeadEnds.DeadEndHasItsCause`,
  `DocumentDeadEnds.DeadEndStays`, `DocumentDeadEnds.GivenBackAndReplaced`,
  `DocumentGeneration.GeneratingSettlesIff`).
- Replacing a document sets its `deleted_at`, as deleting it does, but withdraws no configuration. It
  leaves every ready configuration on current documents if and only if the document is used by no ready
  configuration and by none that a worker may still save
  (`DocumentReplacement.ReplacementIsHarmlessIff`).
- A room that ended without a turn gets no result, because there is nothing to evaluate, but the retry of
  its result makes one; a deleted result can be made again in the same way
  (`RoomResults.ResultIffLastInserted`, `RoomResults.NothingSaidYetAResult`,
  `RoomResults.DeletedAndMadeAnew`).
- A session result that turns out as `failed` cannot be saved: the check at commit refuses it
  (`QueueTheorems.CompleteIsFenced`).
- A stale worker can spend the schema repair of the claim that replaced it, on turn feedback only
  (`QueueTheorems.StaleRepairIsFeedback`).
- The audio reader can skip a chunk when a worker goes on appending after its audio was failed and
  retried, or when chunks expire before they are read (`TtsTheorems.AppendReadInOrderIffSafe`,
  `TtsTheorems.ExpiredUnreadIsLost`, `TtsTheorems.OvertakenWorkerLeavesAGap`).

## Model

| member | source | states |
|---|---|---|
| Jobs.Decide | worker/runtime.py:49-66 | a retry is only planned for a retryable failure below three attempts, and never past the job's deadline; at the deadline there is none |
| QueueRuns.RunKeepsInv | worker/sql_queue.py:91-487 | every run of publishes, reads, claims, repairs, completions, retries, failures, reaper passes, cancellations, deletions, user retries, crashes and ticks, each committed or taken back as the deferred check decides, keeps the tables linked, the accounts, the fences and the wake-ups (next rows) |
| QueueRuns.ReapKeepsInv | worker/sql_queue.py:91-183 | one reaper pass over any list of jobs, committed as a whole or taken back as a whole, keeps all of that |
| QueueRuns.CompleteKeepsInv | worker/sql_queue.py:367-389 | so does a completion, committed, rolled back or refused by the deferred check, with whatever targets it fans out to |
| QueueRuns.HandleFailureKeepsInv | worker/queue.py:114-140 | so does a failure report, retried, final or refused by the deferred check, by a current or a stale worker |
| QueueRuns.UserRetryKeepsInv | app/repositories/feedback.py:128-181 | so does a user's retry of any kind of target |
| QueueCheck.EveryCommitIsChecked | supabase/migrations/20260902120100_validate_domain_state_for_scenario_goal_progress.sql:8-74 | the deferred check is met by everything the model commits: every job that any step of any run inserts or updates fits its row afterwards |
| QueueTheorems.CompleteIsFenced | worker/sql_queue.py:367-389 | in every run a `complete` commits if and only if it comes from the latest claim on its job, the row still waits for a result and the outcome is not `failed` (a session result saved as failed is refused at commit); one that is not from the latest claim leaves jobs, targets, messages and dead letters unchanged |
| QueueTheorems.StaleCompleteMeetsToken | worker/domain_adapters.py:250-275 | a stale `complete` is turned away by the row's token; only a session result's, which has no token, gets past the adapter, and then its job is not running |
| QueueTheorems.FailureIsFenced | worker/sql_queue.py:431-465 | in every run a `fail` commits if and only if it comes from the latest claim on its job and the row still waits |
| QueueTheorems.StaleReportChangesNothing | worker/queue.py:92-140 | a completion, failure, retry or passed deadline reported by anything but the latest claim changes no job, row, message or dead letter, whatever the kind |
| QueueTheorems.StaleRepairIsFeedback | worker/sql_queue.py:471-487 | the one thing a stale worker may still do is record a schema repair, on turn feedback whose deadline passed under it |
| QueueTheorems.OnlyLatestClaimRetries | worker/sql_queue.py:391-429 | whenever the retry planner grants a retry to a worker whose job still runs, it is the latest claim |
| QueueLiveness.QueuedJobCanBeClaimed | worker/sql_queue.py:296-332 | every queued job whose target is claimable has a message in its own queue that, once visible, is granted the claim |
| QueueSteps.ClaimedIff | worker/sql_queue.py:296-365 | in every run a worker that reads a message gets the claim, under the row's token, exactly if the job is queued and due and its row waits and can be worked on; otherwise the message is gone and nothing else happened |
| QueueLiveness.QueuedJobRunsIffClaimable | worker/sql_queue.py:296-332 | in every run a queued job has a continuation in which it is processed if and only if its target is claimable now |
| QueueLiveness.StuckForGood | worker/queue.py:71-78 | a queued job whose target is not claimable stays queued in every continuation, and bars every retry of its row, until the row is deleted or its analysis cancelled |
| QueueLiveness.RetriedJobRunsIffClaimable | app/repositories/conversation.py:715-785 | the job an accepted retry inserts can ever run if and only if the row is still claimable, which the retry does not ask (but for audio) |
| QueueJam.ReaperCommitsIffNothingJams | worker/sql_queue.py:91-183 | in every run a reaper pass commits if and only if no expired job of its queue among those it locked has a row that is neither processing nor failed; only configuration jobs can |
| QueueJam.ExpiredJobIsReaped | worker/sql_queue.py:91-183 | in a pass without such a job every expired job leaves processing |
| QueueLiveness.ReaperTreatsRight | worker/sql_queue.py:185-245 | in every run a committed pass fails an expired job and its row with one dead letter, but for turn feedback below three attempts, which is queued again after its backoff, with a deadline of that time plus its timeout, a fresh token and a message for that time |
| QueueSteps.PassTouchesOnlyExpired | worker/sql_queue.py:91-183 | in every run a pass leaves every job that it did not lock, that is not being processed, of another queue or not past its deadline, and the row of such an active job |
| QueueLiveness.RequeuedFeedbackRunsInTime | worker/sql_queue.py:185-245 | and when feedback so queued is due, its message is visible, the claim is granted, and the worker can execute it before the deadline |
| QueueJam.JamHasItsCause | app/repositories/interviews.py:272-283 | such a job only comes about by the deletion of a document behind its configuration while the job was being processed |
| QueueJam.InvalidatedUnderItsJobJams | app/repositories/interviews.py:245-290 | and it then always does: from the job's deadline on, no pass that locks it settles anything, in every continuation in which the configuration is not deleted |
| QueueJam.OneJobJamsAnother | worker/queue.py:71-78 | a concrete run: a configuration and an analysis are claimed, a document is deleted, the deadlines pass; the pass over both changes nothing, while the analysis alone would be settled |
| QueueTheorems.RowsAndJobsAgree | supabase/migrations/20260825033933_current_remote_schema_baseline.sql:1126-1152 | in every run no target has two active jobs, and a target is processing exactly when it has one, but for analysis rows of documents that went and invalidated configurations whose job is still active |
| QueueTheorems.NoRetryMeetsAnActiveJob | app/repositories/interviews.py:378-438 | so a row that a retry endpoint would renew never has an active job |
| QueueTheorems.BudgetsHold | worker/queue.py:105-140 | in every run a job has at most 3 claims and 1 schema repair, and its provider executions are at most claims plus repairs, so at most 4 |
| QueueSteps.ExecutionsAreCounted | worker/queue.py:105-112 | and these executions are the very calls of the run: in every run the provider is called at most four times for a job |
| QueueTheorems.ExactlyOneDeadLetter | worker/sql_queue.py:431-465 | a failed job has exactly one dead letter, in its own queue's dead-letter queue, and any other job none |
| QueueTheorems.StepMovesJobs | app/services/jobs.py:55-76 | every step of every run moves a job along an allowed transition if at all, raises its attempts exactly on claim, and never gives back an attempt, a repair or an execution |
| QueueSteps.PublishedIs | app/repositories/conversation.py:431-490 | in every run a new row waits under a token of its own, with one new job and one message that wakes a worker up at once |
| QueueSteps.SentBackIff | app/repositories/feedback.py:72-181 | in every run a user can send back exactly what failed, partial feedback and a ready configuration, but no analysis, goal evaluation or audio that is no longer current; the row waits again with one new job and message, under a token that no worker holds, but for session results, which have none |
| QueueSteps.WithdrawnIs | app/repositories/interviews.py:245-312 | in every run withdrawing, closing, using or deleting a row moves that row alone, ends exactly the active jobs of a removed document's analysis, deletes exactly the jobs of a deleted row, and leaves all messages and claims |
| QueueRepository.SqlQueueRepository.ReadOne | worker/sql_queue.py:270-294 | reads a visible message of the queue and hides it for the timeout, or says that there is none |
| QueueRepository.SqlQueueRepository.Claim | worker/sql_queue.py:296-365 | claims exactly the queued, due job of this queue whose target is claimable, and otherwise changes nothing |
| QueueRepository.SqlQueueRepository.Complete | worker/sql_queue.py:367-389 | the statement sequence with its rollback, and with the deferred check, is the protocol's completion step; says which of the three endings it had |
| QueueRepository.SqlQueueRepository.Retry | worker/sql_queue.py:391-429 | is the protocol's retry step, with the same three endings: the job queued with a delayed message and the old message gone, or nothing |
| QueueRepository.SqlQueueRepository.Fail | worker/sql_queue.py:431-465 | is the protocol's failure step, with the same three endings |
| QueueRepository.SqlQueueRepository.MarkSchemaRepair | worker/sql_queue.py:471-487 | records a repair exactly if the job still runs, has none and fits its row |
| QueueRepository.SqlQueueRepository.RetryExpiredFeedback | worker/sql_queue.py:185-245 | queues expired feedback again under a fresh token, or reports that the row is gone or settled; what deadline and message that leaves is QueueLiveness.ReaperTreatsRight |
| QueueRepository.SqlQueueRepository.RecoverExpired | worker/sql_queue.py:91-183 | the loop over the expired jobs and its commit are the protocol's reap step on exactly the jobs past their deadline: all of them or, if one does not fit its row, none |
| QueueTurn.TurnComesTo | worker/queue.py:71-140 | from any served claim: a saved output leaves job succeeded, row with the outcome, no message, and every job it spawns published; a provider error, of the deciding reply or of the saving, is retried after the provider's delay or else the jitter exactly if it is retryable, attempts are left and the delay ends before the deadline, and otherwise fails with one dead letter; a passed deadline fails without a call; any other exception leaves the job to the reaper; nothing else moves |
| QueueWorker.Worker.HandleProviderFailure | worker/queue.py:114-140 | decision and repository call together are one failure step, raised exactly if the deferred check refuses it; returns what the turn is to return |
| QueueWorker.Worker.Finish | worker/queue.py:86-103 | what the executor returned decides the one step with which the claim ends, and what the turn returns |
| QueueWorker.Worker.ExecuteWithRepair | worker/queue.py:105-112 | at most one repair: the second reply decides exactly if the first is schema-invalid and no repair was recorded before; the run says which calls were made |
| QueueWorker.Worker.RunOnce | worker/queue.py:71-103 | a whole turn is a run of at most six protocol steps and leaves no claim behind; on a jammed queue it ends with the reaper's exception and changes nothing; otherwise it serves a visible message, if there is one: job, row, message and dead letters come out as the executor's replies decide (QueueTurn.TurnComesTo), or the message is discarded if its job cannot be claimed |
| QueueEndpoints.Endpoints.RetryEmotion | app/repositories/feedback.py:72-126 | sends back exactly a failed emotion row without an active job, under a fresh token and with one new job; otherwise nothing changes |
| QueueEndpoints.Endpoints.RetryFeedback | app/repositories/feedback.py:128-181 | the same for a failed or partial feedback row |
| QueueEndpoints.Endpoints.RetryOrCreate | app/repositories/results.py:96-178 | the same for a failed session result or audio; where there is none yet, one is created with its job |
| QueueEndpoints.Endpoints.CancelAnalysisJobs | app/repositories/interviews.py:301-312 | the loop over the jobs cancels exactly the active ones of the analysis, so that none is left |
| RoomTheorems.RunKeepsInv | worker/domain_adapters.py:245-394 | every run of sends, claims, saves, failures, reaps, retries, endings, and retries and deletions of results, with any number of workers on the room and any model output, keeps ledger, questions and coverage (next rows) |
| RoomTheorems.LedgerOfEveryRun | worker/domain_adapters.py:531-627 | messages are numbered exactly 1 to N, turns equal persona replies, no user message is replied to twice, a scenario stays within its turns and completes on the last, and there is never a second result, so that the unique key on the room refuses no insert, nor one before completion |
| RoomTheorems.CompletedStaysFrozen | app/repositories/conversation.py:597-689 | nothing that happens after completion changes messages, answers, turns, summary or the way the room ended |
| RoomResults.ResultIffLastInserted | app/repositories/results.py:96-203 | in every run there is a result if and only if one was inserted, by a completion with a turn or by a retry that found none, and none was deleted since |
| RoomResults.CompletionAddsResultIffTurn | app/repositories/conversation.py:597-689 | in every run the step that completes a room, whichever it is, adds a result if and only if the room had a turn |
| RoomResults.OnlyRetryAndDeletionChangeResults | app/repositories/results.py:96-203 | from a completed room on, no continuation without a retry or a deletion of a result adds or removes one |
| RoomResults.UntouchedResultIffTurn | app/repositories/conversation.py:650-689 | so where nobody retries or deletes a result, a completed room has one if and only if it had a turn |
| RoomResults.PreparedStays | app/repositories/results.py:144-145 | a result that is ready stays as it is until it is deleted; no retry touches it |
| RoomResults.ResultMoves | app/repositories/results.py:96-203 | in every run a result is settled by its job, retried only after a failure, deleted only when its job is over, and moved by nothing else |
| RoomResults.NothingSaidYetAResult | app/repositories/results.py:96-141 | a concrete run: a room without a turn is completed without a result, and the retry, which does not look at turns, makes one |
| RoomResults.DeletedAndMadeAnew | app/repositories/results.py:180-203 | a concrete run: the result of a room with a turn is deleted and made anew |
| RoomTheorems.CoveredQuestionsFormAPrefix | app/repositories/conversation.py:315-343 | in every interleaving the questions with a current answer come first |
| RoomTheorems.AnnouncedIsAccepted | app/repositories/conversation.py:315-343 | a running interview accepts a message if and only if it names the question the persona asked last, also after failed replies and with several answers outstanding |
| RoomTheorems.ConversationSeesEverything | worker/executors.py:272-301 | the conversation model is shown a summary of 1..t and the raw messages from t+1 on without gap or repeat, its own user message included, even with workers saving summaries concurrently |
| RoomTheorems.ClaimShowsTheWholeRoom | worker/domain_adapters.py:151-174 | at the moment of a claim, summary and raw messages are the whole room |
| RoomTheorems.FeedbackSeesEverythingBefore | worker/domain_adapters.py:775-799 | summary and raw messages of a feedback prompt are exactly the messages before its target, or the summary alone reaches beyond it |
| RoomTheorems.VerdictCounts | worker/executors.py:335-408 | in every run, saving a reply to an interview answer makes that answer current if and only if the model called it complete and it was no explicit non-answer, or it was the third attempt, or the cap on answers was reached |
| RoomTheorems.OpensAsCreated | app/repositories/conversation.py:83-130 | in every run the first message is the persona's opening where the room was made with one, and the user's otherwise |
| RoomReplies.ClaimedIff | worker/domain_adapters.py:99-150 | in every run a reply is handed out exactly while it waits and its room runs, to any number of workers, each claim beside the others |
| RoomReplies.SavedIff | worker/domain_adapters.py:245-394 | in every run a worker's reply is saved, as the next message, if and only if the room runs, the reply waits under the claim's token and, where it completes an answer, no other answer to that question did; otherwise only the claim is gone |
| RoomReplies.SummaryIsKept | worker/domain_adapters.py:319-340 | a saved reply that summarised leaves a summary of all its claim saw but the last two messages, any other leaves the summary alone |
| RoomReplies.FailedIff | worker/domain_adapters.py:1859-1889 | in every run a worker fails a reply exactly under the token it waits with, touching nothing else, and a retry then makes it wait under a token that no claim on it holds |
| RoomReplies.RetrySupersedes | app/repositories/conversation.py:715-785 | after a retry no worker that was out with the reply before can save or fail it, whatever follows |
| RoomReplies.EndsWithItsTurns | worker/domain_adapters.py:531-627 | in every run in which the user completes nothing, a room has ended if and only if it is a scenario all of whose turns are taken |
| RoomInvariant.StepKeepsLedger | app/repositories/conversation.py:293-383 | each single step keeps the ledger |
| RoomInvariant.StepKeepsAsked | worker/domain_adapters.py:276-292 | each single step keeps the order of questions, one current answer per question and the announced question |
| RoomContext.StepKeepsCoverage | worker/domain_adapters.py:319-340 | each single step keeps the summary a beginning of the room, and each outstanding claim's view whole |
| RoomContext.ShownWithoutGap | worker/executors.py:203-208 | splitting off the older messages keeps what is shown in one piece |
| InterviewRounds.EveryInterviewEnds | worker/executors.py:335-408 | with one outstanding answer and no failures, whatever the model returns: no question gets more than 3 answers, the room waits for its user within 3n replies, and then every question has been answered |
| InterviewRounds.AllCompleteTakesN | worker/executors.py:362-381 | an interview whose answers are all called complete waits for its user after exactly n replies, having asked one question after the other |
| InterviewRounds.NoneCompleteTakes3N | worker/executors.py:335-361 | one whose answers are never called complete asks each question three times and waits for its user after exactly 3n replies |
| InterviewRounds.CapNeverCutsOff | worker/domain_adapters.py:203-227 | the cap on all answers is only ever seen on the third attempt at the last question |
| InterviewRounds.RoundKeepsTidy | worker/domain_adapters.py:361-371 | one round adds one reply and keeps at most 3k answers to the k questions done and at most 2 to the next |
| PracticeRoom.Converse | worker/executors.py:335-408 | the successive corrections of the model's reply give the decision the theorems are about; when the verdict counts is RoomTheorems.VerdictCounts |
| PracticeRoom.PracticeRoom.CreateMessage | app/repositories/conversation.py:285-429 | accepts exactly the open question of a running room while the user's active jobs are below the limit, and is then the send step; each refusal has its own cause and changes nothing |
| PracticeRoom.PracticeRoom.Claim | worker/domain_adapters.py:99-243 | is the claim step for a waiting reply of a running room, and otherwise refuses |
| PracticeRoom.PracticeRoom.Complete | worker/domain_adapters.py:245-394 | is the save step; a stale token, an ended room or a second current answer takes every statement back |
| PracticeRoom.PracticeRoom.FailTarget | worker/domain_adapters.py:1859-1889 | link only: fails a reply only under its own token |
| PracticeRoom.PracticeRoom.RetryResponse | app/repositories/conversation.py:715-785 | retries exactly a failed reply, under a fresh token |
| PracticeRoom.PracticeRoom.CompleteInterview | app/repositories/conversation.py:517-595 | completes exactly an interview that waits for its user |
| PracticeRoom.PracticeRoom.CompletePractice | app/repositories/conversation.py:597-689 | link only: completes exactly a running room, with a result unless it has no turn |
| PracticeRoom.PracticeRoom.RetryResult | app/repositories/results.py:96-178 | retries exactly a failed or missing result of a completed room |
| PracticeRoom.PracticeRoom.DeleteResult | app/repositories/results.py:180-203 | link only: deletes exactly a result whose job is over |
| PracticeRoom.PracticeRoom.DismissGoalPrompt | app/repositories/conversation.py:691-713 | takes back an announced goal, remembers the dismissal (GoalProgress.DismissalIsRemembered), and changes nothing else |
| PracticeRoom.PracticeRoom.WorkOn | worker/queue.py:71-103 | a worker's turn on a reply keeps the room's invariants however the model answers |
| GoalProgress.AchievedIsTheUnion | worker/domain_adapters.py:1038-1080 | after any run a condition is achieved if and only if some evaluation reported it with evidence |
| GoalProgress.AchievedIgnoresOrder | worker/domain_adapters.py:1038-1080 | runs with the same evaluations in any order, mixed with any other steps, end with the same conditions achieved |
| GoalProgress.FirstEvidenceStays | worker/domain_adapters.py:1038-1080 | an achieved condition and its evidence never change again |
| GoalProgress.FirstEvaluationWins | app/ai/schemas.py:61-66 | the evidence kept is that of the first report that counts: achieved, and with evidence |
| GoalProgress.GoalMeansAllRequired | worker/domain_adapters.py:1082-1109 | in every run the goal is only announced with every required condition achieved and never after a dismissal |
| GoalProgress.GoalIsAnnounced | worker/domain_adapters.py:1082-1109 | an evaluation announces the goal of a running, undismissed scenario if and only if it leaves no required condition open |
| GoalProgress.DismissedForGood | app/repositories/conversation.py:691-713 | once dismissed, the goal is never announced again |
| GoalProgress.DismissalIsRemembered | app/repositories/conversation.py:691-713 | in every run of a new room, a dismissal that takes effect takes the announcement back and is remembered: whatever follows, the goal is never announced again |
| GoalProgress.GoalProgressAdapter.Complete | worker/domain_adapters.py:1018-1122 | the loop over the reports is one evaluation step; a superseded or settled evaluation changes nothing |
| DocumentTheorems.RunKeepsInv | app/repositories/interviews.py:245-290 | every run of uploads, deletions, analyses, claims, starts, late completions, retries, failures, crashes, reaps, regenerations, room starts and ticks keeps what the next rows state, and at most one worker is out with a configuration under its token, the one that processes its job |
| DocumentTheorems.NothingReadyOnDeleted | worker/domain_adapters.py:1457-1514 | no configuration is ever ready while a document behind one of its analyses has been deleted by the delete endpoint, although completion does not look at the documents again; replacing a document sets `deleted_at` too and is not covered (next rows) |
| DocumentReplacement.ReplacementIsHarmlessIff | app/repositories/interviews.py:57-120 | in every run, an accepted replacement leaves every ready configuration on current documents, over all continuations without a further replacement, late saves included, if and only if the replaced document is used by no ready configuration and by none that some worker, started or still in time to start, may save; a claim that was given back or whose worker is gone does not count |
| DocumentReplacement.CarefulRunsAreReadyOnCurrent | worker/domain_adapters.py:1457-1514 | in every run whose replacements meet that condition no configuration is ever ready on a replaced or deleted document |
| DocumentDeadEnds.AllFoundIff | worker/domain_adapters.py:1425-1443 | the claim's row count is met exactly if each listed analysis is eligible and none is listed twice |
| DocumentDeadEnds.DeadEndHasItsCause | worker/sql_queue.py:391-429 | in every run, a step leaves a configuration generating behind a queued job no claim of which will be granted if and only if it is a replacement of a document it uses while its job is queued, a retry after a replacement, a regeneration after a replacement, or a creation or regeneration with an analysis listed twice |
| DocumentDeadEnds.DeadEndStays | app/repositories/interviews.py:272-283 | no step leads out of such a dead end but the deletion of another, current document behind it |
| DocumentGeneration.GeneratingSettlesIff | worker/sql_queue.py:91-183 | in every run a generating configuration has a continuation in which it is ready or failed if and only if it is no dead end |
| DocumentGeneration.ReadyByItsJobIff | worker/queue.py:71-140 | in every run its job makes it ready in some continuation if and only if a worker is out that has started or still can before the deadline, or the job is queued with time left and every listed analysis is found |
| DocumentGeneration.GeneratingBecomesReadyIff | worker/domain_adapters.py:1403-1455 | in every run it has a continuation in which it is ready, by this job or after a regeneration, if and only if such a worker is out or every listed analysis is found |
| DocumentGeneration.RunKeepsOneActive | supabase/migrations/20260825033933_current_remote_schema_baseline.sql:821 | in every run a setup has at most one generating, ready or used configuration |
| DocumentDeadEnds.GivenBackAndReplaced | worker/domain_adapters.py:1829-1856 | a concrete run: a provider error gives the claim back, the document is replaced before the retry is due, and the configuration is generating for good, without a regeneration |
| DocumentDeadEnds.ReplacedAndRegenerated | app/repositories/interviews.py:76-89 | a concrete run: a document is replaced under a ready configuration, which stays ready and is then regenerated into a dead end |
| DocumentTheorems.DeletedIsInert | worker/domain_adapters.py:1403-1455 | after a deletion no analysis of the document can be started, claimed or saved, and no configuration using one can be claimed or created |
| DocumentTheorems.ChunksOnlyOfCurrent | worker/domain_adapters.py:1292-1372 | stored chunks belong only to current documents in their own version, come from one analysis, the one that succeeded last, and are numbered without a gap |
| DocumentTheorems.SavedChunksAreAll | worker/domain_adapters.py:1333-1353 | in every run an accepted save leaves exactly its chunks, numbered from 0, as those of the document, and the chunks of every other document as they were |
| DocumentTheorems.OneCurrentDocument | app/repositories/interviews.py:57-120 | documents of one setup and type have different versions and at most one is current |
| DocumentSteps.VersionsCountUp | app/repositories/interviews.py:57-120 | in every run the documents of one setup and type have the versions 1, 2, ... in the order of their upload |
| DocumentSteps.DocumentsMove | app/repositories/interviews.py:57-120 | in every run a document is replaced exactly by an accepted upload that names it and deleted exactly by the endpoint, while it is current; an upload is accepted if and only if the document it names is current and no other of its setup and type is |
| DocumentSteps.AnalysesMove | worker/domain_adapters.py:1292-1372 | in every run an analysis ends exactly by a report of a worker with its token, a result only while its document is current, or by the deletion of its document |
| DocumentSteps.OneRunning | app/repositories/interviews.py:164-215 | in every run a document has at most one running analysis |
| DocumentSteps.ConfigurationsMove | worker/domain_adapters.py:1457-1514 | in every run a configuration is settled, given back with its delay, reaped, withdrawn, regenerated, used and finished exactly under the stated conditions on its own row, and moved by nothing else |
| DocumentSteps.WorkersMove | worker/queue.py:71-140 | in every run a worker starts on a configuration only in time, once, and reports once |
| DocumentTheorems.ClaimMeansEligible | worker/domain_adapters.py:1425-1443 | the row count in the claim's guard means that every listed analysis is eligible |
| DocumentRepository.DocumentRepository.CreateDocument | app/repositories/interviews.py:57-120 | is the upload step and keeps the invariant; an unknown predecessor or a second current document takes everything back |
| DocumentRepository.DocumentRepository.DeleteDocument | app/repositories/interviews.py:245-290 | link only: is the deletion step, for current documents only; afterwards no chunk of the document, no running or succeeded analysis of it, and no generating or ready configuration using one is left |
| DocumentRepository.DocumentRepository.AnalyzeDocument | app/repositories/interviews.py:164-215 | starts an analysis exactly of a current document without a running one |
| DocumentRepository.DocumentRepository.CompleteAnalysis | worker/domain_adapters.py:1292-1372 | is the save step with its insert loop, under token, version and currency |
| DocumentRepository.DocumentRepository.CreateConfiguration | app/repositories/interviews.py:314-376 | creates exactly from analyses that are all eligible, with no other active configuration in the setup |
| DocumentRepository.DocumentRepository.RegenerateConfiguration | app/repositories/interviews.py:378-438 | regenerates exactly a failed or ready configuration without an active job and without another active one in its setup, under a fresh token and with a new job |
| DocumentRepository.DocumentRepository.ClaimConfiguration | worker/domain_adapters.py:1403-1455 | claims exactly a due, queued job of a generating configuration whose listed analyses are all found |
| DocumentRepository.DocumentRepository.CompleteConfiguration | worker/domain_adapters.py:1457-1514 | makes ready exactly what still processes under the claim's token, ends the claim either way, and keeps the invariant |
| DocumentRepository.DocumentRepository.HandleProviderFailure | worker/queue.py:114-140 | gives the job back with the planned delay, or fails row and job, exactly where both guards are met, and ends the claim either way |
| DocumentRepository.DocumentRepository.CreatePracticeRoom | app/repositories/interviews.py:485-557 | starts a room only from a ready configuration, so never on a deleted document |
| Idempotency.ExactlyOnce | app/services/idempotency.py:39-182 | while a record is retained, over any interleaving and any clock readings, at most one completion of its key succeeds; a replay returns exactly that response, and only for the same fingerprint |
| Idempotency.CompletionsAreStored | app/services/idempotency.py:144-182 | in general the successful completions of a key are as many as its completed records ever purged or stored, the last one being the stored response |
| Idempotency.CompletedStays | app/services/idempotency.py:39-142 | a completed record survives every operation but a purge after its expiry |
| Idempotency.FingerprintStays | app/services/idempotency.py:39-142 | a key keeps the fingerprint of its first request |
| Idempotency.SupersededForGood | app/services/idempotency.py:144-221 | a token that does not hold its record can never complete or fail it again, whatever happens |
| Idempotency.ClaimSupersedes | app/services/idempotency.py:105-142 | a granted claim is the valid one, and every token issued before it is worthless for good |
| Idempotency.ClaimHoldsForItsLease | app/services/idempotency.py:39-142 | in every run, after a claim granted at `now`, and until its token completes or fails, every request for the key with its fingerprint is answered `InProgress` if read before `now` plus the lease, the next one from then on is granted, and any other fingerprint is refused |
| Idempotency.FailureIsGranted | app/services/idempotency.py:184-221 | after a retryable failure reported by the claim that holds the record, whatever else happens meanwhile, the next request with the fingerprint is granted |
| Idempotency.PurgedFromExpiry | supabase/migrations/20260825033933_current_remote_schema_baseline.sql:946-957 | a purge before the expiry of a completed record leaves its replays, one from then on lets the next request claim |
| Idempotency.LeaseIsExclusive | app/services/idempotency.py:105-142 | while the stored lease runs nothing others try changes the record; how long a granted lease runs is the row above |
| Idempotency.IdempotencyRepository.Claim | app/services/idempotency.py:39-142 | insert, lookup and takeover give the protocol's claim outcome and step |
| Idempotency.IdempotencyRepository.Complete | app/services/idempotency.py:144-182 | completes exactly under the holding token, else reports the claim as lost and changes nothing |
| Idempotency.IdempotencyRepository.FailRetryable | app/services/idempotency.py:184-221 | link only: records a retryable failure exactly under the holding token |
| TtsBatching.BatchPcmChunks | worker/executors.py:54-69 | the batches join to the very bytes, all but the last are exactly of the batch size and the last is not empty; an aborted input yields only full batches, and all it can; a size below 1 is an error |
| TtsBatching.OneWayToBatch | worker/executors.py:54-69 | bytes and batch size determine the batches |
| TtsTheorems.OutputIsPrefixes | app/services/tts_streaming.py:46-94 | in every safe run the reader's output is a prefix of what was written under each token it followed, one after the other |
| TtsTheorems.OutputOfOneToken | app/services/tts_streaming.py:46-94 | without a retry it is a prefix of the audio, and the whole audio once the reader stops on `ready` |
| TtsTheorems.OutputAcrossARetry | app/services/tts_streaming.py:84-89 | across one retry it is a prefix of the first audio followed by a prefix of the second, the whole second if it stops on `ready` |
| TtsTheorems.StopsIff | app/services/tts_streaming.py:70-94 | the reader stops exactly when the audio is gone, or is no longer rendering under its token with no further chunk to read, and then on that status |
| TtsTheorems.ReaderStops | app/services/tts_streaming.py:46-94 | in every safe run, once the audio is no longer rendering, three more rounds at most stop the reader on its status |
| TtsTheorems.UndisturbedIsHeard | worker/executors.py:450-465 | an audio written and finished without disturbance is heard as a whole, whatever its batches |
| TtsTheorems.PunctualRunIsSafe | worker/executors.py:450-465 | every run in which failed attempts stop appending and chunks do not expire under the reader is safe |
| TtsTheorems.AppendReadInOrderIffSafe | worker/tts_streaming.py:26-42 | a row appended under the token the reader follows is read in order if and only if the worker's previous row is still stored or was read |
| TtsTheorems.AppendAheadIsReadInOrder | worker/tts_streaming.py:26-42 | a row appended under the token the reader is about to move to is always safe and, with all rows before it, read after the move |
| TtsTheorems.ExpiredUnreadIsLost | app/services/tts_streaming.py:56-68 | an expiring chunk is heard if and only if it had been read, while later ones are heard |
| TtsTheorems.OvertakenWorkerLeavesAGap | worker/domain_adapters.py:1151-1159 | a run in which a worker overtaken by a retry appends behind the cleared table and the reader yields its second chunk without the first |
| TtsReader.IterTtsPcm | app/services/tts_streaming.py:46-94 | the polling loop with its sequence number, token, clock and timeout yields what the rounds of the stream model that begin before the deadline yield, and stops when they do |
| TtsReader.InTimeIs | app/services/tts_streaming.py:54-56 | the rounds it takes are those up to the first that would begin at or after the deadline |
| TtsReader.TtsChunkWriter.WriteAll | worker/executors.py:462-465 | the batches become rows 0, 1, ... of the token in order, and no other row changes |
| TtsReader.TtsChunkWriter.Append | worker/tts_streaming.py:26-42 | a stored chunk is never overwritten |
| TtsReader.TtsChunkWriter.Reset | worker/tts_streaming.py:15-24 | clears the chunks of one audio and keeps all others |
| Chunking.ChunkDocument | app/ai/rag.py:25-49 | the chunks are numbered 0, 1, ..., each a full slice of the words but the last, which alone reaches the end; bad sizes are errors, even for an empty text |
| Chunking.ChunksLoseNothing | app/ai/rag.py:25-49 | dropping the overlaps and concatenating gives the document's words back |
| Chunking.NeighboursOverlap | app/ai/rag.py:25-49 | neighbours share exactly the overlap, and the later one adds a word |
| Chunking.ChunkCount | app/ai/rag.py:25-49 | there is one chunk up to the maximum and ceil((n - overlap) / step) above it |
| Chunking.ChunkWords | worker/domain_adapters.py:1333-1353 | splitting a stored chunk gives exactly its words, so that the stored token count is right |
| Chunking.SplitJoined | app/ai/rag.py:36-46 | words joined by spaces split into the same words |
| GoldQuotes.QuoteIsFound | scripts/rag_eval.py:142-152 | however it is spaced and wrapped, a quote of consecutive words of a text is found in it |
| GoldQuotes.MatchIsReal | scripts/rag_eval.py:142-152 | a text matches if and only if the words of some quote that is not blank occur in it, up to white space |
| GoldQuotes.ShortQuotesAreNeverCut | app/ai/rag.py:25-49 | a quote of at most one word more than the overlap is found in some chunk of the document, wherever it stands |
| GoldQuotes.WithinSomeIff | app/ai/rag.py:25-49 | a longer span lies within some chunk if and only if it ends within the last chunk that starts before it |
| Retrieval.SimilarityComparesLikeCosine | scripts/rag_eval.py:102-112 | the signed square of the cosine, computed from the embeddings without roots, orders chunks and meets a positive threshold exactly as the cosine itself does |
| RetrievalTheorems.ComparableIff | scripts/rag_eval.py:102-112 | the cosine is refused exactly for different dimensions, no dimension and zero vectors |
| RetrievalTheorems.SimilarityIsBetween | scripts/rag_eval.py:102-112 | it lies between -1 and 1, by the Cauchy-Schwarz inequality, is symmetric, and 1 for a vector and itself |
| Retrieval.RetrieveTopK | scripts/rag_eval.py:114-139 | is an error exactly for different counts, a threshold outside (0, 1], a count below 1, or an embedding the cosine refuses; otherwise it is the retrieval the theorems are about, on similarities of the embeddings |
| Retrieval.RetrievedAreTheBest | scripts/rag_eval.py:136-139 | what is retrieved begins the ordered list of all eligible chunks, and is all of it unless there are more than k |
| Retrieval.EligibleExactly | scripts/rag_eval.py:136 | each candidate is eligible exactly as often as it was given if its similarity is at least the threshold, and else not at all |
| RetrievalTheorems.RetrievedInOrder | scripts/rag_eval.py:137-139 | chunks are retrieved by falling similarity, equally similar ones by document and index |
| Retrieval.HigherRetrievesAPrefix | scripts/rag_eval.py:114-139 | a higher threshold retrieves a prefix of what a lower one does |
| Retrieval.MetricsAreMonotone | scripts/rag_eval.py:155-190 | over any case set recall at k, partial recall and MRR never rise with the threshold, and negative rejection never falls |
| Retrieval.RankIsWorth | scripts/rag_eval.py:164-177 | finding at rank r a case not found before adds exactly 1/r to the sum of reciprocal ranks |
| Retrieval.FoundIsOfCases | scripts/rag_eval.py:155-171 | the hits counted are the cases of that behaviour found within the limit |
| Retrieval.RejectedIsOfCases | scripts/rag_eval.py:178 | the rejections counted are the negative cases that retrieved nothing |
| Retrieval.MrrIsBetween | scripts/rag_eval.py:164-177 | over any case set hit@1 <= MRR <= recall@k |
| Retrieval.FullMarks | scripts/rag_eval.py:164-178 | recall is 1 exactly if every such case has its quote within the limit, and rejection is 1 exactly if every negative case retrieves nothing |
| Retrieval.ScopedIsTheDocument | scripts/rag_eval.py:341-346 | a case's candidates are exactly the chunks of its own document, each with the similarity of its own embedding |
| Retrieval.Evaluate | scripts/rag_eval.py:328-375 | the loop over the cases, each ranked by the text comparison with its quotes, gives the results the metrics theorems are about, and no result exactly if counts differ or some case's retrieval is an error |
| RetrievalTheorems.AllRunExactly | scripts/rag_eval.py:328-375 | an evaluation runs if and only if the counts, threshold and limit are in order and the query of every case and every chunk of its document have comparable embeddings |
| RetrievalTheorems.RankIsOfTheFirst | scripts/rag_eval.py:356-374 | the rank of a case is the place of the first retrieved chunk of its document with a quote of it, and none for a case without evidence |
| Sampling.PositionsSpreadOut | scripts/rag_eval.py:294-297 | for every group larger than a limit of at least 2 the rounded positions rise strictly from 0 to n - 1, each within half a case of its exact place |
| Sampling.FloatRoundsTheSame | scripts/rag_eval.py:294-297 | rounding the correctly rounded 53-bit quotient, as Python does, gives what rounding the exact quotient gives, for numerators below 2 ** 52 |
| Sampling.FloatPositionIsExact | scripts/rag_eval.py:294-297 | so the positions computed in floating point are those of the previous rows |
| Sampling.RoundedIff | scripts/rag_eval.py:294-297 | the rounded position is the nearest integer, and the even one of two equally near |
| Sampling.SampledIsSpread | scripts/rag_eval.py:286-297 | so exactly as many cases as the limit allows are chosen, none twice, in order, both ends included, the i-th at its rounded place |
| Sampling.OneIsTheMiddle | scripts/rag_eval.py:291-293 | a limit of one picks the middle case, the later one of two |
| Sampling.GroupIs | scripts/rag_eval.py:287 | a group holds exactly the cases of its behaviour, in their order |
| Sampling.StratifiedCases | scripts/rag_eval.py:278-298 | the selection is the samples of the three behaviours in their order; a limit below 1 is an error |
| Scores.FromScores | app/ai/schemas.py:209-252 | whatever scores come in, with duplicates and in any order, the evaluation passes its own validator |
| Scores.KeptIsCanonical | app/ai/schemas.py:254-272 | the kept categories are distinct and in canonical order, and there is a total, between 20 and 100, exactly if all five are present |
| Scores.KeptAreTheLowest | app/ai/schemas.py:220-235 | each scored category keeps points, remarks and, from 16 points on, strength of the first of its lowest scores |
| Scores.EvaluationSays | app/ai/schemas.py:209-252 | the missing categories are exactly those without a score, in order; the evaluation is complete exactly if none is missing, with the sum of the five as its total, and unscored exactly if no score came in |
| Scores.KeptTwice | app/ai/schemas.py:209-252 | normalising a normalised evaluation changes nothing |
| Scores.KeptIgnoresOrder | app/ai/schemas.py:220-226 | lists with the same scores in any order and number keep the same points |

## Left out

- HTTP routers, authentication, settings, storage adapters and provider clients: plumbing around
  values that are arbitrary here.
- The per-user limit on active jobs outside `PracticeRoom.CreateMessage`, and lookups of rows that do
  not exist or belong to somebody else, which only refuse requests.
- Statement-level races inside a transaction and clock skew between the workers and the database.
- The storage object behind a ready audio: a stale completion deletes the shared path, so a promise
  that it exists would not hold.
- A second attempt at an audio under the same token, which clears the chunks without rotating the
  token: the stream model has one attempt per token.
- The job side of analyses inside `Documents`: a worker may come back with a claim on an analysis at any
  time and repeatedly there, which is more than its job allows. Configurations have their jobs, deadlines
  and claims in that model.
- The blank-text check in the claim of a document analysis, which refuses more claims.
- Evidence filtering and the pairing of evidence with questions in configuration generation.
- Terminal idempotency failures, which the database allows but no code path writes.
- Voice-message upload, account deletion, catalogue and profile maintenance, home streaks, pagination,
  reports, demo and cleanup scripts: easy members or external services.
- Retrieval.RetrieveTopK: computes with exact real numbers; rounding of the similarities in floating
  point, which can break ties, is not modelled.
- Retrieval.MetricsAreMonotone: does not cover the accuracy of the optional relevance judgement,
  which a language model makes after retrieval.
