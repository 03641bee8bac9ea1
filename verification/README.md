# Verification of the durable transcription job engine

A Dafny model of the bot's durable job engine: the intake of Telegram updates, the inbox, the jobs and their outbox in
PostgreSQL, the stage workers, and the pieces that feed them. The SQL is weak on purpose: the updates that move a job
test no state, the per-chat order test takes no lock and is never repeated, and inserts drop conflicts silently. What
makes it safe is one invariant over locks, cursor, inbox order, job rows, outbox, backend jobs and the position of every
worker. The project states that invariant, proves it inductive, and derives the program's promises from it.

## How the project is laid out

- `Tables` holds the rows and every SQL statement as a function; `Locks` holds sessions, re-entrant advisory locks and
  the connection pool.
- `Engine` is a transition system. Each committed statement or transaction, each external call and each fault is one
  atomic action. Any number of actors on any number of processes interleave. An external call succeeds, fails, or takes
  effect with its reply lost; so does a commit. A session may die at any moment and frees its locks, while the goroutine
  that used it goes on calling Telegram and the backend. A process may crash at any point.
- `EngineInvariant` defines the invariant. `EngineStability`, `EngineEnvironment`, `EngineClaims`, `EngineWrites`,
  `EngineCalls`, `EngineWorker` and `EngineIntake` prove it inductive by rely and guarantee: an actor's knowledge survives
  the steps of everybody who does not hold its lock.
- `Guarantees` and `GuaranteesOfCalls` state what holds in every run; `History` says which steps change a job, and `Retries`,
  `Resending`, `Receipts` and `Duplicates` follow one job along a run. `SentTwice` builds the run that refutes one sentence of the documentation.
- `Admission` proves crash-idempotent admission against a left fold over the updates.
- `StageRuns` gives the statements of one stage run and proves termination; `DurableStore` and `StageWork` are the store
  and the worker as classes whose methods send one statement at a time, each of which may fail or end its connection.
  `WorkerRefinement` ties the worker's methods to the engine.
- `ResultPlan`, `Identity`, `Backoff`, `UploadStream`, `ProgressSlot` and `DownloadProgress` are the smaller pieces, each
  with its loops or interleavings.

## What is assumed of the environment

- Telegram numbers updates upward, answers getUpdates with a prefix of the pending updates from the offset on, in id
  order, and discards those below the offset.
- The backend keeps one job per request id for good, gives non-empty job ids, never changes a terminal result, and keeps
  it until Ack.
- PostgreSQL: a statement on a session commits while the session lives, or not at all. The lock hash is an arbitrary
  function, so colliding keys only block each other. A connection that is still usable after reporting an error took no
  lock. The database clock never goes back. Commits that arrive late are covered, because a worker may stand before its
  commit for as long as it likes.
- One bot: `bot_id` is fixed, and the rows of other bots are not represented.
- Telegram's edit that falls back to a new message counts as one call: the edit was refused, so at most one message
  appears.

## Where the documentation and the code differ

- `docs/durable-jobs.md:19` gives the states as a line from status to done. The code also goes from upload straight to
  deliver when the backend refuses the upload (`bot/bot/durable.go:268-271`); the model follows the code.
- `docs/durable-jobs.md:63-64` says that confirmed parts are not sent again. That is false of a worker whose session has
  died: `SentTwice.ConfirmedPartIsSentAgain` is such a run. `Resending.SentAgainIffOvertaken` says exactly when it happens:
  if and only if, between the sender's reading of the part and its call, the sender's session died and another worker
  stored the part's receipt. So it never happens to a sender whose session is alive when the call starts, and
  `Duplicates.DuplicatesAreBounded` bounds how often it can.

A consequence of the assumed retention: while the backend honours it, the answer for missing jobs
(`docs/durable-jobs.md:58-60`) is never stored, because a worker that hears of a missing job has already lost its session
(`EngineCalls.MissingIsOk`, `Guarantees.StoredResultsAreGenuine`). It is there for results deleted outside that contract.

## Model

| member | source | states |
|---|---|---|
| Guarantees.StepKeeps | bot/store/durable.go:26-49 | The invariant is inductive over every action of every actor and every fault, and each action moves all durable state forward |
| Guarantees.RunEvolves | bot/store/durable.go:218-257 | Between any two points of any run: states and the cursor never go back, job ids, results, receipts, acknowledgements and cancel flags once stored are never undone, inbox and backend records are only added to |
| Guarantees.StatesFollowTheEdges | bot/store/sql/job_status.sql:1 | Every change of a job's state, by whomever, is one of the five edges, although the update tests no state |
| Guarantees.SnapshotIsCurrent | bot/store/durable.go:218-240 | While the session that owns a job's lock lives, the worker's snapshot is the stored row except for its own committed acknowledgement in deliver, its own committed progress text in poll, and a cancel request; next_attempt_at differs only if a cancellation was requested |
| Guarantees.KeysHaveOneLiveOwner | bot/store/durable.go:26-49 | For any hash, two live sessions never own one key, and no pooled connection holds a lock or the poller's timeout |
| Guarantees.FifoAlways | bot/store/sql/job_candidates.sql:2-6 | Of two jobs of one chat, the later has left status only if the earlier has, and has left upload only if the earlier has, in every reachable state |
| Guarantees.StatusClauseIsRedundant | bot/store/sql/job_candidates.sql:5 | For a job in upload, dropping the clause about earlier jobs in status changes no answer of the candidate query |
| Guarantees.SomeJobIsUnblocked | bot/store/sql/job_candidates.sql:2-6 | A chat with an unfinished job always has an unfinished job that the order test lets through |
| Guarantees.AckedResultsAreStored | bot/bot/durable.go:344-361 | Whatever backend job has been acknowledged or purged, its own terminal result is stored here with the complete, exactly numbered outbox |
| Guarantees.AckComesAfterTheResult | bot/bot/durable.go:351-361 | Ack is called, even by a worker whose session has died, only with the non-empty id of this job's backend job and after the result transaction committed |
| Guarantees.StoredResultsAreGenuine | bot/bot/durable.go:281-290 | A stored result is the backend's terminal result of that very job, or the local upload error of a job that never got a backend id |
| Guarantees.OutboxIsThePlan | bot/bot/durable.go:314-379 | From deliver on, the parts are exactly the plan of the stored result, numbered from 0, delivered as a prefix; done means acknowledged and all delivered; outside lectures the parts read in order are the backend's text, or the silence notice when it is empty; a lecture's second part is the file of its segments' lines |
| Guarantees.ResultFindsNoParts | bot/store/sql/delivery_insert.sql:1 | A live worker about to save a result finds no stored part and has a non-empty plan, so neither the silent conflict nor the empty-plan error occurs |
| GuaranteesOfCalls.NoUpdateIsLost | bot/bot/durable.go:74-111 | Every update ever produced is still pending at Telegram or in the inbox, where it keeps its payload exactly until it is handled |
| GuaranteesOfCalls.IntakeIsOrdered | bot/store/sql/cursor_write.sql:1 | Between any two points of a run the cursor does not decrease, inbox rows stay, and every id inserted in between is above all earlier ones |
| Duplicates.DuplicatesAreBounded | bot/bot/durable.go:362-374 | Along any run: per message at most one receipt is ever stored, and the calls that reached Telegram exceed the calls without a receipt by at most one, dead senders included; a part is marked delivered exactly when its receipt was stored |
| GuaranteesOfCalls.PartsGoInOrder | bot/store/sql/delivery_next.sql:1 | Whoever sends a part, the receipts of all lower parts are committed and the text is the stored one; a sender with a live session never sends a delivered part |
| Resending.SentAgainIffOvertaken | bot/bot/durable.go:362-374 | Every send of a part goes back to the sender's own read of it as undelivered; the part is already delivered when it is sent if and only if another worker has stored its receipt since that read, with the sender's session dead; a live sender never repeats one |
| History.RowsChange | bot/store/durable.go:241-257 | A job's row and parts change only by a statement that the live holder of its lock commits, exactly as that statement says, or by a cancel request that finds the job in poll, which sets the flag and the due time |
| History.JobsAppear | bot/store/durable.go:161-170 | A job appears only when the transaction for its own update commits, with the decided media, that update's identity, due at once and nothing else set |
| History.ChangedStateIsDue | bot/store/sql/job_result.sql:1 | Every change of state short of done makes the job due at once, with no attempts and no error on record |
| Receipts.StatusMessageIsAReply | bot/store/sql/job_status.sql:1 | The stored status message is one that Telegram returned to a status call of this very job |
| Receipts.ReceiptIsAReply | bot/store/sql/delivery_done.sql:1 | The message stored with a delivered part is one that Telegram returned to a send of this part of this job |
| Receipts.ProgressIsNews | bot/bot/durable.go:298-306 | A poll by a live session never shows the progress text that is already stored, and goes on to store the text it has shown |
| Receipts.ProgressIsStored | bot/store/sql/job_progress.sql:1 | The committed write stores that text and changes nothing else |
| SentTwice.ConfirmedPartIsSentAgain | bot/bot/durable.go:362-374 | A witness against the documented sentence: for any update and admitted job, as update 1 and with an upload that the backend refuses, and for a hash that tells the three lock names apart, there is a run whose last action sends a part whose receipt is stored |
| GuaranteesOfCalls.OneBackendJobEach | bot/bot/durable.go:257-274 | Two backend jobs of one row are the same job; it carries the row's request id, file, format and preset, and a stored job id names it |
| GuaranteesOfCalls.RetriesSubmitTheSame | bot/whisper/client.go:88-112 | Any two uploads with one request id, by any workers at any times, carry the same media, format and preset |
| GuaranteesOfCalls.CancelIsKept | bot/store/sql/job_schedule.sql:1 | A cancel flag is never cleared, and only a job past upload with a backend id ever has one |
| GuaranteesOfCalls.CancelTouchesItsJobOnly | bot/store/sql/job_cancel.sql:1 | A request flags exactly the polled job with that backend id and chat, and changes nothing but the flag and the next attempt |
| GuaranteesOfCalls.CancelPrecedesTheResult | bot/bot/durable.go:275-307 | A poll stage that read the flag is past the cancel call only after a successful Cancel of its own in that claim, and stays in that claim in between |
| GuaranteesOfCalls.LaterClaimsSeeTheFlag | bot/store/sql/job_read.sql:1-3 | A stage claimed after the request has the flag in its snapshot |
| Retries.FailuresAddUp | bot/store/sql/job_schedule.sql:1 | Unless a cancel request finds the job in poll in between, next_attempt_at has moved out, between any two points of a run, by at least the sum of the delays of all failures recorded in between, across resets of the counter; and that sum covers the backoff of the failures counted |
| Retries.AttemptsCountFailures | bot/store/sql/job_schedule.sql:1 | At every point of every run the attempts column is the number of failures recorded in a row: since admission, the last change of state, or the last poll that found the job running |
| Retries.StepSpaces | bot/store/sql/job_schedule.sql:1 | A recorded failure makes the job due its delay later, which is at least the backoff of the failures before it, counts one more and stores its code; no other step but a cancel request in poll brings the due time forward |
| Retries.PollsEveryFiveSeconds | bot/bot/durable.go:307 | A poll that finds the job running makes it due in five seconds with a clean record |
| Retries.TriesAreSpaced | bot/bot/durable.go:215-244 | Under the same condition whoever works on the job with a live session does so after its earlier due time plus all delays recorded since; so after n failures in a row the next try runs at least the total delay of n failures after the job was first due |
| GuaranteesOfCalls.UploadEditsComeFirst | bot/bot/durable.go:257-274 | No upload-progress edit by a live session comes after any poll or deliver edit of the same job made by a live session, anywhere earlier in the run |
| EngineStability.UnblockedIsStable | bot/store/durable.go:199-240 | Once the unlocked order test has succeeded for a job and stage it can never fail again |
| EngineStability.StepByOneActor | bot/store/durable.go:26-28 | A step that disturbs at most the holder of its own key, and only while its session lives, keeps every other actor's knowledge |
| EngineWrites.HolderWrites | bot/store/durable.go:241-257 | Every statement a live lock holder commits takes its own row along one edge, keeps the row and its receipts sound and undoes nothing |
| EngineWrites.WrittenFifo | bot/store/sql/job_submitted.sql:1 | A holder's write keeps the per-chat order, from the unlocked test alone |
| EngineCalls.SubmitIsOk | bot/bot/durable.go:267-274 | A first or repeated submission leaves the backend with exactly the job this row names and answers its non-empty id |
| EngineCalls.MissingIsOk | bot/bot/durable.go:281-284 | Hearing that the backend job is missing implies that the session is dead, so the answer can never be stored |
| EngineIntake.PersistShape | bot/bot/durable.go:94-111 | After one accepted batch no update below the new cursor is missing from the inbox and the new rows are above all old ones |
| EngineEnvironment.EnvironmentKeeps | bot/store/sql/job_cancel.sql:1 | Time, session death, crashes, Telegram, the backend and the unlocked cancel request keep the invariant |
| Locks.Exclusive | bot/store/sql/lock_try.sql:1 | Under the pool invariant two actors with live sessions and equal key hash are the same actor, although locks are re-entrant within a session |
| Locks.LocksCount | bot/store/sql/lock_release.sql:1 | A lock taken twice by its session is still held after one unlock, is refused to another session until the second, and is not freed by anybody else |
| Locks.ReleaseSound | bot/store/durable.go:40-49 | Unlocking undoes the one lock the connection holds, so it may return to the pool clean |
| Admission.AdmissionIsTheFold | bot/bot/durable.go:131-208 | From any adopted allowlist, with one processor at a time and any number of failed or crashed attempts, jobs, presets and allowlist equal the fault-free left fold over the handled updates; only the current update's own pool write may be ahead |
| Admission.AllowlistInForce | bot/bot/durable.go:157-188 | For every history, a chat is on the fold's allowlist exactly when the last update that concerns it, a membership change or a message of the owner in that group, says so, or it was adopted and none concerns it |
| Admission.OnlyTheOwnerCancels | bot/bot/durable.go:132-145 | An update sets a job's cancel flag if and only if it is the owner's cancel press naming that backend job, under a message in the job's chat, while the job is in poll |
| Admission.MessagesThatBecomeJobs | bot/bot/durable.go:169-207 | A job is wanted if and only if the update is a message that is no command, from the owner, or from anyone in an allowed group, carrying a file, and in groups a voice or round video |
| Admission.JobsNameTheirMedia | bot/bot/handler.go:213-229 | A wanted job carries its message's sender, chat and number, the file that comes first of voice, round video, video and document, its format and noun, and the preset: the chosen one, or lecture for videos over five minutes and voice otherwise |
| Admission.ExtensionIsLast | bot/bot/handler.go:221-226 | A document's format is what follows the last dot of its name, if there is one |
| Admission.DecidingAgainIsHarmless | bot/bot/durable.go:131-208 | Repeating an update whose pool write was already made changes nothing more and wants the same job |
| Admission.JobsUseThePresetInForce | bot/bot/presets.go:29-43 | Each job carries the preset its user last chose by button before the job's own update, resolved for its media |
| Admission.JobsAreAuthorised | bot/bot/durable.go:169-207 | A job comes only from the owner or from a group on the allowlist, with the message's own chat and sender and a non-empty file |
| Admission.WorkersAreInvisible | bot/store/durable.go:241-257 | No statement of a stage worker changes anything admission depends on |
| Tables.ConflictIsARepeat | bot/store/sql/job_insert.sql:1-2 | The job insert is dropped if and only if the update id or the chat and message pair is already admitted: the request id never conflicts on its own |
| Tables.InsertAllEffect | bot/store/sql/inbox_insert.sql:1 | A batch adds exactly its unseen ids, unhandled and with a payload from the batch, and leaves every stored row alone |
| Tables.CursorIsMonotone | bot/store/sql/cursor_write.sql:1 | The cursor becomes the larger of itself and the new offset |
| Tables.CandidatesAreTheEarliest | bot/store/sql/job_candidates.sql:1-6 | At most 32 ready jobs, each once, by due time and update id, none behind an earlier one of its chat in status or upload; a ready and unblocked job is left out only when 32 are listed, and then none of them is due after it |
| Tables.ResultTransaction | bot/store/durable.go:258-276 | The result update and its part-by-part inserts amount to storing the whole plan at once, keeping numbers already taken |
| DurableStore.Store.OpenPoller | bot/store/durable.go:57-84 | The poller's session carries its timeout and its lock outside the pool; on every failing path no lock is left; an owned key is reported as owned, and it fails otherwise only when a statement failed |
| DurableStore.Store.Accept | bot/store/durable.go:97-112 | Batch and cursor commit together or not at all, wherever a statement fails, and they do commit when none does |
| DurableStore.Store.PersistBatch | bot/bot/durable.go:94-111 | Of a reply, what the cursor has passed is dropped, the rest is stored, and the cursor moves just past the largest id |
| DurableStore.Store.IntakeRound | bot/bot/durable.go:74-92 | One round stores the reply to the committed cursor, or nothing when the call failed; it ends intake only when a statement has failed |
| DurableStore.Store.AcceptUpdate | bot/bot/durable.go:131-208 | The imperative decision runs at most the one pool write, and wants the one job, that the decision function gives; a failure leaves the tables as before or with that write |
| DurableStore.Store.ProcessInbox | bot/store/durable.go:136-171 | The least unhandled update is admitted as a whole, or at most its pool write has happened; no work without an error means that no update waits or another session has the lock; with a free lock, a waiting update and no failed statement it is admitted; the lock is free and the pool clean on every path |
| DurableStore.Store.Claim | bot/store/durable.go:218-235 | Of a possibly stale list, the first free job that is still ready is claimed with a snapshot equal to its row; it claims none without an error only if every listed job is locked or not ready, and errs only when a statement failed or a listed job is gone; skipped and failing jobs leave no lock behind |
| StageWork.Work.Result | bot/store/durable.go:258-276 | The terminal result and its delivery plan commit together or not at all; it succeeds if and only if the plan is not empty, the job exists and no statement failed |
| StageWork.Work.Step | bot/bot/durable.go:248-313 | For any replies, and whether statements fail on a live or a dying connection, the committed statements are a prefix of the stage's, all of them unless a statement failed; it returns no error if and only if all committed and the replies allow it |
| StageWork.Work.Deliver | bot/bot/durable.go:351-379 | Acknowledge, send the next part, store its receipt and complete, in that order; a failed Ack still delivers but does not complete |
| StageWork.Work.Run | bot/bot/durable.go:210-233 | A failed stage, by its replies or by a failed statement, is followed by at most the backoff schedule; when no statement fails it is followed by it exactly when the replies made the stage fail and the process is not shutting down; a shutdown reschedules nothing; it reports no error exactly when the stage succeeded or its retry is on record |
| StageWork.WithWork | bot/store/durable.go:199-240 | The first listed job that is free and still ready is claimed and run, on its row as read under the lock, with the statements of such a run; when no statement fails and the listed jobs exist, some such job means work; on every path the lock is free afterwards and no pooled connection holds one |
| WorkerRefinement.EngineRunsTheStage | bot/bot/durable.go:248-313 | For any replies the backend can give, and however the run is cut short or retried, the engine has a run of that worker alone, from its claim, that commits exactly the statements of the worker's methods in their order and leaves the same tables |
| StageRuns.DeliverTerminates | bot/bot/durable.go:351-379 | On the tables: with m undelivered parts a job in deliver is done after exactly max(1, m) fault-free runs and not before, each run delivering the next part |
| StageRuns.DeliveryOutlivesTheBackend | bot/bot/durable.go:351-379 | A run whose Ack fails still delivers the next part and stores its receipt, and leaves the job in deliver and unacknowledged |
| StageRuns.JobTerminates | bot/bot/durable.go:248-313 | On the tables: a job is done if and only if it has had the fault-free runs it needs, from whatever stage: three and one per part when fresh, down to one per undelivered part in deliver |
| StageRuns.ReachableJobsTerminate | bot/bot/durable.go:248-313 | The same from every job of every state of every run of the engine, whatever crashes lie behind it |
| ResultPlan.SplitTextIsExact | bot/bot/handler.go:411-423 | Every message fits the limit, only the last may be shorter, none is empty unless the text is, and together they are the text |
| ResultPlan.SplitTextLoop | bot/bot/handler.go:411-423 | The loop that eats the text from the front computes the closed-form blocks |
| ResultPlan.BuildParts | bot/bot/durable.go:314-343 | The loop over split texts builds the numbered plan |
| ResultPlan.PlanStartsWithTheOnlyEdit | bot/bot/durable.go:314-343 | Every terminal result has a non-empty plan with exactly one edit, at index 0 |
| ResultPlan.PlanCarriesTheText | bot/bot/durable.go:314-343 | In terms of the backend's own fields: outside lectures the quoted parts read in order are the text, or the silence notice when it is empty; a lecture is a notice and a file, which holds that text, or one line with start, end and text for each segment in order, less white space at the end |
| ResultPlan.PlanOfFailure | bot/bot/durable.go:315-326 | A failure is one unquoted edit whose wording tells cancellation, a missing job and a refused upload apart from each other and from any other error |
| ResultPlan.TrimmedIsMiddle | bot/bot/handler.go:148 | Trimming drops all white space at both ends and nothing else |
| ResultPlan.Format | bot/bot/handler.go:142-151 | The loop over the segments builds the text that the plan is made of |
| Identity.RequestIdRoundTrip | bot/store/durable.go:162 | The request id parses back to the bot and update it was rendered from |
| Identity.RequestIdShape | docs/durable-jobs.md:17-18 | Two instances of the documented form, one with a negative id |
| Identity.RequestIdIsInjective | bot/store/sql/migrations/0002_durable_jobs.sql:13-21 | Equal request ids come from equal bot and update ids |
| Backoff.RetryBounds | bot/bot/durable.go:234-244 | Delays lie between 2 and 86400 seconds, grow with the attempts, stay within 256 seconds without a hint and honour a hint up to a day |
| Backoff.HintCountsWhenLonger | bot/bot/durable.go:237-244 | A hint replaces the backoff exactly when it is longer, capped at a day |
| Backoff.TotalDelayClosedForm | bot/bot/durable.go:234-236 | The delays of n consecutive failures sum to 2^(n+1) - 2 seconds up to eight, and to 510 + 256 (n - 8) beyond |
| UploadStream.SendChunks | bot/whisper/client.go:193-224 | For every reader and every failing send: chunks captured from the reused buffer are a prefix of the bytes read, all of them unless a send failed; each fits a mebibyte; the header is on the first alone; an empty identified upload still sends one chunk |
| ProgressSlot.NewestSurvives | bot/bot/progress.go:39-54 | Under every interleaving, when report has returned its text is in the slot or was taken; what is taken and shown follows the order of reports |
| ProgressSlot.NewestGetsShown | bot/bot/progress.go:24-36 | From any state between reports, with the consumer waiting, at most one receive, a tick and an edit that goes through leave the newest text shown, unless it is empty |
| ProgressSlot.TicksShowNews | bot/bot/progress.go:24-36 | A tick begins an edit exactly when the last received text is not empty and not the one that last went through, and it edits that text |
| ProgressSlot.ReportNeverBlocks | bot/bot/progress.go:39-54 | In any state the reporter's next select can go ahead without the consumer, and at most three end the call |
| ProgressSlot.NoEditAfterJoin | bot/bot/progress.go:55-57 | After stop has returned no edit is begun or finished in the rest of the run |
| DownloadProgress.ProgressReader.Read | bot/bot/handler.go:373-383 | Reported counts increase, are never five mebibytes behind, include the end of a download of known length, and come only then |
| DownloadProgress.UnitOf | bot/bot/handler.go:397-409 | For every int64 size of at least a kibibyte the unit index stays in the six-letter table and the number shown is at least 1 and below 1024 |

## Left out

- Transport: Telegram, gRPC and HTTP calls, file downloads, logging, tracing and configuration appear only as the possible outcomes of each call.
- Presentation: keyboards, command replies, callback popups, HTML escaping, wording of progress texts and the rendering of segment times, percentages and sizes as decimals.
- JSON encoding, and matching of error texts: stored JSON is the value itself and each error arrives classified.
- Invalid UTF-8 and lower-casing of non-ASCII file extensions: text is a sequence of Unicode scalar values, and only ASCII letters are lowered.
- Two inbox processors alive at once: preset and allowlist writes are not fenced in the code, so no order of theirs is claimed beyond one live processor at a time. The job insert and the inbox mark are fenced, and the engine covers them for any number of processors.
- Preset, allowlist and owner tests inside the engine: there the processor may decide on any job or none, so the engine's results hold for every decision; `Admission` covers the decision itself.
- Idle timeouts, statement timeouts and keepalives: a session may die at any time instead.
- Fairness: the candidate limit of 32, the number of workers and the ticker are safety-neutral here, and nothing is claimed about how soon a job is picked.
- DownloadProgress.ProgressReader.Read: counts only; the reader always has a callback, as in the upload stage.
- Migrations: the final schema is taken as given.
- DurableStore.Store.Claim: the methods of `DurableStore` and `StageWork` run one call at a time; what other sessions do between two statements is covered by `Engine`. A statement that commits while its reply is lost is likewise an outcome of `Engine` only.
- StageWork.WithWork: the list of candidates is a parameter, because the query is an unlocked statement of its own whose answer may be stale; `Tables.IsCandidateList` says what it answers.
- StageRuns.JobTerminates: counts stage runs, with time and scheduling left out, for a backend that has the result ready.
- SentTwice.ConfirmedPartIsSentAgain: one witness; `Resending.SentAgainIffOvertaken` is the general statement.
- WorkerRefinement.EngineRunsTheStage: one direction only, because the engine allows more: commits whose replies are lost, and other actors in between.
