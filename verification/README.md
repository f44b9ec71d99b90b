# Personal AI Brain: a verified model

Dafny models of the crash-tolerant parts of Personal AI Brain, with proofs of what they keep over every run.

1. **Durable work.** The task store, the worker, the receiver with its inbox and outbox, and the GitHub Issues poller.
   Every durable write is one atomic step, a process may stop between any two of them, and a crash forgets memory and
   keeps files. The worker has a program counter, because its tick is not one step, and its invariant relates that
   counter to the stored records. Requests and cancellations arrive between any two of its steps. `Stack` puts the poller,
   whose handler for work requests is the handoff's client, the receiver and the worker into one system.
2. **Watched events.** Ingestion with its three ways to recognise a duplicate, the cursor-driven reconciliation that
   commits ingest and cursor apart, corrections, and the delivery state machine.
3. **Paid inference.** The ledger of reservations, the broker's loop, the agent on the other end of its socket, and the
   framing between them.
4. **Rollups.** The proposal engine and the integrity checker, two separate ideas of a well-formed rollup.

Each part has three layers. The specification layer is a set of functions and step systems over values, about which the
theorems are proved (`WorkRunner`, `Handoff`, `Admission`, `Control`, `IngestOrder`, `Deliveries`, `ReconciliationRuns`,
`BrokerRuns`, `Rollup`, ...). The meaning layer says what each operation must do, of its inputs and its results alone, field by
field, with the limits as numbers and the codes as texts, and proves it of the specification (`Exits`, `Answers`, `Comments`,
`Ingestion`, `DeliverySteps`, `ReconcileSteps`, `Accounts`, `BrokerEnds`, `RollupSteps`, `IntegritySteps`). The process layer is
the code in the source's own shape, classes that change their fields and loop, proved against both (`WorkStore.Store`, and the
files named `*Process.dfy` and `MediaDatabase.dfy`). The classes `Runner`, `Server`, `Worker`, `Session` and `Media` carry a
ghost trace and keep the invariant that they are in the state which the run of that trace leads to, so each theorem about runs
is a theorem about them.

Conventions. SHA-256 digests and canonical JSON are injective, timestamps are integers, and a redactor that has been
applied changes nothing when applied again. The executor is a contract: it may report `succeeded` only when the stored
test result is a passed one. An event's database id is its position in the table. Fields named `history` in
`Deliveries`, `calls` in `InferenceLedger` and `checkedAt` in `WorkStore`, and the parts of a state called `runs`, `invoked`, `comments`, `log` and
`completed`, record the past and are not stored by the program.

What turned out false, and when it does hold:

- A cancellation of a queued task that stops between its two writes is lost; the task may still run and succeed.
  `docs/work-runner-v01.md` says that recovery marks such a task interrupted; the code recovers only reserved and
  running tasks. `CancelTakesHold` says exactly when a cancellation is durable, `LostCancellation` exhibits the loss.
- Ingestion is independent of order, into any ledger, exactly for the batches described by `IngestOrder.Backed`;
  `OrderCanMatter` is an example of the others.
- A correction keeps the chains acyclic exactly when the event is not on its replacement's chain; two corrections can
  make a cycle.
- Reconciliation stalls exactly when new rows wait but the re-read window alone fills the limit.
- `transition_delivery` accepts `retry_wait` without a 429, so an attempt can be repeated blindly. A run never does so exactly
  when no call moves a row to `in_flight` whose state is `retry_wait` and whose last status is not 429.
  `docs/watched-event-ledger.md` draws no edge from `retry_wait` to `failed`, which the code allows.
- The monthly cap does not hold for the ledger's methods alone: a reservation keeps it exactly when the record is not
  the paid provider's, or the ledger's provider is the paid one, or there is headroom. It holds over every run of the broker.
- Proposing a rollup again after applying the proposal can change more, exactly when the root takes over the one active
  workstream's status while it is itself listed as a workstream that only its own non-blocking status kept out. A null
  in a workstream is no news to a root without the field.
- Validation lets pass what the table's CHECK constraint then refuses: exactly an identified observation with an empty
  quarantine reason that is not suppressed, not known by its source event id, and whose fingerprint is not stored.

## Model

| member | source | states |
|---|---|---|
| WorkStore.Store.Submit | src/personal_ai_brain/work_store.py:68-105 | The admission under the lock, stopped after any number of writes: the files it leaves and the answer it gives, for a known id, a conflicting payload, a stale request, a base that is not allowed, a full store, an orphan directory and a new task |
| WorkStore.Store.TransitionLocked | src/personal_ai_brain/work_store.py:107-118 | Refuses what the transition table refuses; otherwise a terminal record reaches `result.json` before the task file, whatever write it stops after |
| WorkStore.Store.Transition | src/personal_ai_brain/work_store.py:120-127 | A terminal record is returned unchanged, and a flagged one is cancelled instead of being reserved, run or reported as succeeded |
| WorkStore.Store.Cancel | src/personal_ai_brain/work_store.py:129-141 | An unknown task is rejected, a terminal one untouched, a queued one cancelled in two writes and a live one flagged in one |
| WorkRunner.AtMostOnceExecution | src/personal_ai_brain/work_runner.py:92-138 | Over every interleaving of worker steps, submissions, cancellations, faults and crashes, the executor is invoked at most once per task id |
| WorkRunner.NeverPickedAgain | src/personal_ai_brain/work_runner.py:36-47 | A task that has left `submitted`, such as one that recovery closed, is never picked again |
| WorkRunner.CrashEndsTheTask | src/personal_ai_brain/work_runner.py:36-47 | After a crash, a task that had been reserved is not executed any more than it had been, whatever follows |
| WorkRunner.IdleMeansSettled | src/personal_ai_brain/work_runner.py:92-138 | A worker between ticks has left no task reserved or running |
| WorkRunner.SuccessIsOneExecution | src/personal_ai_brain/work_runner.py:118-128 | A task whose record says `succeeded` was executed exactly once |
| WorkRunner.ArtifactTruth | src/personal_ai_brain/work_store.py:107-118 | At every point of every run a terminal task file equals its `result.json`, and `succeeded` comes with a passed test result |
| WorkRunner.TerminalIsFrozen | src/personal_ai_brain/work_store.py:120-127 | Records never disappear or change payload, and terminal ones never change |
| WorkRunner.EdgesAreComplete | src/personal_ai_brain/work_store.py:11-14 | No reachable worker, recovery, failure or cancellation step asks for a transition that the table forbids |
| WorkRunner.HistoryIsAPath | src/personal_ai_brain/work_store.py:93-118 | Every history is a path of the table from `submitted`, of length at most four, ending in the current status; `attempts` is 1 exactly when it passes `reserved` |
| WorkRunner.HistoriesAreThese | src/personal_ai_brain/work_store.py:11-14 | Over every run a history is `submitted`, or `submitted` and one of four, or `submitted`, `reserved` and one of five, or `submitted`, `reserved`, `running` and one of the five ends |
| WorkRunner.CancellationWins | src/personal_ai_brain/work_store.py:120-141 | A queued or succeeded record never carries the flag, and once the flag is stored the status stays or becomes terminal without success |
| WorkRunner.CancelTakesHold | src/personal_ai_brain/work_store.py:129-141 | A cancellation takes hold exactly when it completes its writes, two for a queued task and one for a live one |
| WorkRunner.LostCancellation | src/personal_ai_brain/work_store.py:138-139 | A run in which a cancellation stops between its two writes, the artifact says `cancelled`, and the task succeeds later |
| WorkRunner.StepKeepsInv | src/personal_ai_brain/work_runner.py:92-138 | Every step keeps the invariant between the program counter, the records and the artifacts, and only advances records |
| Exits.TransitionWrites | src/personal_ai_brain/work_store.py:107-127 | What one transition whose writes go through leaves in every field of the record and in the artifacts, a flag standing in the way of progress only |
| Exits.GuardLeads | src/personal_ai_brain/work_runner.py:49-55 | The guard and its handler, without failing writes: a stop interrupts, else a stored flag cancels, else the deadline fails, each with its reason in the record and in the evidence; else nothing changes |
| Exits.GuardDecides | src/personal_ai_brain/work_runner.py:49-55 | The same however the run goes on, short of a crash or a failing write of the handler: once the worker is idle again, what the guard saw is how the task ended |
| Exits.PreparationLeads | src/personal_ai_brain/work_runner.py:57-90 | A failing git, foreign content, an operating system error and any other error each end the task with their own status and reason |
| Exits.ReserveLeads | src/personal_ai_brain/work_runner.py:101-106 | A queued task becomes `reserved`, with one attempt and its own base; a cancelled one is left alone |
| Exits.BeginLeads | src/personal_ai_brain/work_runner.py:115-117 | The task becomes `running` with the time it began, or `cancelled` if it was flagged since the guard looked |
| Exits.FinishLeads | src/personal_ai_brain/work_runner.py:126-128 | After the executor a stop interrupts, a flag turns a success into `cancelled`, and otherwise its verdict stands |
| Exits.StorageEnds | src/personal_ai_brain/work_store.py:146-157 | An operating system error fails a task that has not ended, with its evidence, and leaves one alone that has |
| Exits.ThrowLeads | src/personal_ai_brain/work_runner.py:129-137 | What the executor raises ends the task with its own status and reason, or as failed with the reason for an operating system error or for any other, and with the evidence |
| Exits.FaultLeads | src/personal_ai_brain/work_runner.py:129-137 | A transition whose write fails hands over to the storage handler inside the try block, and elsewhere ends the process |
| RunnerProcess.Runner.Recovery | src/personal_ai_brain/work_runner.py:36-47 | With others submitting and cancelling meanwhile and writes that may fail, the loop ends dead, or idle with every reserved and running task `interrupted`, for the reason `interrupted_no_retry`, and its evidence written; alone and without failures, nothing else changes |
| RunnerProcess.Runner.Scan | src/personal_ai_brain/work_runner.py:93-97 | Finds a queued task that no other queued task is older than, and none only when none is queued |
| RunnerProcess.Runner.Tick | src/personal_ai_brain/work_runner.py:92-138 | A tick, with other processes acting between its steps, while git is polled and while the executor runs, is a run of the step system that ends idle or down; it works exactly when a task is queued, and executes at most an oldest one, at most once. If its writes go through, each of its guards decides: the task it stopped for ends `interrupted`, a flagged one `cancelled`, a late one `failed`; a coding task without permission and a task without room end `blocked` unexecuted; in a calm world any other is executed, unless cancelled; and an executed one ends as the executor's verdict allows |
| Handoff.EntriesNeverChange | src/personal_ai_brain/work_handoff.py:83-108 | Inbox and outbox entries never change once published |
| Handoff.ResponseIsForItsRequest | src/personal_ai_brain/work_handoff.py:141-173 | A response passes a client's check exactly for the request in the inbox, and was computed from it on a state the store went through |
| Handoff.ClientsGetTheirOwn | src/personal_ai_brain/work_handoff.py:193-212 | A client whose publication succeeded never finds a response that fails its check |
| Handoff.CreatedOnce | src/personal_ai_brain/work_handoff.py:159-161 | Over all request ids and crashes at most one response per task says `created: true` |
| Handoff.ResponsesNeverGoBack | src/personal_ai_brain/work_handoff.py:110-130 | Later responses for a task never report an earlier state, agree on the payload hash, and are equal once terminal |
| Handoff.StackExecutesOnce | src/personal_ai_brain/work_handoff.py:175-187 | With the receiver in the loop, no task is executed twice |
| Handoff.AnswerEffect | src/personal_ai_brain/work_handoff.py:151-173 | A completed answer reports the stored record after it, and `created: true` only for a task that was not there before |
| Answers.AnswerIsRight | src/personal_ai_brain/work_handoff.py:151-173 | Every reply, by the message's capability: a status request reads and tells the stored record or `unknown_task`; a cancellation ends a queued task, flags a live one and leaves an ended one; a submission stores a new request that is in time, on its base and within the limit, tells a known one again, and declines the others for the first reason that applies; bad envelopes, operations and arguments are declined. What is told is the record after it, field by field |
| Answers.StatusOnlyReads | src/personal_ai_brain/work_handoff.py:151-167 | Even cut short, only submissions and cancellations write, and only their own task's files |
| Answers.HalfAdmission | src/personal_ai_brain/work_store.py:68-105 | What an admission that stops after k writes leaves: a record only from the fourth on, the directory from the first |
| Answers.ClientAndReceiverAgree | src/personal_ai_brain/work_handoff.py:23-35 | The client's own check refuses exactly what is not sensible, in the words in which the receiver would decline it on any store |
| Answers.ResponsesAreRight | src/personal_ai_brain/work_handoff.py:141-173 | Over every run, a response in the outbox is the right answer to its request on a store that the run went through |
| Admission.StorageIsBounded | src/personal_ai_brain/work_handoff.py:83-108 | Over every run of the stack the store admits at most 256 tasks, and inbox and outbox hold at most 2048 entries each |
| Admission.OnlyAdmittedWorkRuns | src/personal_ai_brain/work_store.py:68-105 | Whatever was executed had been found at its admission to be at most a week old and five minutes ahead, is on the base allowed for its kind by a profile in use, and its payload is still the admitted one |
| HandoffProcess.Directory.Publish | src/personal_ai_brain/work_handoff.py:83-108 | Adds an absent entry while there are fewer than 2048, accepts an equal one, and refuses a different one |
| HandoffProcess.Server.Process | src/personal_ai_brain/work_handoff.py:141-173 | One request taken and posted, as the two steps of the system; nothing published is replaced, an answered request touches nothing, and what is newly published is the right answer, by capability, for the store before and after; a status request never writes |
| HandoffProcess.Server.Tick | src/personal_ai_brain/work_handoff.py:175-187 | A pass only extends the outbox, for ids in the inbox, with answers that are right for their messages; if nothing fails and there is room, it answers every request but for submissions that an orphan directory blocks |
| HandoffProcess.Invoke | src/personal_ai_brain/work_handoff.py:193-212 | Refuses what is not sensible without publishing, in the receiver's words; otherwise publishes, and returns the first entry found if it matches the published request, says so if it does not, and is pending only if every poll found none |
| Control.HandlerRunsOnce | src/personal_ai_brain/control_worker.py:101-126 | Whatever crashes and raised writes there are, each request id's handler runs at most once, and never without a stored record |
| Control.RequestsAreFrozen | src/personal_ai_brain/control_worker.py:101-126 | A stored request record goes from `processing` to its end and is then frozen |
| Control.ReservationComesFirst | src/personal_ai_brain/control_worker.py:110-111 | A request record is never first written as anything but `processing` |
| Control.CommentsAgree | src/personal_ai_brain/control_worker.py:131-140 | Every comment posted on one issue carries the same envelope, that of its stored record |
| Control.CommentsTellTheTruth | src/personal_ai_brain/control_worker.py:102-140 | What a comment says of a request is what the request record says then and ever after; duplicates carry the original's final status and result |
| Control.DeliveryFlags | src/personal_ai_brain/control_worker.py:129-145 | Closed only after posted, posted only after a comment, and nothing stored is unredacted |
| Comments.CommentsTellTheRecord | src/personal_ai_brain/control_worker.py:131-140 | Over every run a comment carries the stored record's request id, capability, status, error and original status, and its result, redacted, in full up to 16000 characters and else its first 8000 |
| Comments.RefusalLeads | src/personal_ai_brain/control_worker.py:87-102 | A request that cannot be parsed or resolved is answered with its code, under its id or the one made of the issue number, and runs nothing |
| Comments.ExecutionLeads | src/personal_ai_brain/control_worker.py:108-126 | A new request runs once, and the record of its end, with the status and error of how the handler ended, is stored and told |
| Comments.RepetitionLeads | src/personal_ai_brain/control_worker.py:102-109 | A repeated request runs nothing and is answered from the first one's record, which is closed as failed if it was left in progress |
| Comments.DeliveryLeads | src/personal_ai_brain/control_worker.py:129-144 | From the record on: stored, one comment that tells it, closed, and both marks |
| ControlProcess.Worker.Process | src/personal_ai_brain/control_worker.py:78-145 | One pass over an issue is a run of the step system; when it ends normally the issue is posted and closed, its record is the right one for what the issue asked and for what was stored of the request, and one comment that tells the record has been added unless one had been; no mark is ever taken back, and without failures it ends normally |
| ControlProcess.Worker.Tick | src/personal_ai_brain/control_worker.py:147-166 | The loop over a page of issues, stopped anywhere, is a run of the step system, and each issue it got past is posted and closed |
| Stack.CommentsTraceToExecutions | src/personal_ai_brain/control_worker.py:101-140 | Over every run of the whole stack, a comment that reports a completed work request, or a duplicate of one, shows that it is pending or the receiver's answer to exactly the message that the issue's capability and arguments make; the answer was right on some store and is true of the task then and ever after; if it says `succeeded`, the task was executed exactly once and its test passed |
| Stack.OneHandlerOneExecution | src/personal_ai_brain/control_worker.py:101-126 | Over every run of the whole stack, a request's handler runs at most once and a task is executed at most once |
| Stack.Projects | src/personal_ai_brain/work_handoff.py:189-215 | A run of the whole stack is a run of the poller and a run of the handoff with its worker, so their theorems hold of it |
| WatchedLedger.IngestKeepsTables | src/personal_ai_brain/watched_ledger.py:144-237 | Every ingestion keeps the schema's uniqueness and checks, the link targets, and the claims on source event ids |
| WatchedLedger.RefusalsAreHarmless | src/personal_ai_brain/watched_ledger.py:171-237 | A refusal changes nothing, and is never a uniqueness violation or a conflicting link |
| WatchedLedger.CheckViolationExactly | src/personal_ai_brain/watched_ledger.py:161-164 | A validated observation is refused by the table's CHECK constraint if and only if it is identified, has an empty quarantine reason, and is neither suppressed nor a duplicate |
| WatchedLedger.CheckCanBeViolated | src/personal_ai_brain/watched_ledger.py:163-164 | Such an observation |
| WatchedLedger.IngestTwice | src/personal_ai_brain/watched_ledger.py:171-203 | Ingesting an observation again changes nothing and creates nothing, whatever the first ingestion did |
| WatchedLedger.IngestAllRefines | src/personal_ai_brain/watched_ledger.py:171-237 | Into any tables, ingestion amounts to a rule over the stored fingerprints, the claimed source event ids and the boundaries |
| Ingestion.NumbersAreDecimal | src/personal_ai_brain/watched_ledger.py:139 | The number read from a source event id is n exactly when the id is the decimal numeral of n, perhaps after zeros |
| Ingestion.IngestIsRight | src/personal_ai_brain/watched_ledger.py:144-237 | One ingestion, on the columns: refused unless acceptable, suppressed exactly up to the boundary, known by the id at its source, an echo by a link, merged with the same play, or else a new row that stores every field; and which links it adds |
| IngestOrder.OrderIndependence | src/personal_ai_brain/watched_ledger.py:171-237 | Whatever is stored already, every order of a batch stores the same if and only if each fingerprint it could leave is there already, or is carried by an observation without a source event id or with one that nothing in the batch can claim for another fingerprint |
| IngestOrder.LedgerOrderIndependence | src/personal_ai_brain/watched_ledger.py:144-237 | The same equivalence on the tables, whatever they hold |
| IngestOrder.LedgerHoldsEachOnce | src/personal_ai_brain/watched_ledger.py:91-103 | Into any tables, if each source event id of a batch comes with one fingerprint, any reordering and repetition stores exactly the fingerprints it could leave, one row each |
| IngestOrder.OrderCanMatter | src/personal_ai_brain/watched_ledger.py:175-181 | Two observations under one source event id for which the order decides what is stored |
| Corrections.SupersedeKeepsAcyclic | src/personal_ai_brain/watched_ledger.py:267-276 | An accepted correction keeps the chains acyclic if and only if the event is not on its replacement's chain |
| Corrections.CorrectionsCanLoop | src/personal_ai_brain/watched_ledger.py:267-276 | Two accepted corrections that make a cycle |
| Deliveries.DeliveryDiscipline | src/personal_ai_brain/watched_ledger.py:292-362 | Over every run the attempt count equals the entries to `in_flight`, two such entries are separated, no delivery belongs to a quarantined event, and keys are unique per target |
| Deliveries.SettledIsFrozen | src/personal_ai_brain/watched_ledger.py:311-318 | Verified and failed rows never change; no row changes identity or loses history |
| Retries.NoBlindRetry | src/personal_ai_brain/watched_ledger.py:321-398 | Over every run, between two attempts there is always a 429 wait or an explicit `ambiguous` to `pending`, if and only if no call of the run moves a row from a wait without a 429 to `in_flight` |
| Retries.StepDiscipline | src/personal_ai_brain/watched_ledger.py:311-362 | One call keeps that discipline exactly when it is not such a call, which the row tells beforehand |
| Retries.WaitsExactly | src/personal_ai_brain/watched_ledger.py:321-398 | Over every run, all waits are rate limits if and only if no call is an accepted transition of an attempt to `retry_wait` without a 429 |
| Retries.RetryWithoutRateLimit | src/personal_ai_brain/watched_ledger.py:321-362 | Any attempt in flight can be repeated, after whatever status but 429, with neither a 429 nor a reconciliation in between |
| Deliveries.RestartIsSafe | src/personal_ai_brain/watched_ledger.py:401-424 | Restart returns exactly the pending and due ids, never a possibly sent one; exactly the stale attempts become ambiguous |
| Deliveries.KeysIdentify | src/personal_ai_brain/watched_ledger.py:279-280 | For one target, equal deterministic keys mean the same event and operation |
| Deliveries.OneDeliveryPerOperation | src/personal_ai_brain/watched_ledger.py:283-308 | Without an explicit key, a delivery of an active event is refused exactly when one for the same event, target and operation was created without one, or somebody chose its very key for the same target |
| DeliverySteps.TransitionIsRight | src/personal_ai_brain/watched_ledger.py:321-362 | Which transitions are accepted, as a list, and every column of the row after one |
| DeliverySteps.FailureIsRight | src/personal_ai_brain/watched_ledger.py:365-398 | A rate limit waits for its deadline and is refused without one, what may have been sent is ambiguous, anything else has failed; with every column of the row |
| DeliverySteps.RetryComesDue | src/personal_ai_brain/watched_ledger.py:346-353 | An attempt answered with 429 and a deadline is returned by a restart if and only if the deadline has passed, whatever is done to other rows in between |
| DeliverySteps.RestartIsRight | src/personal_ai_brain/watched_ledger.py:401-424 | A restart makes exactly the attempts begun by the limit ambiguous, and returns exactly the rows that were pending or due |
| DeliverySteps.CreateIsRight | src/personal_ai_brain/watched_ledger.py:283-308 | A delivery of an active event is created under its own key or the automatic one unless the target has that key, pending and with every other column empty |
| MediaDatabase.Media.IngestObservation | src/personal_ai_brain/watched_ledger.py:144-237 | The transaction's effect on events and links and its result, right for the observation column by column; a raised error rolls all of it back |
| MediaDatabase.Media.LinkExternalEvent | src/personal_ai_brain/watched_ledger.py:240-264 | Links an unlinked external event, accepts the same link, refuses another one and empty names |
| MediaDatabase.Media.SetMigrationBoundary | src/personal_ai_brain/watched_ledger.py:106-141 | From an accepted boundary on, an acceptable observation from that source and scope is suppressed if and only if its id, in decimal, is at most the boundary |
| MediaDatabase.Media.SupersedeEvent | src/personal_ai_brain/watched_ledger.py:267-276 | The corrected event points to its replacement and nothing else changes; refused exactly for the event itself, an unknown event or one that is superseded |
| MediaDatabase.Media.CreateDelivery | src/personal_ai_brain/watched_ledger.py:283-308 | Creates the one pending row, or refuses for an event that is not active or a key that the target has |
| MediaDatabase.Media.TransitionDelivery | src/personal_ai_brain/watched_ledger.py:321-362 | The transition on the table: accepted exactly along the listed edges and, to verified, with a target event id; every column of the one row it changes |
| MediaDatabase.Media.RecordDeliveryFailure | src/personal_ai_brain/watched_ledger.py:365-398 | A 429 needs its deadline, and its row comes back at a restart exactly from then on; an uncertain outcome is ambiguous, anything else fails; every column of the row |
| MediaDatabase.Media.RecoverRestartWork | src/personal_ai_brain/watched_ledger.py:401-424 | The two loops make exactly the stale attempts ambiguous and return exactly the pending and due ids in order |
| MediaDatabase.Media.Sound | src/personal_ai_brain/watched_ledger.py:144-424 | Whatever was done to the object, tables and deliveries keep the invariant of every run, and retries are disciplined exactly when no call was a blind retry |
| ReconciliationRuns.CrashEquivalence | src/personal_ai_brain/tautulli_reconciliation.py:133-197 | After any runs, failures and crashes over a growing source, the ledger is the initial one plus the fold of ingestion over the rows in (watermark, cursor], or over those and exactly the next |
| ReconciliationRuns.NothingOldIsImported | src/personal_ai_brain/tautulli_reconciliation.py:162-168 | Every event added over any run is the row of a source event above the initial watermark |
| ReconciliationRuns.CountsAreConserved | src/personal_ai_brain/tautulli_reconciliation.py:151-197 | Without a boundary, processed is created plus duplicate plus quarantined; the events grow by as many quarantined and as many identified ones as the counters say, and by one more at most when a position failed |
| ReconciliationRuns.WindowFits | src/personal_ai_brain/tautulli_reconciliation.py:140-148 | The overlap window holds at most `overlap` rows |
| ReconciliationRuns.CleanRunProgress | src/personal_ai_brain/tautulli_reconciliation.py:140-179 | A failure-free run handles exactly as many new rows as the limit leaves beside the window, and stalls exactly when the window fills the limit |
| ReconciliationRuns.BacklogDrains | src/personal_ai_brain/tautulli_reconciliation.py:140-179 | With overlap below limit, n waiting rows are handled after ceil(n / (limit - overlap)) failure-free runs |
| ReconciliationRuns.OverlapCanStall | src/personal_ai_brain/tautulli_reconciliation.py:140-142 | With overlap equal to limit, a run that changes nothing although a new row waits |
| ReconcileSteps.HandleIsRight | src/personal_ai_brain/tautulli_reconciliation.py:151-193 | One event: confirmed at or below the cursor exactly if known, else ingested rightly and then, unless trouble comes, the cursor at its position and the counter of its kind |
| ReconcileSteps.RunIsRight | src/personal_ai_brain/tautulli_reconciliation.py:133-149 | Each refusal of a run exactly when it is due, the start of the window, and events out of order or at shared positions in whatever order the source returns them |
| ReconcileProcess.ReconcileTautulli | src/personal_ai_brain/tautulli_reconciliation.py:115-197 | The run's result and tables, with every refusal exactly when it is due, for any source and any trouble at any event |
| ReconcileProcess.HandleBatch | src/personal_ai_brain/tautulli_reconciliation.py:151-197 | The loop commits event by event, ingest before cursor, stops at the first failure, and its counters tally with the events added by kind |
| InferenceLedger.ReserveKeepsCap | src/personal_ai_brain/inference_usage.py:39-60 | At the ledger's interface an accepted reservation keeps every month within the cap exactly when the record is not the paid provider's, or the ledger's provider is the paid one, or there is headroom |
| InferenceLedger.CapCanBreak | src/personal_ai_brain/inference_usage.py:46-55 | A ledger within the cap and a reservation through the other provider that breaks it |
| Accounts.PriceDecides | src/personal_ai_brain/inference_usage.py:62-77 | With 250000 reserved and a write that goes through, a usage of i input and o output tokens raises if and only if 3 i + 11 o exceeds 250000 |
| Accounts.TotalCounts | src/personal_ai_brain/inference_usage.py:46-51 | A provider's total in a month is 250000 for each of its turns in that month |
| Accounts.SixtyAMonth | src/personal_ai_brain/inference_usage.py:39-60 | With every turn reserved at 250000, a reservation on an existing record through a provider that is not `acceptance` is accepted if and only if the record has fewer than 8 turns and the provider fewer than 60 in the month |
| Accounts.StartIsRight | src/personal_ai_brain/inference_usage.py:27-37 | A record is appended, reserved and without turns, unless the task has one or there are 256 |
| LedgerProcess.Ledger.Total | src/personal_ai_brain/inference_usage.py:47-51 | The nested loop sums what a provider's records have reserved in a month, 250000 for each turn |
| LedgerProcess.Ledger.Reserve | src/personal_ai_brain/inference_usage.py:39-60 | Appends one turn at 250000, or refuses on price review, missing record, 8 turns or less than 250000 left of the month's 15000000, and may stop at its write |
| LedgerProcess.Ledger.RecordUsage | src/personal_ai_brain/inference_usage.py:62-77 | The last turn of the record gets its tokens and their price, 3 and 11 for each, and nothing else changes; raises after writing if and only if the price exceeds the reservation, and before it for tokens out of range |
| LedgerProcess.Ledger.Recover | src/personal_ai_brain/inference_usage.py:19-25 | Interrupts exactly the records left reserved among those it reached, in whatever order |
| BrokerLedger.StepKeepsLedger | src/personal_ai_brain/inference_broker.py:19-81 | Every step of the broker, the agent, a kill or a recovery keeps the relation between the loop's stage and its task's record |
| BrokerRuns.SpendIsBounded | src/personal_ai_brain/inference_usage.py:27-60 | Over all tasks, sessions, kills and recoveries: a month's paid reservations are at most 15,000,000, its paid calls at most 60, its records at most 256, and a task's calls at most its turns, which are at most 8 |
| BrokerRuns.NothingIsRefunded | src/personal_ai_brain/inference_usage.py:56-60 | No month's total ever decreases |
| BrokerRuns.TurnRecords | src/personal_ai_brain/inference_usage.py:56-77 | Over all runs every turn is reserved at 250000 and called at most once, a recorded usage is priced at 3 i + 11 o, and every turn but the last has one of at most 250000 |
| BrokerRuns.FallThroughIsUnreachable | src/personal_ai_brain/coding_agent.py:19-39 | The broker sends at most 25 messages and the agent never exhausts its budget |
| BrokerRuns.CompleteMeansCompleted | src/personal_ai_brain/inference_broker.py:66-68 | An agent that returned was told `complete`, and its record says `reasoning_completed` then and ever after |
| BrokerEnds.CauseDecides | src/personal_ai_brain/inference_broker.py:24-81 | For each step of the loop, exactly when it fails and with which code |
| BrokerEnds.Proceeds | src/personal_ai_brain/inference_broker.py:27-69 | For each step of the loop that does not fail, the next stage and the message it sends |
| BrokerEnds.OpenLeads | src/personal_ai_brain/inference_broker.py:83-99 | A session opens with an empty conversation, and one for an unknown provider only tells the agent `model_auth_failed` |
| BrokerEnds.AgentLeads | src/personal_ai_brain/coding_agent.py:19-39 | How the agent's own steps end its loop: a refused tool, a broken pipe, the end of the stream, its guard |
| BrokerEnds.FailureLeads | src/personal_ai_brain/inference_broker.py:71-81 | A failure exit whose writes go through records the code if the session had started, and sends it |
| BrokerEnds.AgentsHearTheTruth | src/personal_ai_brain/coding_agent.py:23-38 | Over every run, a failure sent in a session that had started is the status of its record, and the agent raises the very code it reads, invokes the tool it is sent and returns on `complete` |
| BrokerRuns.NobodyWaitsForever | src/personal_ai_brain/inference_broker.py:51-52 | Until both sides are closed one of them can take a step that is no timeout and no kill |
| BrokerRuns.SessionsEnd | src/personal_ai_brain/inference_broker.py:32-81 | The number of effective steps of a session is bounded by a measure of its state |
| BrokerRuns.CanBePlayedOut | src/personal_ai_brain/inference_broker.py:32-81 | From every state of a conversation, failure-free steps bring both sides to a close |
| BrokerProcess.Session.Loop | src/personal_ai_brain/inference_broker.py:19-81 | The loop is a run of the step system that always ends, and unless its last write failed it has told an agent that is still there how; a failure it told is in the ledger if the session had started |
| BrokerProcess.Session.Await | src/personal_ai_brain/coding_protocol.py:31-43 | Waiting for a tool result ends in the next turn or in a failure |
| BrokerProcess.Session.Attend | src/personal_ai_brain/coding_agent.py:12-39 | The agent's loop ends by returning or raising, and returns only when the ledger says `reasoning_completed` |
| Framing.Connection.Read | src/personal_ai_brain/coding_protocol.py:32-43 | The loop over chunks, time-outs, the guard and the end of the stream yields exactly the next bytes, or fails for one of three reasons |
| Framing.Connection.Receive | src/personal_ai_brain/coding_protocol.py:31-54 | One frame: the size check before the payload, and its decoding after it |
| Framing.Connection.Send | src/personal_ai_brain/coding_protocol.py:25-29 | Appends the size and the payload, or refuses one of more than 65536 bytes |
| Framing.ReadTakes | src/personal_ai_brain/coding_protocol.py:32-43 | However the bytes are chunked, a read takes exactly the next ones |
| Framing.FramesArrive | src/personal_ai_brain/coding_protocol.py:25-54 | Frames of 1 to 65536 bytes are received as sent: never anything else, and all of them when the guard does not raise and the socket keeps offering |
| Framing.CutStream | src/personal_ai_brain/coding_protocol.py:40-41 | A stream cut short yields only whole frames and then a failure, `interrupted` after exactly those that fit |
| Framing.ReceiveIsRight | src/personal_ai_brain/coding_protocol.py:31-54 | A message is received only as 1 to 65536 bytes that decode, after their size with the most significant byte first; anything else fails, for a stop, the end of the stream, a time-out or as invalid |
| Framing.HeaderSpells | src/personal_ai_brain/coding_protocol.py:29 | A header spells the size with the most significant byte first |
| Rollup.NothingToChange | src/personal_ai_brain/rollup_proposal.py:161-251 | A proposal is empty exactly when the root is structured, fresh and told as its workstreams demand, an absent field counting as null |
| Rollup.ChangesSettle | src/personal_ai_brain/rollup_proposal.py:161-251 | Applying the changes makes the root so, and touches its status only to take over the one active workstream's when it differs from what the root reads |
| RollupFixpoint.Fixpoint | src/personal_ai_brain/rollup_proposal.py:96-159 | Proposing again after applying changes nothing if and only if the root does not wake up as its own workstream by the status it takes over |
| RollupFixpoint.FixpointCanFail | src/personal_ai_brain/rollup_proposal.py:147-154 | A project on which it changes more |
| RollupFixpoint.NullIsNoNews | src/personal_ai_brain/rollup_proposal.py:232-237 | For a field the root lacks, a null of the one active workstream proposes nothing and wakes nothing |
| RollupSteps.DeclarationIsRight | src/personal_ai_brain/rollup_proposal.py:171-182 | A declaration carries its own item's id, path and owner and, if there is one, its status, and nothing else |
| RollupSteps.ChildIsRight | src/personal_ai_brain/rollup_proposal.py:118-143 | Every field of a workstream as its item, the project and its file say |
| RollupSteps.AppliedRootIsRight | src/personal_ai_brain/rollup_proposal.py:161-251 | The applied root declares every mapped workstream in order, lists the active ones, is as fresh as the freshest of them, says what the only active one says, and differs in no other field |
| RollupSteps.ProposalIsRight | src/personal_ai_brain/rollup_proposal.py:96-159 | A proposal is none exactly when the root or every workstream cannot be read; else its own fields, its basis, its note and the root that it makes are right for the workstreams that are read and not deferred |
| Integrity.SilentWhenBothAgree | src/personal_ai_brain/state_integrity.py:163-288 | The applied root draws no shape, source or freshness finding if and only if every workstream active for the checker was active for the engine |
| IntegritySteps.ShapeIsRight | src/personal_ai_brain/state_integrity.py:163-212 | The shape findings are exactly these: a scope that is no rollup, mapped paths not declared, declared paths not mapped |
| IntegritySteps.SourcesAreRight | src/personal_ai_brain/state_integrity.py:214-255 | The source findings: working paths not listed, listed paths not mapped |
| IntegritySteps.FreshIsRight | src/personal_ai_brain/state_integrity.py:257-288 | The freshness finding names the first of the latest workstreams, and is made exactly if that one is later than the root |
| IntegritySteps.FindingsAreRight | src/personal_ai_brain/state_integrity.py:95-161 | Whatever is reported of a project is what its root, workstreams and mapped paths give cause for, no less and no more |
| Agreement.SilentWithoutDisputes | src/personal_ai_brain/state_integrity.py:382-386 | With a root that is not its own workstream, the applied root draws no such finding if and only if each workstream that is `deferred_manual`, or non-blocking only by the project map, shares its file with an active one |
| Agreement.SilentAtTheFixpoint | src/personal_ai_brain/state_integrity.py:163-288 | If every readable workstream states its own status and none is `deferred_manual`, the checker is silent exactly when the proposal is a fixpoint |
| RollupProcess.ProposeProject | src/personal_ai_brain/rollup_proposal.py:96-159 | The code that fills a proposal in place yields the specified one, or none; it is right for the workstreams as they are read, and so is the root that it makes |
| RollupProcess.IntegrityReport.CheckProject | src/personal_ai_brain/state_integrity.py:95-161 | The code that fills a report in place adds exactly the findings that the project gives cause for, in five groups, or raises |

## Left out

- File system detail: symlink checks, modes, fsync, temporary files, free space. A write is atomic, and stops before or after.
- The execution log, the patch, the agent's result and log, and the emergency reserve among a task's artifacts.
- Sockets, HTTP, GitHub, Plex and OpenAI clients, systemd, bubblewrap, git and signals: only their outcomes.
- JSON, YAML and date parsing, regular expressions, redaction and the normalization of Plex observations: deterministic functions that may fail, or flags on the input. `work_contract.py` is modelled only as the checks whose outcome the store and the receiver depend on.
- `work_sandbox.execute` and `coding_execute.execute`: only the contract that `succeeded` follows a passed test result.
- Wall-clock liveness: poll intervals, backoff and deadlines are outcomes that may happen at any time.
- The poller's page rotation, its status file and its own lock, and the listing that selects issues by title.
- The order of equally old queued tasks, and the order of records, names and issues in a listing.
- SQLite itself: tables are sequences and maps under the schema's constraints, each transaction one step. Bookkeeping columns (`imported_at`, `created_at`, `last_success_at`, `last_error_at`) are not modelled.
- The `outbound_allowed` flag of an ingestion's result; `create_delivery` looks at the event itself.
- Numbers in source event ids are plain decimal digits; signs, spaces and underscores that `int` also accepts are not modelled.
- The supervision of the broker's child process appears as a kill at any step; a partial send to an agent that is still there is not modelled, since at most three unread messages fit the socket's buffer.
- The connection to the broker's socket, the check of the peer and the admission of the task before the loop.
- The text of messages: the broker's messages are modelled by their kind and code, and frames by their bytes. Whether a payload is the JSON of an object is a parameter of `Framing`.
- Equality of parsed values is by structure: that Python equates `True` with 1 and 1 with 1.0, and no NaN with itself, is not modelled. Mapping keys are strings.
- The texts of findings beyond the paths, and the states of synchronisation, that they list.
- HandoffProcess.Directory.Publish: the limit of 8192 bytes on an entry is not modelled, since entries are values here; a publication refused for it is one that fails without effect.
- Applying a proposal is not part of the program; it is defined here as setting each dotted path.
- `core_agent.py`, `state_quality.py`, `machine_snapshot.py`, `runtime.py`, `agent_contract.py`, `agent_registry.py`, `cli.py` and the deployment scripts: flat validation, reporting and procedures.
