# Protocol models of the A to Z platform services

A Dafny model of the stateful protocols behind five business services, and proofs of what they keep.

| Area | Files |
|---|---|
| Durable queue execution (automation service, admin service's writer) | `QueueLedger`, `QueueProtocol`, `QueueSafety`, `QueueLifecycle`, `QueueOneWorker`, `QueueAgreement`, `QueueWitnesses`, `QueueOutcomes` |
| Scheduler beat (automation service) | `Scheduler`, `BeatProtocol`, `BeatOutcomes` |
| Pin publishing (pinterest service) | `Pins`, `PinProtocol`, `PinSafety`, `PinPublishing`, `PinIsolation`, `PinOutcomes` |
| Event ledger and daily read models (analytics service) | `AnalyticsEvents`, `Aggregation`, `AggregateLaws`, `Rollup`, `ReadModelMeaning`, `RollupLaws`, `RollupLimit`, `RollupOutcomes` |
| Versioned content with a published snapshot (content service) | `Content`, `ContentSafety`, `ContentProtocol`, `ContentFit`, `ContentSnapshot`, `ContentWitnesses`, `ContentOutcomes` |
| Conversions and commissions (affiliate service) | `Affiliate`, `Conversions`, `Commissions`, `AffiliateOutcomes` |
| Shared kernels | `Slug`, `Uuid7`, `Prelude` |

Each service is modelled in two layers. A class holds the service's tables as fields, and every method is one
database transaction written step by step; its contract equates the tables afterwards with a function of the
tables before. A transition system over values then interleaves those functions: workers that may crash between
any two transactions, redeliveries, operators, other writers and the clock. `Run` folds a sequence of events, and
the main results are lemmas about every run. The `Outcomes` files and `ReadModelMeaning` say field by field what each
operation leaves in the tables and what a reader gets, without the functions that the contracts name.

What the proofs found about the code:

* Queue attempts: the bound `max_attempts + redeliveries + operator retries` holds for a cap of at least two; a cap of
  zero or one still gives one attempt, and redeliveries then add none. Every cap's bound is reached by a run.
* An ended item can stand beside its job run in any status. Seven of the ten pairs disagree, and each is reached by a
  run. The two have ended alike exactly if some step joined them (a write that found the run running, say, or a
  cancelled item) and no later step retried the item. With one delivery at a time five things can drive them apart: a
  claimant that crashes before it starts the run, an unknown executor, cancelling the run alone, cancelling an item that
  overrides its job's configuration, and retrying the item.
* Pin attempts number at most `max(1, publish_retry_attempts)`. A worker lost in flight leaves its pin `publishing` and
  its item `claimed` for ever. Exactly those claimed items are stuck whose pin is publishing and that no worker holds.
* The dashboard's total also counts rejected commissions, so its three displayed buckets add up to it exactly when no
  rejected row has cents; a network can report one that has.
* A rollup of a day without events writes no read-model row, although aggregating no events yields two zero totals.
  It writes a zero snapshot; on a Sunday it writes the weekly one too but reports only the daily one.
* A day with more events than the query limit can come out as a mixture: rows of an earlier rollup stay beside totals of
  the newest events alone. A rollup that does not list all page views of its day never leaves its slice right.
* The published snapshot is immutable and checksums fit their blobs while no two saves of an article overlap. The blob is
  written outside the transaction and two saves that read the same number write the same key, so of two overlapping saves
  the one that writes its blob last decides the body, even if it is the other that commits, before or afterwards.
* `uuid7` values are strictly increasing exactly when no millisecond has more than 4096 calls, because only twelve
  bits of the counter are used.

## Model

| member | source | states |
|---|---|---|
| QueueLedger.NextRetryAt | services/automation-service/src/atoz_automation_service/domain/retry.py:13-35 | there is a next time exactly while attempts remain under a positive limit, and it lies the drawn delay ahead |
| QueueLedger.RetryDelay | services/automation-service/src/atoz_automation_service/domain/retry.py:13-35 | the delay strays from the plain one by the jitter at most, is never negative and never above the longest delay plus its jitter |
| QueueLedger.DelayFollowsDraw | services/automation-service/src/atoz_automation_service/domain/retry.py:13-35 | the delay is the plain one plus the drawn part of it, and none once more than all of it is drawn away |
| QueueLedger.DelayDoubles | services/automation-service/src/atoz_automation_service/domain/retry.py:13-35 | the plain delay is the base after the first attempt and doubles with every further one until it meets the longest |
| QueueLedger.AutomationStore.ClaimItem | services/automation-service/src/atoz_automation_service/workflow.py:165-177 | a queued item becomes claimed and counts an attempt, a claimed one is handed out as it is, a terminal or missing one is refused |
| QueueLedger.AutomationStore.StartRun | services/automation-service/src/atoz_automation_service/workflow.py:416-424 | only a pending run starts, and a start counts an attempt of the run |
| QueueLedger.AutomationStore.Complete | services/automation-service/src/atoz_automation_service/workflow.py:236-256 | item and run are finished at the given time under separate guards: the item only if claimed, the run only if running, with the output |
| QueueLedger.AutomationStore.RequeueFailure | services/automation-service/src/atoz_automation_service/workflow.py:317-338 | a claimed item returns to the queue for the given next time with the error, its attempts and payload kept, and a running run to pending, each under its own guard |
| QueueLedger.AutomationStore.TerminalFailure | services/automation-service/src/atoz_automation_service/workflow.py:367-388 | a claimed item and a running run fail with the error at the given time, each under its own guard |
| QueueLedger.AutomationStore.CancelJobRun | services/automation-service/src/atoz_automation_service/services.py:569-578 | cancels a run in its niche that has not ended, and touches no item |
| QueueLedger.AutomationStore.CancelQueueItem | services/automation-service/src/atoz_automation_service/services.py:779-804 | fails an open item and cancels the run a `job_run:` reference names, but no override run |
| QueueLedger.AutomationStore.RetryQueueItem | services/automation-service/src/atoz_automation_service/services.py:806-823 | only a failed item goes back to the queue, with its attempts kept |
| QueueLedger.AutomationStore.OpenItem | services/automation-service/src/atoz_automation_service/repositories.py:244-260 | finds the earliest open item of the same niche, queue and payload exactly if there is one |
| QueueLedger.AutomationStore.Enqueue | services/automation-service/src/atoz_automation_service/services.py:595-626 | refuses a blank or too long queue or reference and an unknown niche without writing; otherwise answers with the earliest open item of the same niche, queue and reference, appending a queued one with the given or default cap if there is none |
| QueueLedger.AutomationStore.EnqueueJob | services/automation-service/src/atoz_automation_service/services.py:385-517 | an enabled job gets a pending run and a queued item naming it in one transaction |
| QueueLedger.AutomationStore.AdvanceJob | services/automation-service/src/atoz_automation_service/services.py:357-370 | moves a job of the niche to its next time |
| QueueLedger.AutomationStore.CheckRetry | services/automation-service/src/atoz_automation_service/services.py:771-776 | the first transaction of a retry: the job of a failed or cancelled run of the niche, or the refusal |
| QueueLedger.AutomationStore.RetryJobRun | services/automation-service/src/atoz_automation_service/services.py:764-777 | with nobody in between the two transactions, a failed or cancelled run stays and its job is enqueued anew |
| QueueLedger.AutomationStore.MarkClaimed | services/admin-service/src/atoz_admin_service/repositories.py:334-339 | the second writer claims exactly as the first: queued items only, one attempt counted |
| QueueLedger.AutomationStore.AdminComplete | services/admin-service/src/atoz_admin_service/repositories.py:341-349 | completes claimed items only |
| QueueLedger.AutomationStore.AdminFail | services/admin-service/src/atoz_admin_service/repositories.py:351-359 | fails claimed items only, with the error cut to 500 characters |
| QueueLedger.AutomationStore.AdminRetry | services/admin-service/src/atoz_admin_service/repositories.py:361-374 | requeues a failed item only below its bound |
| QueueSafety.StepWellFormed | services/automation-service/src/atoz_automation_service/workflow.py:165-234 | every delivery keeps its item's payload and cap, has a snapshot between 1 and the attempts, works for the run the payload names, and requeues only below the cap |
| QueueSafety.StepKeepsBudget | services/automation-service/src/atoz_automation_service/workflow.py:292-338 | one step of anybody keeps the accounting that matches attempts with distinct spent snapshots, late redeliveries and retries |
| QueueSafety.AttemptBound | services/automation-service/src/atoz_automation_service/workflow.py:165-338 | in every interleaving attempts stay within the cap plus one per delivery that found the item claimed plus one per retry |
| QueueWitnesses.AttemptBoundReached | services/automation-service/src/atoz_automation_service/workflow.py:292-338 | for every cap and any numbers of redeliveries and retries a run reaches that bound |
| QueueWitnesses.CrashLeavesRunPending | services/automation-service/src/atoz_automation_service/workflow.py:165-177 | a crash between claim and start can leave a done item with a pending run |
| QueueWitnesses.UnknownExecutorLeavesRunPending | services/automation-service/src/atoz_automation_service/workflow.py:367-388 | an unknown executor fails the item while its run stays pending |
| QueueWitnesses.CancelledRunWithDoneItem | services/automation-service/src/atoz_automation_service/services.py:569-578 | cancelling a run leaves its item to finish |
| QueueWitnesses.OverrideRunSucceedsAfterCancel | services/automation-service/src/atoz_automation_service/services.py:779-804 | cancelling an override item leaves its run to succeed |
| QueueWitnesses.OverlapLeavesRunRunning | services/automation-service/src/atoz_automation_service/workflow.py:236-256 | overlapping deliveries can leave a done or a failed item with a running run |
| QueueWitnesses.OverlapLetsRunSucceed | services/automation-service/src/atoz_automation_service/workflow.py:236-256 | and the run of the failed item can still succeed |
| QueueWitnesses.RetriedItemOfFailedRun | services/automation-service/src/atoz_automation_service/services.py:806-823 | retrying the item of a failed run can leave a done item with a failed run, with one delivery at a time and no crash |
| QueueWitnesses.EveryPairIsReached | services/automation-service/src/atoz_automation_service/workflow.py:236-388 | an ended item is reached beside a run of its own in every status |
| QueueLifecycle.FinalStatesAbsorb | services/automation-service/src/atoz_automation_service/workflow.py:236-388 | through any run done items and ended runs are never written again |
| QueueLifecycle.RetryCheckLasts | services/automation-service/src/atoz_automation_service/services.py:764-777 | whatever happens between the two transactions of a retry, what the first one answered stays true, so the second writes what a retry at its own moment would |
| QueueLifecycle.TimesAndCounts | services/automation-service/src/atoz_automation_service/workflow.py:165-256 | completion times mark exactly the terminal rows, and attempts equal the number of queued-to-claimed steps |
| QueueLifecycle.RunAttemptsWithinItem | services/automation-service/src/atoz_automation_service/workflow.py:416-424 | a run named by one item is started at most as often as that item was claimed |
| QueueOneWorker.OneWorkerSafety | services/automation-service/src/atoz_automation_service/workflow.py:236-388 | with one live delivery per item: running run means claimed item, successful run means done item, queued item means attempts to spare |
| QueueOneWorker.ItemSettles | services/automation-service/src/atoz_automation_service/workflow.py:283-388 | with one live delivery per item, the changes of an item's row are bounded by twice its cap plus four per retry plus one |
| QueueAgreement.StepExact | services/automation-service/src/atoz_automation_service/workflow.py:236-388 | for an item and the one run it names, outright or in an override: after any step they are ended alike exactly if they were and it is no retry, or the step finds them in one of the listed pairs of states |
| QueueAgreement.AgreementExact | services/automation-service/src/atoz_automation_service/workflow.py:165-388 | in every interleaving they are ended alike exactly if some step joined them and no later one retried the item |
| QueueAgreement.OneWorkerAgreement | services/automation-service/src/atoz_automation_service/workflow.py:165-424 | with one live delivery per item and none of five named events, the item has ended exactly if its run has, and then alike |
| QueueOutcomes.Claiming | services/automation-service/src/atoz_automation_service/workflow.py:165-177 | a claim changes the state and counts an attempt of a queued item and nothing else; the delivery carries the attempts, cap and payload it saw |
| QueueOutcomes.Starts | services/automation-service/src/atoz_automation_service/workflow.py:416-424 | exactly a pending run starts, at the time given and with one more attempt |
| QueueOutcomes.Counting | services/automation-service/src/atoz_automation_service/workflow.py:165-177 | what the attempt bound counts: an item's claims, the new deliveries that find it claimed and its returns from failure to the queue, each by one where it happens and nowhere else |
| QueueOutcomes.Resolved | services/automation-service/src/atoz_automation_service/workflow.py:179-234 | which run a delivery works for by the item's reference, and whether it starts it, executes at once or gives up |
| QueueOutcomes.RetryableFailure | services/automation-service/src/atoz_automation_service/workflow.py:283-338 | whatever happens between a retryable failure with attempts left and its write, an item then still claimed is queued for the time of the failure plus the drawn delay with the error and its attempts and payload kept, and a run still running is pending again |
| QueueOutcomes.FinalFailure | services/automation-service/src/atoz_automation_service/workflow.py:283-388 | any other failure leaves an item still claimed and a run still running failed at the time of the write, with the error |
| QueueOutcomes.UnknownExecutor | services/automation-service/src/atoz_automation_service/workflow.py:88-102 | an unknown executor is a failure for good, whatever happens before its write |
| QueueOutcomes.Finishing | services/automation-service/src/atoz_automation_service/workflow.py:236-256 | a success leaves an item still claimed done without an error and a run still running successful with the output, both at the time of the write |
| QueueOutcomes.CancellingItem | services/automation-service/src/atoz_automation_service/services.py:779-804 | cancelling fails an open item of the niche with its reason and time and cancels the open run a `job_run:` reference names; all else stays |
| QueueOutcomes.CancellingRun | services/automation-service/src/atoz_automation_service/services.py:569-578 | exactly an open run of the niche is cancelled, with its time; no item is touched |
| QueueOutcomes.RetryingItem | services/automation-service/src/atoz_automation_service/services.py:806-823 | exactly a failed item of the niche is queued for now, without completion time and error and with its attempts |
| QueueOutcomes.EnqueueingJob | services/automation-service/src/atoz_automation_service/services.py:385-517 | exactly an enabled job of the niche is stamped and gets a pending run and a queued item, field by field |
| QueueOutcomes.RetryingRun | services/automation-service/src/atoz_automation_service/services.py:764-777 | retrying a failed or cancelled run of the niche does what enqueueing its job does; any other is refused |
| QueueOutcomes.Enqueueing | services/automation-service/src/atoz_automation_service/services.py:595-626 | new work is queued as given unless an open item is the same work, and then nothing is written |
| QueueOutcomes.AnswersOnRows | services/automation-service/src/atoz_automation_service/services.py:569-823 | cancelling and retrying answer not found outside the niche, invalid in a status they do not take, and otherwise success |
| QueueOutcomes.AnswersOnJobs | services/automation-service/src/atoz_automation_service/services.py:357-777 | so do moving, enqueueing and retrying a job, a disabled one being invalid |
| QueueOutcomes.SpacesAre | services/automation-service/src/atoz_automation_service/services.py:595-626 | the characters that a name or reference may not consist of alone are the 29 that strip as white space |
| QueueOutcomes.BlankMeans | services/automation-service/src/atoz_automation_service/services.py:595-626 | a name or reference is blank exactly if it has no other character |
| QueueOutcomes.AdminSteps | services/admin-service/src/atoz_admin_service/repositories.py:334-374 | the second writer's four steps, each with its guard and the fields it writes |
| QueueOutcomes.AdminLeavesRest | services/admin-service/src/atoz_admin_service/repositories.py:334-374 | the second writer touches items that exist and nothing else |
| Scheduler.ListDue | services/automation-service/src/atoz_automation_service/repositories.py:158-181 | the earliest enabled due jobs in order, as many as the limit allows |
| Scheduler.RunBeatTick | services/automation-service/src/atoz_automation_service/beat.py:85-116 | an undisturbed tick enqueues each picked job once and moves on exactly those with a valid expression, writing nothing else |
| Scheduler.DueAfterTick | services/automation-service/src/atoz_automation_service/beat.py:76-116 | a job leaves the due set exactly if it was picked and its cron expression is valid |
| Scheduler.CompletedTickClears | services/automation-service/src/atoz_automation_service/beat.py:97-108 | with valid expressions a completed tick removes the smaller of the limit and the number due |
| BeatOutcomes.Picking | services/automation-service/src/atoz_automation_service/repositories.py:158-181 | every picked job is enabled with its time come, each once and earliest first; one is left out only if the limit is reached and none picked comes later |
| BeatOutcomes.Ticking | services/automation-service/src/atoz_automation_service/beat.py:85-116 | an undisturbed tick stamps each picked job, moves it to its expression's next time if there is one, and adds its one run and item field by field; nothing else changes |
| BeatProtocol.BeatLock.Acquire | services/automation-service/src/atoz_automation_service/beat.py:43-60 | agrees with the protocol's lock: taken exactly when no live key is found, always granted without Redis, refused when Redis is unreachable |
| BeatProtocol.BeatLock.Release | services/automation-service/src/atoz_automation_service/beat.py:62-73 | deletes the key whoever holds it by then, if Redis can be reached |
| BeatProtocol.SchedulerAccounting | services/automation-service/src/atoz_automation_service/beat.py:85-116 | in every interleaving of ticks, crashes, errors, workers and operators, the job-run rows of a job are those there were, those operators asked for, and one for each move, each tick lost in between, each malformed expression and each tick still in between |
| BeatProtocol.TicksNeverOverlap | services/automation-service/src/atoz_automation_service/beat.py:36-73 | with Redis and ticks ending within the lock's lifetime two ticks never overlap |
| BeatProtocol.OverlapIffExpired | services/automation-service/src/atoz_automation_service/beat.py:36-73 | over every run: at some moment a second tick could start beside a running one exactly if some tick outlives its lock |
| BeatOutcomes.Acquiring | services/automation-service/src/atoz_automation_service/beat.py:43-60 | a tick starts unless a key is still alive, and with Redis leaves a key for the full lifetime |
| BeatOutcomes.Listing | services/automation-service/src/atoz_automation_service/beat.py:85-97 | the scan takes jobs whose time has come, no more than the limit, and remembers when it looked |
| BeatOutcomes.EnqueueingNext | services/automation-service/src/atoz_automation_service/beat.py:97-108 | an enabled job at its turn gets its run and item at the clock's time; otherwise the tick ends and lets go of its key |
| BeatOutcomes.MovingOn | services/automation-service/src/atoz_automation_service/beat.py:97-116 | after that exactly the job's next time is written, or nothing when the expression is malformed, and the job leaves the list |
| BeatOutcomes.Ending | services/automation-service/src/atoz_automation_service/beat.py:62-73 | a tick that is done or fails is gone and, if it reaches Redis, so is the key |
| BeatOutcomes.Around | services/automation-service/src/atoz_automation_service/beat.py:36-73 | a crash leaves the key; switching a job and passing time touch nothing else |
| Pins.PinStore.CreatePinDraft | services/pinterest-service/src/atoz_pinterest_service/services.py:563-609 | needs a board of the account and an unused checksum, then adds a draft |
| Pins.PinStore.GetByPin | services/pinterest-service/src/atoz_pinterest_service/repositories.py:301-313 | finds the pin's item in its scope exactly if there is one |
| Pins.PinStore.EnqueuePin | services/pinterest-service/src/atoz_pinterest_service/services.py:611-644 | queues a draft that has no item yet, with the three refusals in order |
| Pins.PinStore.CancelPin | services/pinterest-service/src/atoz_pinterest_service/services.py:646-662 | refuses published and publishing pins, otherwise cancels the pin and its open item |
| Pins.PinStore.ClaimDue | services/pinterest-service/src/atoz_pinterest_service/repositories.py:333-356 | claims the earliest due items within limit and batch size, and nothing else |
| Pins.PinStore.LatestNumber | services/pinterest-service/src/atoz_pinterest_service/repositories.py:364-378 | the highest attempt number recorded for the pin in its scope |
| Pins.PinStore.BeginPublish | services/pinterest-service/src/atoz_pinterest_service/services.py:697-750 | the transaction before the remote call: skips, fails a pin of a disconnected account, or records the next attempt |
| Pins.PinStore.SettlePublish | services/pinterest-service/src/atoz_pinterest_service/services.py:760-834 | the transaction after the remote call: attempt, pin and item by the reply, with no guard on the pin's status |
| PinProtocol.LastNumberIsCount | services/pinterest-service/src/atoz_pinterest_service/services.py:724-738 | when attempts are in order, the highest number is their count |
| PinProtocol.BatchIsRun | services/pinterest-service/src/atoz_pinterest_service/services.py:664-682 | claiming a batch leaves the ledger as a run of single claims does, so the runs cover batches |
| PinSafety.StepKeeps | services/pinterest-service/src/atoz_pinterest_service/services.py:611-840 | every step keeps the agreement of pin, item, attempt records and the one worker that holds them |
| PinPublishing.OnePublishInFlight | services/pinterest-service/src/atoz_pinterest_service/services.py:697-750 | in every run a pin has at most one publish in flight, and then it is publishing, its item claimed and its attempt pending |
| PinPublishing.OneSuccess | services/pinterest-service/src/atoz_pinterest_service/services.py:760-792 | every attempt of a pin but its last is a retryable failure, so at most one succeeds |
| PinPublishing.PublishedIffSucceeded | services/pinterest-service/src/atoz_pinterest_service/services.py:760-792 | a pin is published exactly when an attempt succeeded, exactly when its item is done |
| PinPublishing.SettleMeetsPublishing | services/pinterest-service/src/atoz_pinterest_service/services.py:776-825 | the unguarded final write only ever meets publishing pins |
| PinPublishing.FinalPinStays | services/pinterest-service/src/atoz_pinterest_service/services.py:646-840 | published and cancelled pins keep their row under every step, failed ones can only be cancelled |
| PinPublishing.PublishedIsAbsorbing | services/pinterest-service/src/atoz_pinterest_service/services.py:776-778 | a published pin's row is the same after any continuation of any run |
| PinPublishing.AttemptLedger | services/pinterest-service/src/atoz_pinterest_service/services.py:724-834 | numbers are exactly 1 to n, n is within the allowance, and the item's attempts equal the recorded outcomes |
| PinPublishing.LostWorkerStrandsPin | services/pinterest-service/src/atoz_pinterest_service/services.py:682-695 | a claimed item of a publishing pin that no worker holds stays as it is through every run |
| PinPublishing.StopStrands | services/pinterest-service/src/atoz_pinterest_service/services.py:682-695 | a worker that stops strands its item exactly if the item is claimed and its pin publishing, so always when it stops in flight |
| PinPublishing.FrozenIffStranded | services/pinterest-service/src/atoz_pinterest_service/services.py:646-840 | in every reachable ledger a claimed item can never change again exactly if its pin is publishing and no worker holds it |
| PinPublishing.LostWorkerRun | services/pinterest-service/src/atoz_pinterest_service/services.py:682-750 | a run from the empty ledger whose lost worker strands its pin |
| PinPublishing.OneSuccessPerIntent | services/pinterest-service/src/atoz_pinterest_service/services.py:581-590 | checksums stay unique within an account, so of all attempts for one intent at most one succeeds |
| PinOutcomes.Drafting | services/pinterest-service/src/atoz_pinterest_service/services.py:563-609 | exactly with a board of its account and a checksum unused there a draft is added, as asked for |
| PinOutcomes.Queueing | services/pinterest-service/src/atoz_pinterest_service/services.py:611-644 | exactly a draft of the account without an item is queued for the time given |
| PinOutcomes.Cancelling | services/pinterest-service/src/atoz_pinterest_service/services.py:646-662 | every pin of the account but published and publishing ones is cancelled, with its open items |
| PinOutcomes.Answers | services/pinterest-service/src/atoz_pinterest_service/services.py:563-662 | drafting, queueing and cancelling answer not found, duplicate or invalid in the order of their checks |
| PinOutcomes.ClaimingBatch | services/pinterest-service/src/atoz_pinterest_service/repositories.py:333-356 | a batch takes queued items whose time has come, leaves one out only at the limit and then takes none that is later, and writes nothing but their state |
| PinOutcomes.Claiming | services/pinterest-service/src/atoz_pinterest_service/repositories.py:333-356 | exactly a queued item whose time has come is claimed, by one new task |
| PinOutcomes.Beginning | services/pinterest-service/src/atoz_pinterest_service/services.py:697-750 | in a reachable ledger a waiting task does nothing, fails the pin of a disconnected account, or makes the pin publishing with the next attempt pending |
| PinOutcomes.Accepting | services/pinterest-service/src/atoz_pinterest_service/services.py:806-834 | an accepted publish leaves the attempt successful, the pin published under its remote id and time, the item done with its attempts and time |
| PinOutcomes.Rejecting | services/pinterest-service/src/atoz_pinterest_service/services.py:757-792 | a rejected publish is repeated exactly if the reply is retryable and the number below the allowance: the pin stays and the item is queued five minutes an attempt later; otherwise attempt, pin and item have failed |
| PinOutcomes.RepeatedIffAllowed | services/pinterest-service/src/atoz_pinterest_service/domain/pins.py:61-70 | in every run a settled rejection is recorded as retryable exactly then |
| PinIsolation.SeesOwn | services/pinterest-service/src/atoz_pinterest_service/services.py:563-834 | an account's operation, the write after the remote call included, answers and writes as if other accounts' rows did not exist |
| PinIsolation.SettleSeesOwn | services/pinterest-service/src/atoz_pinterest_service/services.py:760-834 | the write after the remote call is the one an account alone would make |
| PinIsolation.LeavesOthers | services/pinterest-service/src/atoz_pinterest_service/services.py:563-834 | it leaves every other account's rows as they were |
| PinIsolation.RankNamesItsRecord | services/pinterest-service/src/atoz_pinterest_service/services.py:724-792 | whatever all accounts do between the two halves of a publish, the second half finds the attempt record that the first one added |
| PinIsolation.SettleLeavesOthers | services/pinterest-service/src/atoz_pinterest_service/services.py:760-834 | the write after the remote call touches rows of its own scope only |
| PinIsolation.AsIfAlone | services/pinterest-service/src/atoz_pinterest_service/services.py:563-834 | in a run of all accounts, one account's rows and answers are those of its own calls alone |
| PinIsolation.Noninterference | services/pinterest-service/src/atoz_pinterest_service/services.py:563-834 | two histories that agree on one account's rows and calls give it the same answers and rows |
| Aggregation.AggregateEvents | services/analytics-service/src/atoz_analytics_service/services.py:682-778 | the loop over accumulators and the second pass compute the declared counts, distinct counts, sums and rates |
| Aggregation.AddTraffic | services/analytics-service/src/atoz_analytics_service/services.py:719-733 | one visit grows one traffic accumulator, and makes one only for a page view, a session or a user |
| Aggregation.AddVisitor | services/analytics-service/src/atoz_analytics_service/services.py:734-741 | one visit grows one visitor accumulator |
| Aggregation.AddMetrics | services/analytics-service/src/atoz_analytics_service/services.py:723-758 | each metric the event touches grows by what the event adds, and no other key appears |
| AggregateLaws.OrderIrrelevant | services/analytics-service/src/atoz_analytics_service/services.py:682-778 | reading the events in another order gives the same read models |
| AggregateLaws.PageviewsConserved | services/analytics-service/src/atoz_analytics_service/services.py:722-724 | the traffic rows' page views add up to the page-view events |
| AggregateLaws.PageViewMetric | services/analytics-service/src/atoz_analytics_service/services.py:722-724 | the page-view metric is that number too, and is missing exactly when it is zero |
| AggregateLaws.SessionsMetric | services/analytics-service/src/atoz_analytics_service/services.py:774-777 | the sessions metric is at least the number of sessions, and equal exactly when no session spans two traffic keys |
| AggregateLaws.VisitorsMetric | services/analytics-service/src/atoz_analytics_service/services.py:774-777 | the unique-visitors metric is at least the number of users, and equal exactly when no user spans two traffic keys |
| AggregateLaws.BouncesConserved | services/analytics-service/src/atoz_analytics_service/services.py:760-767 | bounces over all traffic rows equal the sessions with exactly one page view |
| AggregateLaws.BounceRateIsProportion | services/analytics-service/src/atoz_analytics_service/services.py:760-767 | bounces are sessions of their row, so each rate lies between 0 and 1 |
| ReadModelMeaning.BounceRateMeans | services/analytics-service/src/atoz_analytics_service/services.py:760-767 | each rate is the row's bounced sessions over its sessions to four places, a tie going to the even digit, and 0 without sessions |
| ReadModelMeaning.AverageMeans | services/analytics-service/src/atoz_analytics_service/services.py:768-772 | each average is the durations of the label's visits over its sessions to two places, and 0 without sessions |
| ReadModelMeaning.TrafficRowMeans | services/analytics-service/src/atoz_analytics_service/services.py:719-767 | a traffic row's page views, sessions and users are those of the visits with its source and account |
| ReadModelMeaning.BouncedMeans | services/analytics-service/src/atoz_analytics_service/services.py:760-765 | a bounced session of a row is one with a page view there and exactly one page view anywhere |
| ReadModelMeaning.TrafficKeysMean | services/analytics-service/src/atoz_analytics_service/services.py:719-733 | there is a row for a source and account exactly if one of its visits is a page view or has a session or a user |
| ReadModelMeaning.VisitorRowMeans | services/analytics-service/src/atoz_analytics_service/services.py:735-741 | a visitor row's sessions and users are those of the visits with its label |
| ReadModelMeaning.SourceMeans | services/analytics-service/src/atoz_analytics_service/services.py:69-82 | which referrers count as which source, in the order of the checks |
| ReadModelMeaning.VisitorMeans | services/analytics-service/src/atoz_analytics_service/services.py:735-737 | the label is the device cut to 30 characters and the country cut to 10, each "unknown" if missing or empty |
| ReadModelMeaning.RevenueMeans | services/analytics-service/src/atoz_analytics_service/services.py:742-758 | an account's revenue metric is the sum of the amounts of its revenue events |
| ReadModelMeaning.CommissionMeans | services/analytics-service/src/atoz_analytics_service/services.py:751-755 | the commission metric likewise, a commission that is missing being the amount |
| ReadModelMeaning.ImpressionsMean | services/analytics-service/src/atoz_analytics_service/services.py:756-759 | the impressions metric is the sum over an account's published pins |
| ReadModelMeaning.PageViewsMean | services/analytics-service/src/atoz_analytics_service/services.py:725-727 | the page-view metric counts page views of all accounts together |
| ReadModelMeaning.ClicksMean | services/analytics-service/src/atoz_analytics_service/services.py:743-744 | an account's click metric counts its pin clicks |
| ReadModelMeaning.SavesMean | services/analytics-service/src/atoz_analytics_service/services.py:745-746 | its save metric its pin saves |
| ReadModelMeaning.AffiliateClicksMean | services/analytics-service/src/atoz_analytics_service/services.py:747-748 | its affiliate-click metric its affiliate clicks |
| ReadModelMeaning.ConversionsMean | services/analytics-service/src/atoz_analytics_service/services.py:749-750 | its conversion metric its conversions |
| Rollup.AnalyticsStore.Collect | services/analytics-service/src/atoz_analytics_service/services.py:135-202 | refused events and known event ids leave the ledger alone, others are appended |
| Rollup.AnalyticsStore.TakeDomainEvent | services/analytics-service/src/atoz_analytics_service/services.py:204-260 | domain events are deduplicated alike and carry no session, user or referrer |
| Rollup.AnalyticsStore.UpsertTraffic | services/analytics-service/src/atoz_analytics_service/services.py:336-363 | exactly the given keys of the niche and day are written |
| Rollup.AnalyticsStore.UpsertVisitors | services/analytics-service/src/atoz_analytics_service/services.py:365-391 | exactly the given keys of the niche and day are written |
| Rollup.AnalyticsStore.UpsertMetrics | services/analytics-service/src/atoz_analytics_service/services.py:393-421 | exactly the given keys of the niche and day are written |
| Rollup.AnalyticsStore.UpsertSnapshots | services/analytics-service/src/atoz_analytics_service/services.py:423-464 | the models' totals become the day's snapshot, and on a Sunday the week's too |
| Rollup.AnalyticsStore.RollupDay | services/analytics-service/src/atoz_analytics_service/services.py:284-334 | a day's listed events are aggregated and upserted with their snapshot; a day without events writes the zero snapshot alone, and reports only the daily one |
| Rollup.AnalyticsStore.RunRollups | services/analytics-service/src/atoz_analytics_service/services.py:263-282 | an inverted or too long range is refused and writes nothing, otherwise every day is rolled up in order |
| RollupLaws.OneDayEach | services/analytics-service/src/atoz_analytics_service/repositories.py:67-97 | the half-open windows put every event in exactly one day |
| RollupLaws.ListedAreOfDay | services/analytics-service/src/atoz_analytics_service/repositories.py:67-97 | the listing has events of the day only, all of them when the limit covers the day |
| RollupLaws.RollupElsewhere | services/analytics-service/src/atoz_analytics_service/services.py:284-421 | a rollup leaves the slices of other niches and days as they were |
| RollupLaws.NeverStale | services/analytics-service/src/atoz_analytics_service/services.py:263-421 | in every history no slice holds a key that its day's events lack |
| RollupLaws.RangeAgrees | services/analytics-service/src/atoz_analytics_service/services.py:263-334 | right after a range of rollups every covered day's slice is the aggregate of its events, and its snapshots their totals |
| RollupLaws.ReadModelsAgree | services/analytics-service/src/atoz_analytics_service/services.py:263-464 | after any history a range rollup makes every covered day's slice exactly the aggregate of that day's events, and its snapshots exactly their totals |
| RollupLaws.AgreementLasts | services/analytics-service/src/atoz_analytics_service/services.py:135-421 | an exact slice stays exact through any later ingests and rollups until an event of its day comes in |
| RollupLaws.SnapshotTotals | services/analytics-service/src/atoz_analytics_service/services.py:423-445 | a snapshot's page views are the day's page-view events, its other totals the two total metrics, and all are zero without events |
| RollupLaws.AggregateOfNothing | services/analytics-service/src/atoz_analytics_service/services.py:288-303 | aggregating no events would yield two metric rows, where a day without events has none |
| RollupLimit.RollupExact | services/analytics-service/src/atoz_analytics_service/services.py:284-464 | however many events a day has, its rollup leaves the slice right exactly if the listed events give the rows and totals of all, and the rows they lack were right before |
| RollupLimit.MissedViewsShow | services/analytics-service/src/atoz_analytics_service/services.py:284-464 | a rollup that does not list all page views of its day leaves the slice wrong |
| RollupLimit.DayComesOutMixed | services/analytics-service/src/atoz_analytics_service/services.py:284-464 | for every limit a history whose day ends with a row of an older rollup beside the page-view metric of the newest events alone |
| RollupOutcomes.Collecting | services/analytics-service/src/atoz_analytics_service/services.py:135-202 | the collector appends an event at the ledger's end exactly if its niche is active, its traits and kind are allowed and its event id is new |
| RollupOutcomes.TakingDomainEvents | services/analytics-service/src/atoz_analytics_service/services.py:204-260 | of domain events exactly four kinds are taken, once each, without session, user and referrer |
| RollupOutcomes.Listing | services/analytics-service/src/atoz_analytics_service/repositories.py:67-97 | a listing is newest first, of the day only and as often as in the ledger; what it leaves out is no newer, and only a full listing leaves anything out |
| RollupOutcomes.RollingUp | services/analytics-service/src/atoz_analytics_service/services.py:284-421 | a rollup writes the listed events' rows over the day's cells and leaves every other cell and the ledger |
| RollupOutcomes.Snapshotting | services/analytics-service/src/atoz_analytics_service/services.py:423-466 | one snapshot is written as the day's, and every seventh day from day 3 as the week's too; no other is touched |
| RollupOutcomes.SnapshotHolds | services/analytics-service/src/atoz_analytics_service/services.py:433-444 | it has the day's page views, the metrics as they are and the sessions of each visitor label |
| RollupLaws.LedgerIsAppendOnly | services/analytics-service/src/atoz_analytics_service/repositories.py:51-72 | through any history the ledger only grows at its end and has one row per event id |
| Content.ContentService.NextVersionNo | services/content-service/src/atoz_content_service/repositories.py:115-120 | one above the highest version number, one for a new article |
| Content.ContentService.LatestVersion | services/content-service/src/atoz_content_service/services.py:677-685 | the version with the highest number |
| Content.ContentService.CreateArticle | services/content-service/src/atoz_content_service/services.py:311-368 | tables and outcome as a function of the store: the slug chosen and its refusals, then version 1 and an article that points at it; a failed transaction leaves only the blob |
| Content.UnaskedSlugIsFree | services/content-service/src/atoz_content_service/services.py:339-343 | an article that asks for no slug is never refused for its slug |
| Content.ContentService.SaveEdit | services/content-service/src/atoz_content_service/services.py:643-671 | the blob is written at once; a commit adds the version and, unless published, points the article at it |
| Content.ContentService.UpdateArticle | services/content-service/src/atoz_content_service/services.py:370-461 | every refusal in order; a published article keeps its slug, taxonomy and shown version |
| Content.ContentService.TransitionArticle | services/content-service/src/atoz_content_service/services.py:463-507 | the lifecycle table; publishing and approving show the latest version |
| Content.ContentService.SoftDelete | services/content-service/src/atoz_content_service/services.py:509-521 | refuses published and unpublished articles, otherwise marks the row deleted |
| Content.ContentService.GetPublished | services/content-service/src/atoz_content_service/services.py:595-605 | returns the reading of the slug exactly if it has one |
| ContentSafety.CreateKeepsSound | services/content-service/src/atoz_content_service/services.py:311-368 | an undisturbed create keeps slugs unique, version numbers gapless, checksums true and articles pointing at their versions |
| ContentSafety.UpdateKeepsSound | services/content-service/src/atoz_content_service/services.py:370-461 | so does every undisturbed edit, committed or failed after its blob |
| ContentSafety.TransitionKeepsSound | services/content-service/src/atoz_content_service/services.py:463-507 | so does every transition |
| ContentSafety.DeleteKeepsSound | services/content-service/src/atoz_content_service/services.py:509-521 | so does every deletion |
| ContentProtocol.UndisturbedEdit | services/content-service/src/atoz_content_service/services.py:370-461 | reading, putting the blob and committing with nobody in between is what one edit call does, and likewise for a failure |
| ContentProtocol.UndisturbedCreate | services/content-service/src/atoz_content_service/services.py:311-368 | the same for creating |
| ContentProtocol.StepKeepsWorld | services/content-service/src/atoz_content_service/services.py:311-521 | every step of overlapping saves keeps numbers, keys, slugs and rows in order, and every save in hand |
| ContentProtocol.VersionsNumbered | services/content-service/src/atoz_content_service/services.py:643-671 | in every run of overlapping saves versions are numbered 1 to n with a blob each, the article shows one of its own, slugs are unique |
| ContentFit.StepFitsExactly | services/content-service/src/atoz_content_service/services.py:656-671 | while all checksums fit, a step keeps them so exactly if it puts no other body under a committed key and commits no version whose blob was replaced |
| ContentFit.VersionLedger | services/content-service/src/atoz_content_service/services.py:643-685 | throughout a run every version fits its blob exactly if every step is harmless in that sense |
| ContentFit.VersionFitsExactly | services/content-service/src/atoz_content_service/services.py:656-671 | a committed version fits its blob exactly if the last body put under its key after its own has the committed checksum, before or after the commit |
| ContentFit.SerialSavesAreHarmless | services/content-service/src/atoz_content_service/services.py:643-671 | saves of an article that do not overlap are harmless, failed ones included |
| ContentSnapshot.SnapshotIsImmutable | services/content-service/src/atoz_content_service/services.py:386-521 | through any run of creates, edits, deletions, failures and transitions of other articles a slug reads what it read, with the body put last under its key; so it is unchanged exactly if nothing or that same body was put last there |
| ContentSnapshot.ReadingChangesExactly | services/content-service/src/atoz_content_service/services.py:656-671 | but for transitions of the article, a step changes a reading exactly if it puts another body under the key shown |
| ContentSnapshot.NothingAppears | services/content-service/src/atoz_content_service/services.py:386-521 | such a run makes nothing readable that was not |
| ContentSnapshot.SerialSnapshot | services/content-service/src/atoz_content_service/services.py:386-521 | while saves of an article do not overlap no such run changes a reading |
| ContentSnapshot.OneReading | services/content-service/src/atoz_content_service/services.py:595-605 | a slug has at most one reading |
| ContentSnapshot.FirstPublicationStays | services/content-service/src/atoz_content_service/services.py:481-489 | through any run the time and the author of an article's first publication stay |
| ContentWitnesses.RacingSavesMisfit | services/content-service/src/atoz_content_service/services.py:656-671 | any two edits that read the same number: both put, the first commits, the second is refused, and the version's blob is the second's |
| ContentWitnesses.OvertakenSaveRewritesPublished | services/content-service/src/atoz_content_service/services.py:656-671 | one edit commits and is published, then the other puts: readers get its body under the old checksum |
| ContentWitnesses.DraftedTakesTwoEdits | services/content-service/src/atoz_content_service/services.py:311-461 | both runs can follow from an empty store |
| ContentOutcomes.ReadingMeans | services/content-service/src/atoz_content_service/services.py:595-605 | a reading is of an undeleted published article of the niche with the slug and a stored blob; its fields are that row's and its body the blob at the row's key |
| ContentOutcomes.ReadingExists | services/content-service/src/atoz_content_service/services.py:595-605 | a slug has a reading exactly if there is such an article |
| ContentOutcomes.MovingAlong | services/content-service/src/atoz_content_service/domain/lifecycle.py:14-52 | submitting, rejecting, withdrawing, archiving and restoring take exactly their statuses to the one of the table and write nothing else but the editor |
| ContentOutcomes.Refusing | services/content-service/src/atoz_content_service/services.py:463-480 | an article that is not there is not found, an unknown action is invalid; neither writes |
| ContentOutcomes.Publishing | services/content-service/src/atoz_content_service/services.py:463-507 | publishing takes drafts, withdrawn and published articles and approving those in review, if they have content; the row then shows its last version, with its first author and time kept |
| ContentOutcomes.ChoosingSlug | services/content-service/src/atoz_content_service/services.py:331-343 | the slug of a new article: the wish, the title's for an empty wish, and without one the title's with the lowest number from 2 on that is free, if it is not |
| ContentOutcomes.Creating | services/content-service/src/atoz_content_service/services.py:311-368 | a new draft shows its first version, with the title, excerpt and body asked for |
| ContentOutcomes.CreatingRefused | services/content-service/src/atoz_content_service/services.py:311-368 | a creation is saved only with a valid taxonomy and a free slug; refusals write nothing, and a failure leaves the tables as they were |
| ContentOutcomes.Editing | services/content-service/src/atoz_content_service/services.py:370-461 | an edit of content adds the next version with what it asks for and what it does not mention; only a published article goes on showing the old one |
| ContentOutcomes.EditingRefused | services/content-service/src/atoz_content_service/services.py:370-461 | which edits are refused and how, in order, and that no other is |
| ContentOutcomes.EditingIdly | services/content-service/src/atoz_content_service/services.py:370-461 | an edit that asks for what is there writes nothing, and one whose transaction fails leaves the tables as they were |
| ContentOutcomes.EditingRenames | services/content-service/src/atoz_content_service/services.py:386-461 | a saved edit leaves the slug asked for and the editor who asked |
| ContentOutcomes.Deleting | services/content-service/src/atoz_content_service/services.py:509-521 | an article of the niche is marked deleted, with its time and editor, unless it is published or withdrawn |
| ContentOutcomes.CreatedIsRead | services/content-service/src/atoz_content_service/services.py:311-605 | create, then publish: the slug reads exactly the title, excerpt and body asked for |
| ContentOutcomes.EditedIsRead | services/content-service/src/atoz_content_service/services.py:370-605 | edit, then publish: the slug reads exactly what the edit asked for |
| ContentOutcomes.Placing | services/content-service/src/atoz_content_service/services.py:656-660 | putting a blob is seen at once and touches no row |
| ContentOutcomes.Committing | services/content-service/src/atoz_content_service/services.py:643-671 | a commit adds its version and row exactly if its number is the next, the article as it was read and the slug free, and writes nothing otherwise |
| ContentOutcomes.WholeCalls | services/content-service/src/atoz_content_service/services.py:463-521 | a failed save leaves the tables and its blob as they were; transitions and deletions write in a run what their calls write |
| ContentOutcomes.TouchingRows | services/content-service/src/atoz_content_service/services.py:370-461 | so does an edit that changes no content |
| Affiliate.AffiliateService.ProcessConversion | services/affiliate-service/src/atoz_affiliate_service/services.py:804-922 | the order of the checks, the two duplicate answers, the refusals without a log entry, and the new row |
| Affiliate.AffiliateService.TransitionCommission | services/affiliate-service/src/atoz_affiliate_service/services.py:980-1003 | approving and rejecting take pending rows to approved and rejected, marking paid takes approved rows to paid with the time, and everything else is refused and writes nothing |
| Affiliate.AffiliateService.SumCommissionCents | services/affiliate-service/src/atoz_affiliate_service/repositories.py:509-515 | the cents of the niche's rows, of one status or of all |
| Affiliate.AffiliateService.RevenueDashboard | services/affiliate-service/src/atoz_affiliate_service/services.py:1005-1022 | the four sums, the number of transactions and the number of clicks of the niche |
| Conversions.AtomicIsReadWrite | services/affiliate-service/src/atoz_affiliate_service/services.py:827-913 | an undisturbed delivery is a read directly followed by its write |
| Conversions.FirstDeliveryWins | services/affiliate-service/src/atoz_affiliate_service/services.py:827-922 | whatever overlaps and repeats, a conversion has a row exactly when a delivery of it was accepted, one row, with the first one's entry |
| Conversions.AnsweredIsHandled | services/affiliate-service/src/atoz_affiliate_service/services.py:827-913 | in every run a delivery answered as accepted or duplicate is logged or in the ledger, however old its reads |
| Conversions.RedeliveryChangesNothing | services/affiliate-service/src/atoz_affiliate_service/services.py:827-913 | once handled, no redelivery changes the revenue ledger, whenever it read its state |
| Commissions.DashboardAddsUp | services/affiliate-service/src/atoz_affiliate_service/services.py:1005-1022 | the total is the sum of four buckets, and of the three shown exactly when no rejected row has cents |
| Commissions.RejectedCentsAreShown | services/affiliate-service/src/atoz_affiliate_service/services.py:861-898 | a reported rejected conversion with cents reaches the ledger, and the total then exceeds the three buckets |
| Commissions.TransitionMovesOneRow | services/affiliate-service/src/atoz_affiliate_service/services.py:980-1003 | one row's cents move between two buckets of its niche; totals, counts and all other sums stay |
| Commissions.FinalCommissionStays | services/affiliate-service/src/atoz_affiliate_service/domain/commissions.py:17-26 | paid and rejected rows are never written again |
| Commissions.RunReconciledArePaid | services/affiliate-service/src/atoz_affiliate_service/services.py:994-1003 | in every run only paid rows carry a reconciliation time |
| Commissions.CommissionConserved | services/affiliate-service/src/atoz_affiliate_service/services.py:861-898 | in every reachable ledger the total is the sum of its buckets and at most the count times the limit |
| AffiliateOutcomes.Processing | services/affiliate-service/src/atoz_affiliate_service/services.py:804-922 | one delivery in one transaction: what is refused, what is a duplicate, and the row and log entry of what is new, field by field |
| AffiliateOutcomes.InsertsIff | services/affiliate-service/src/atoz_affiliate_service/services.py:827-913 | whatever happens between its reads and its write, a delivery inserts exactly if it is in order and event and conversion were new at both |
| AffiliateOutcomes.LogsIff | services/affiliate-service/src/atoz_affiliate_service/services.py:827-913 | and what it logs when it inserts nothing |
| AffiliateOutcomes.AnswersIff | services/affiliate-service/src/atoz_affiliate_service/services.py:827-913 | and what it answers then |
| AffiliateOutcomes.Approving | services/affiliate-service/src/atoz_affiliate_service/services.py:980-1003 | approving succeeds exactly on pending rows of the niche and only makes them approved |
| AffiliateOutcomes.Rejecting | services/affiliate-service/src/atoz_affiliate_service/services.py:980-1003 | rejecting likewise makes them rejected |
| AffiliateOutcomes.Paying | services/affiliate-service/src/atoz_affiliate_service/services.py:980-1003 | marking paid succeeds exactly on approved rows of the niche and notes the time |
| AffiliateOutcomes.NoSuchAction | services/affiliate-service/src/atoz_affiliate_service/services.py:980-990 | any other action is refused before the row is looked for |
| AffiliateOutcomes.ActionsInRuns | services/affiliate-service/src/atoz_affiliate_service/services.py:980-1003 | in a run an action writes what it writes on its own, and a delivery that stops writes nothing |
| AffiliateOutcomes.ApprovedCents | services/affiliate-service/src/atoz_affiliate_service/services.py:1005-1022 | approving moves the row's cents from the dashboard's pending to its approved sum and changes nothing else on it |
| AffiliateOutcomes.RejectedCents | services/affiliate-service/src/atoz_affiliate_service/services.py:1005-1022 | rejecting takes them off the pending sum into the rejected one, which is not shown |
| AffiliateOutcomes.PaidCents | services/affiliate-service/src/atoz_affiliate_service/services.py:1005-1022 | paying moves them from the approved to the paid sum |
| AffiliateOutcomes.OthersShown | services/affiliate-service/src/atoz_affiliate_service/services.py:1005-1022 | no action changes another niche's dashboard |
| AffiliateOutcomes.RowShown | services/affiliate-service/src/atoz_affiliate_service/services.py:1005-1022 | a new row adds its cents to the total and to the sum of its status and one to the count, in its niche only |
| AffiliateOutcomes.NothingShown | services/affiliate-service/src/atoz_affiliate_service/services.py:1005-1022 | an empty ledger shows zeros and the niche's clicks |
| Slug.SlugifyJoinsWords | libs/backend-core/src/atoz_backend_core/slug.py:15-23 | the slug is the maximal runs of letters and digits joined by hyphens, or "untitled" |
| Slug.SlugifyReturnsSlug | libs/backend-core/src/atoz_backend_core/slug.py:15-23 | every result is words of `[a-z0-9]` joined by single hyphens |
| Slug.AlnumIs | libs/backend-core/src/atoz_backend_core/slug.py:15-23 | the characters a slug keeps are exactly the 26 lower-case letters and the ten digits |
| Slug.FixedIffSlug | libs/backend-core/src/atoz_backend_core/slug.py:15-23 | slugs, and nothing else, are left as they are |
| Slug.SlugifyIdempotent | libs/backend-core/src/atoz_backend_core/slug.py:15-23 | slugifying twice is slugifying once |
| Slug.UniqueSlug | libs/backend-core/src/atoz_backend_core/slug.py:26-33 | terminates with the one first free slug: the wish, or its first free suffix, at most one above the number taken |
| Slug.FreeSlugMeans | libs/backend-core/src/atoz_backend_core/slug.py:26-33 | a taken wish gets a hyphen and the lowest number, from 2 on, with which it is free |
| Slug.TriesAreBounded | libs/backend-core/src/atoz_backend_core/slug.py:26-33 | pigeonhole: failed tries never outnumber the taken slugs |
| Slug.FirstFreeIsSlug | libs/backend-core/src/atoz_backend_core/slug.py:26-33 | a suffixed slug is a slug |
| Uuid7.AssembleIsLayout | libs/backend-core/src/atoz_backend_core/uuids.py:32-37 | shifting, masking and or-ing put every field at its place |
| Uuid7.LayoutReadsBack | libs/backend-core/src/atoz_backend_core/uuids.py:32-39 | version 7, variant 10, counter, random bits and timestamp read back; the value has 128 bits exactly when the timestamp has 48 |
| Uuid7.Generator.Next | libs/backend-core/src/atoz_backend_core/uuids.py:22-39 | the counter's next value, and the value in its layout or a refusal past 48 bits; so the values are those that the monotonicity results speak of |
| Uuid7.MonotonicIffWithinCounter | libs/backend-core/src/atoz_backend_core/uuids.py:22-39 | under a clock that never runs back, values strictly increase exactly when no millisecond has more than 4096 calls |
| Uuid7.WithinCounterInTimes | libs/backend-core/src/atoz_backend_core/uuids.py:26-30 | that is, exactly when call i + 4096 is always in a later millisecond than call i |

## Left out

- Database transactions are taken as atomic; isolation levels, flushing and row locks are not modelled. In `Conversions` the reads and the writes of a delivery are separate steps and only the two unique keys protect the write.
- Identifiers are natural numbers that the caller supplies fresh; times are integers; the draw behind a retry delay, the cron expansion, SHA-256 and Unicode lower-casing are parameters. The queue protocol takes any retry delay, so those of `RetryDelay` among others.
- Transport is left out: HTTP routes, Celery, Redis beyond the lock key and its reachability, Kafka, OAuth, the Pinterest client, signatures, notifications, published domain events and the AI OS bridge. A remote call is an arbitrary reply, and a crash or unhandled error is a worker that takes no further step.
- Floating point is read as real arithmetic with round-half-even; traits that do not parse as numbers are not modelled.
- Standalone run and queue endpoints (`start_job_run`, `complete_job_run`, `fail_job_run`, `claim_queue_item`, `complete_queue_item`, `fail_queue_item`) are not part of the interleavings.
- QueueLedger.AutomationStore.RetryJobRun: states the two transactions with nobody in between; CheckRetry, RetryCheckLasts and EnqueueJob cover the rest.
- QueueLedger.AutomationStore.Enqueue: how a reference's text is read is a parameter; a reading keeps the text of everything but a run's name, so references are the same work if they are written alike.
- PinProtocol: the pins of a worker's batch may go in any order, which covers the source's order; tokens and the account's rate limits are not modelled.
- Aggregation.AddTraffic: the pages of a session are kept as a set of sessions, since only its keys are ever read.
- Rollup.AnalyticsStore.UpsertSnapshots: keeps the payload's metrics and devices under their keys, where the source joins each key into one text; the dashboards' read queries of the analytics service are left out.
- RollupLimit: for a day with more events than the query limit the condition is on the two aggregates; which left-out events add nothing to them is spelled out for page views only.
- Content: taxonomy links, tags, media and the search index are left out; an edit only says whether its taxonomy is valid. A blob's key is the pair of article and version number.
- ContentProtocol: the database part of a save is one transaction, so a commit finds the article as the save read it or is refused; only the blob store is outside. What a weaker isolation level lets through is not modelled.
- Affiliate: recording clicks, reconciliation, summaries, products, links and tokens are left out.
- Generic administration of niches, networks, merchants, categories, tags and rules would only add easy members.
- The local `uuid7` copies of the admin and automation services have another layout and are not modelled.
