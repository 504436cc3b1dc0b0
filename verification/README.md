# KafPy delivery core: a verified model

KafPy's Rust core is an at-least-once Kafka consumer pipeline. A poll loop sends each message to its
topic's bounded queue; a single-message or batch worker takes it, calls the Python handler, and then acks
it, retries it with backoff, or hands it to the dead-letter queue; a tracker keeps a contiguous offset
watermark per partition; a throttled committer and the rebalance callbacks persist that watermark.

The model keeps the program's shape. An object whose methods change its fields is a class
(`OffsetTracker`, `RetryCoordinator`, `QueueManager`, `ConsumerDispatcher`, `BatchAccumulator`,
`OffsetCommitter`, `ConsumerContext`, `FanOutTracker`, `LoggerState`), and each method is proved against a
function on values. What the functions mean is then proved as lemmas over every history or every run. Where
several tasks share state, a state machine takes one step per lock-protected call (or per atomic memory
access) and lets the steps interleave freely. I/O, clocks, random draws, handler outcomes and client
errors are inputs.

| file | subject |
|---|---|
| `Types.dfy` | messages, partitions, failure reasons, handler results |
| `Offsets.dfy`, `OffsetLaws.dfy`, `OffsetTracker.dfy` | the watermark, its history specification and laws, the tracker object |
| `Retry.dfy` | retry decisions, backoff, their bounds |
| `Queues.dfy`, `QueueLaws.dfy` | bounded queues, permits, pause and resume |
| `Effects.dfy`, `Worker.dfy` | what a worker does to the shared services; the single-message worker |
| `Accumulator.dfy`, `BatchLoop.dfy`, `BatchLaws.dfy` | batching, the batch worker, waiting times |
| `Pipeline.dfy`, `PipelineLaws.dfy`, `Delivery.dfy`, `Stepwise.dfy` | everything together, and the delivery guarantees |
| `Commits.dfy`, `Rebalance.dfy` | the committer and the rebalance callbacks |
| `FanOut.dfy`, `LogFilter.dfy` | fan-out tracking; the log bridge's cache and filters |

## Where the code and its documentation differ

The model follows the code. Each point is a theorem of the table below.

- The stated invariant that buffered and failed offsets lie above the committed one
  (`src/offset/offset_tracker.rs:41-44`) holds exactly for histories without an event at or below the
  watermark; acking one offset twice breaks it (`DocumentedExactly`, `ReackLeavesStaleEntry`).
- `should_commit` is documented as "the next offset is pending" (`src/offset/offset_tracker.rs:187`); it
  holds exactly for registered partitions without a terminal failure (`ShouldCommitExactly`). The unit tests
  at `src/offset/offset_tracker.rs:414-484` that expect otherwise disagree with the code, as does the retry
  test at `src/retry/retry_coordinator.rs:199-222` with line 108.
- A dead-lettered offset never lets the watermark pass, unless it came before its partition's first ack; the
  same holds for a message refused by its queue, which is not sent again
  (`WatermarkPassesOnlyBeforeFirstAck`). In that case the message is lost, and `RefusedAndPassedOver` is a run
  that loses one.
- A permit taken before a refused send is never given back (`PermitBound`, `LeaksStay`). On a live queue this
  can cost all the permits beyond the capacity, and no more (`LeaksBounded`, `LeaksReachBound`).
- A partition's batch timer is set once, by its first message ever, so the documented "first message of the
  batch" window is right only until the first flush, and "no deadline if all buffers are empty"
  (`src/execution/batch.rs:49`) only until the first message (`FixedWindowExactly`, `StaleDeadline`, `NoDeadlineExactly`).
- The preemptive flush before adding to a batch never flushes anything (`PreemptiveFlushIsIdle`).
- The backpressure state of a batch worker is entered at most once and never left (`BatchWorkerLoop`).
- The committer's message count is never increased, so `commit_max_messages` never makes a commit earlier
  (`ThrottleExactly`).
- A terminal failure ends a partition's commits only once the cycle under way is over: a partition found
  eligible before the failure is still issued (`TerminalEndsCommits`, `TerminalRace`).
- A revoke persists partitions with a terminal failure, which the committer refuses (`RevokeIgnoresTerminal`).
- A revoke does not stop the workers, so a reassigned partition may resume above the position the revoke
  persisted, over offsets acked meanwhile (`ResumesAtWatermark`, `AckAfterRevoke`).
- A message that used up its retries is reported to the dead-letter queue with zero attempts
  (`DeadLetterContents`).
- The fan-out dispatcher registers a branch inside the branch's own task and releases slots it never acquired;
  both defeat the tracker (`LateRegistrationMissed`, `WorkerReleasesOnly`).

## Model

| member | source | states |
|---|---|---|
| Offsets.AdvanceEndsRun | src/offset/offset_tracker.rs:94-102 | the advancing loop eats exactly the maximal run of pending offsets above the watermark and changes nothing else |
| Offsets.RegisteredIffAcked | src/offset/offset_tracker.rs:165-170 | a partition is registered exactly once something was acked on it; failures alone do not register it |
| Offsets.WatermarkRefinement | src/offset/offset_tracker.rs:83-114 | for every interleaving of acks and failures: all offsets from the first ack to the watermark were acked, watermark + 1 is not pending, and above the watermark pending and failed are disjoint and hold exactly the offsets whose latest event was an ack or a failure |
| Offsets.StepKeepsReflection | src/offset/offset_tracker.rs:83-114 | each event keeps that meaning and moves the watermark exactly to the end of the acked run above it |
| Offsets.CursorIsWatermark | src/offset/offset_tracker.rs:83-104 | the incremental cursor refines a watermark defined on the history alone, in both directions |
| OffsetLaws.LevelNeverDecreases | src/offset/offset_tracker.rs:83-114 | over any continuation of a history the watermark never goes back |
| OffsetLaws.RiseExactly | src/offset/offset_tracker.rs:94-102 | over any continuation the watermark rises if and only if the offset right above it is acked somewhere in it |
| OffsetLaws.RisesOverAcked | src/offset/offset_tracker.rs:94-102 | it rises over acked offsets only |
| OffsetLaws.GapHoldsLevel | src/offset/offset_tracker.rs:106-114 | a failed offset above the watermark holds it down until that very offset is acked |
| OffsetLaws.OrderIndependence | src/offset/offset_tracker.rs:83-104 | with acks only, the watermark is the largest n such that every offset from the first ack to n was acked, whatever the order, duplicates or older offsets |
| OffsetLaws.SameAcksSameLevel | src/offset/offset_tracker.rs:83-104 | two ack-only histories with the same first ack and the same acked offsets agree on the watermark and on what is buffered |
| OffsetLaws.ReackLeavesStaleEntry | src/offset/offset_tracker.rs:41-44 | acking offset 5 twice breaks the documented invariant |
| OffsetLaws.DocumentedExactly | src/offset/offset_tracker.rs:41-44 | the documented invariant holds if and only if every event since registration was above the watermark of its time |
| OffsetLaws.TerminalExactly | src/offset/offset_tracker.rs:281-283 | the terminal flag is set exactly if a terminal failure was reported while the partition was registered |
| OffsetLaws.ShouldCommitExactly | src/offset/offset_tracker.rs:194-204 | a partition may be committed if and only if it is registered and saw no terminal failure |
| OffsetLaws.TerminalIsForever | src/offset/offset_tracker.rs:56-58 | after a terminal failure no continuation makes the partition committable again |
| OffsetLaws.LastReasonIsLatest | src/offset/offset_tracker.rs:279 | the remembered reason is that of the latest failure since registration |
| OffsetLaws.PartitionsIndependent | src/offset/offset_tracker.rs:165-170 | the tracker's entry for a partition depends on that partition's own events only |
| OffsetTracking.PartitionState.Ack | src/offset/offset_tracker.rs:83-104 | seeds, buffers and advances in place, as the cursor function says |
| OffsetTracking.OffsetTracker.Ack | src/offset/offset_tracker.rs:165-170 | registers the partition if needed and changes no other partition |
| OffsetTracking.OffsetTracker.MarkFailed | src/offset/offset_tracker.rs:274-285 | records failure, reason and terminal flag; no effect on an unregistered partition |
| OffsetTracking.OffsetTracker.HighestContiguous | src/offset/offset_tracker.rs:181-185 | the watermark of a registered partition, none otherwise |
| OffsetTracking.OffsetTracker.CommittedOffset | src/offset/offset_tracker.rs:223-227 | the watermark, or -1 if unregistered |
| OffsetTracking.OffsetTracker.MayCommit | src/offset/offset_tracker.rs:194-204 | decides exactly the commit condition |
| OffsetTracking.OffsetTracker.AllPartitions | src/offset/offset_tracker.rs:232-241 | lists every registered partition exactly once |
| OffsetTracking.OffsetTracker.GracefulShutdown | src/offset/offset_tracker.rs:292-308 | with a consumer attached, stores the watermark of exactly the committable partitions, once each |
| Retry.RetryCoordinator.RecordFailure | src/retry/retry_coordinator.rs:80-149 | decides and updates the book as the decision functions say |
| Retry.BookRefinesCounter | src/retry/retry_coordinator.rs:80-156 | after any history the book is the image of a per-message counter of retryable failures since the last success |
| Retry.DecisionByCount | src/retry/retry_coordinator.rs:80-163 | the k-th retryable failure is retried if and only if k is below the maximum; always exactly one of retry and dead-letter, a delay exactly with a retry; other failures leave the book alone |
| Retry.CappedNondecreasing | src/retry/policy.rs:77-80 | the delay before jitter never shrinks with the attempt and never exceeds the cap |
| Retry.DelayWithinJitter | src/retry/policy.rs:82-90 | each delay lies within (1 - jitter) and (1 + jitter) times the capped delay |
| Retry.CappedExactly | src/retry/policy.rs:77-80 | before jitter the delay is min(base, cap) at first and doubles with each attempt until it meets the cap |
| Retry.JitterExactly | src/retry/policy.rs:82-87 | the multiplier runs evenly from 1 - jitter to 1 + jitter with the draw |
| Retry.DelayValue | src/retry/policy.rs:73-91 | the delay is the documented closed formula |
| Retry.GrantedDelay | src/retry/retry_coordinator.rs:102-147 | after any history the k-th retryable failure, if retried, waits min(base 2^(k-1), cap) times the multiplier |
| Retry.DoubledClosed | src/retry/policy.rs:77 | the exponential is base times two to the attempt |
| Retry.AllowanceClosed | src/retry/policy.rs:73-91 | the budget of n retries is min(base (2^n - 1), n max_delay) |
| Retry.DelayWithinBudget | src/retry/retry_coordinator.rs:115-147 | the delays granted to a message so far stay within the budget of the retries granted so far |
| Retry.TotalBackoffBound | src/retry/retry_coordinator.rs:102-147 | all delays granted to one message sum to at most (1 + jitter) min(base (2^(M-1) - 1), (M-1) max_delay) |
| Queues.HandlerEntry.Ack | src/dispatcher/queue_manager.rs:90-116 | saturating decrement of both counters, then the permits |
| Queues.HandlerEntry.Send | src/dispatcher/mod.rs:175-226 | permit, then in-flight count with rollback, then channel; refused as full or closed with the permit kept |
| Queues.QueueManager.Register | src/dispatcher/queue_manager.rs:148-167 | a fresh queue replaces the topic's entry |
| Queues.QueueManager.Ack | src/dispatcher/queue_manager.rs:208-213 | acks one topic, no effect if unregistered |
| Queues.QueueManager.Send | src/dispatcher/mod.rs:156-227 | dispatches to the topic's queue; the pause signal is given exactly if a registered queue took nothing although its receiver lives or its permits were all taken |
| Queues.AnswersExactly | src/dispatcher/mod.rs:156-227 | when each answer is given and what it means for the queue: sent exactly if the message was appended, and otherwise nothing but a permit is spent |
| Queues.ConsumerDispatcher.Dispatch | src/dispatcher/consumer_dispatcher.rs:72-119 | a topic whose queue held a message back is paused if the client agrees; it is resumed exactly on a send that leaves a paused topic below half the capacity |
| Queues.ConsumerDispatcher.CheckResume | src/dispatcher/consumer_dispatcher.rs:123-138 | resumes a paused topic exactly below half the capacity |
| QueueLaws.RunConserves | src/dispatcher/queue_manager.rs:90-116 | in every run both counters equal queued plus held plus dropped messages, and in-flight plus leaked permits equal the outstanding ones |
| QueueLaws.QueueConservation | src/dispatcher/queue_manager.rs:90-116 | with an open receiver depth and in-flight are exactly channel plus held messages, so acking a held message never saturates |
| QueueLaws.SingleWorkerBound | src/dispatcher/mod.rs:100-145 | with a worker that holds one message at a time, in-flight never exceeds capacity + 1 |
| QueueLaws.PermitBound | src/dispatcher/queue_manager.rs:54-64 | in-flight <= outstanding permits <= limit in every run, and permits equal in-flight if and only if no send was refused after taking its permit |
| QueueLaws.GrantedNeverFull | src/dispatcher/mod.rs:175-226 | if the capacity covers the limit and the receiver stays open, a send that got its permit is never refused, and permits equal in-flight |
| QueueLaws.LeaksBounded | src/dispatcher/mod.rs:206-224 | on a live queue only permits beyond the capacity can leak, so limit less leaks never falls below min(limit, capacity); a send is refused for want of a permit exactly when that many messages are in flight |
| QueueLaws.LeaksReachBound | src/dispatcher/mod.rs:206-221 | for every capacity and limit there is a run on a live queue that leaks all the permits beyond the capacity |
| QueueLaws.LeaksStay | src/dispatcher/queue_manager.rs:51-53 | a leaked permit never comes back |
| QueueLaws.PausedExactly | src/dispatcher/consumer_dispatcher.rs:76-106 | exactly when a send leaves the topic paused |
| QueueLaws.PauseResumeHysteresis | src/dispatcher/consumer_dispatcher.rs:123-138 | between a queue-full refusal and a later resume more than half the capacity's worth of messages was acked |
| Effects.Services.RecordSuccess | src/retry/retry_coordinator.rs:152-156 | one logged effect, the retry book alone changes |
| Effects.Services.RecordRetryableFailure | src/retry/retry_coordinator.rs:80-149 | one logged effect and the coordinator's decision |
| Effects.Services.AckQueue | src/dispatcher/queue_manager.rs:208-213 | one logged effect on the topic's queue |
| Effects.Services.AckOffset | src/offset/offset_tracker.rs:270-272 | one logged effect on the tracker |
| Effects.Services.FailOffset | src/offset/offset_tracker.rs:274-285 | one logged effect on the tracker |
| Effects.Services.Produce | src/worker_pool/mod.rs:116-123 | the record is handed to the dead-letter producer, fire and forget |
| Effects.KeysApart | src/retry/retry_coordinator.rs:54-55 | messages share retry state only at the same offset of the same partition |
| Worker.Settlement | src/worker_pool/worker.rs:498-532 | for every sequence of handler outcomes a message is invoked at least once and at most max(1, M) times and ends as exactly one of: acked once (offset and queue), handed off once with one queue ack and no offset ack, or cancelled in backoff with none of these; nothing else is touched |
| Worker.StubbornFailure | src/worker_pool/worker.rs:511-527 | the bound is met by a message that keeps failing retryably |
| Worker.DeadLetterContents | src/worker_pool/mod.rs:76-127 | what the dead-letter record carries, and that used-up retries are reported as zero attempts |
| Worker.TimeoutIsFinal | src/worker_pool/worker.rs:170-192 | a timed-out message is dead-lettered after that one invocation, and its partition, if registered, may not be committed afterwards |
| Worker.BookAfterwards | src/worker_pool/worker.rs:106-194 | a settled message is forgotten by the retry book, a cancelled one has attempts left, no other message's state changes |
| Worker.HandleExecutionFailure | src/worker_pool/mod.rs:40-131 | retry or dead letter as decided; the final fall-through is unreachable |
| Worker.HandleExecutionResult | src/worker_pool/worker.rs:95-194 | the calls of one attempt in order; no action exactly on success, a retry exactly if granted, never the plain ack action |
| Worker.InvokeOnce | src/worker_pool/worker.rs:458-527 | one invocation either ends the message's tale or uses up one of the attempts left |
| Worker.ProcessMessage | src/worker_pool/worker.rs:401-527 | the retry loop ends and makes exactly the calls of the message's tale |
| Worker.AttemptTracked | src/worker_pool/worker.rs:117-191 | a failed attempt is reported to the tracker once, with the handler's reason, or as a handler panic on a timeout |
| Worker.Deliver | src/worker_pool/worker.rs:387-552 | one turn: the message's tale as its handler's outcomes decide, with the number of calls of the handler |
| Worker.WorkerLoop | src/worker_pool/worker.rs:371-553 | messages are taken in order until shutdown is seen or a backoff is cancelled; each one's calls, ending and effects are its tale told from the retry book the ones before it left, decided by its own handler outcomes, and each is settled exactly once before the next is taken |
| Worker.InboxSettledOnce | src/worker_pool/worker.rs:371-553 | over a whole inbox: one offset ack per success, one hand-off per dead letter, one queue ack for each of both, nothing about messages not taken |
| Accumulation.PerPartitionBuffer.Add | src/worker_pool/accumulator.rs:58-63 | appends, starting the timer on an empty buffer |
| Accumulation.BatchAccumulator.WouldFillPartition | src/execution/batch.rs:32-38 | whether the buffer holds at least the maximal batch |
| Accumulation.BatchAccumulator.Add | src/execution/batch.rs:42-47 | adds to the message's own partition only |
| Accumulation.BatchAccumulator.NextDeadline | src/execution/batch.rs:50-53 | the least deadline of any partition, none exactly if no partition has one |
| Accumulation.BatchAccumulator.IsEmpty | src/execution/batch.rs:67-70 | true exactly if every buffer is empty |
| Accumulation.BatchAccumulator.FlushPartition | src/execution/batch.rs:86-95 | the partition's messages in order, none if empty |
| Accumulation.BatchAccumulator.FlushAll | src/execution/batch.rs:74-83 | every nonempty buffer once, in order within a partition; all buffers empty afterwards |
| BatchLoop.HandleBatchResult | src/worker_pool/batch_loop.rs:283-404 | each message is settled exactly once, in order: all acked and forgotten by the retry book, or all reported as failed with the batch's reason and handed off with their own payload; the tracker is exactly what these reports make of it |
| BatchLoop.OneSettled | src/worker_pool/batch_loop.rs:316-401 | what settling one message of a batch leaves in tracker, retry book and dead-letter queue, payload, reason and attempts included |
| BatchLoop.TerminalBatchStays | src/worker_pool/batch_loop.rs:354 | once a batch of a registered partition fails for good, the partition may not be committed after any later batch of the loop |
| BatchLoop.AcknowledgeOne | src/worker_pool/batch_loop.rs:316-324 | one offset ack and one queue ack, the retry state gone, no dead letter |
| BatchLoop.GiveUpOne | src/worker_pool/batch_loop.rs:344-401 | reported to the tracker as failed with the batch's reason; one hand-off that carries the message and the attempts; one queue ack; no offset ack, whatever the coordinator decided |
| BatchLoop.FlushBatches | src/worker_pool/batch_loop.rs:122-138 | the handler is called once per batch, every batch is settled with its own result, and the tracker is what these reports make of it |
| BatchLoop.ReceiveKeeps | src/worker_pool/batch_loop.rs:195-197 | adding a message keeps order, deadlines and bounds |
| BatchLoop.FlushAllKeeps | src/worker_pool/batch_loop.rs:121-139 | so does flushing everything, which leaves every buffer empty |
| BatchLoop.FlushOneKeeps | src/worker_pool/batch_loop.rs:199-217 | so does flushing one partition |
| BatchLoop.PreemptiveFlushIsIdle | src/worker_pool/batch_loop.rs:175-193 | at that point a buffer that counts as full is empty: nothing is flushed |
| BatchLoop.Turn | src/worker_pool/batch_loop.rs:110-272 | one wake-up: exactly what each partition holds afterwards and which batches of it the handler is called with, that everything flushed is settled with its batch's result, and when the loop exits |
| BatchLoop.BatchWorkerLoop | src/worker_pool/batch_loop.rs:82-276 | at every point of every run: what each partition holds and the batches of it the handler was called with are functions of the inputs so far; batches followed by the buffer are the received messages in order, within the size bound; every flushed message is settled once, with the exact effects, on what the ones before it left; both exits leave nothing buffered; backpressure is entered at most once |
| BatchLaws.BoundedWaiting | src/worker_pool/accumulator.rs:40-68 | with a monotone clock every received message's partition has a deadline no later than its arrival plus the maximal wait, also after earlier flushes, and the loop's next deadline is no later |
| BatchLaws.FixedWindowExactly | src/worker_pool/accumulator.rs:40-45 | the deadline is oldest buffered arrival plus wait if and only if the partition was never flushed |
| BatchLaws.StaleDeadline | src/worker_pool/accumulator.rs:66-68 | after a flush at the deadline the partition's next message is due one wait after the arrival of the flushed one, overdue if that has passed |
| BatchLaws.StaleDeadlineReached | src/worker_pool/batch_loop.rs:110-139 | the loop reaches such a state, whatever its handler says |
| BatchLaws.NoDeadlineExactly | src/execution/batch.rs:49-53 | the next deadline is absent exactly if nothing was ever received |
| BatchLaws.TimerStaysDue | src/worker_pool/batch_loop.rs:108-119 | once the first window is over the timer is due at every later moment |
| PipelineLaws.OrderKept | src/worker_pool/worker.rs:387-552 | every step keeps a partition's unsettled offsets in order and above all its settled ones |
| PipelineLaws.PlacesKept | src/worker_pool/worker.rs:106-146 | every step keeps: acks only after handler success, settled places polled and not refused, acked and handed-off places disjoint, the tracker equal to its replayed events |
| PipelineLaws.TakenKept | src/worker_pool/worker.rs:388-401 | every step keeps: a taken message is settled or still in its worker's hands |
| PipelineLaws.CommitsKept | src/offset/commit_task.rs:194-216 | every step keeps: nothing selected or issued is above the watermark |
| PipelineLaws.QueuesKept | src/dispatcher/queue_manager.rs:90-116 | every step keeps queue conservation against the messages the worker still owes an ack for |
| PipelineLaws.WatermarksKept | src/offset/offset_tracker.rs:83-104 | no step of the pipeline unregisters a partition or lowers its watermark |
| PipelineLaws.RunKeepsInv | src/worker_pool/worker.rs:371-553 | the whole invariant holds in every reachable state of every interleaving |
| Delivery.RunKeepsBooks | src/worker_pool/worker.rs:371-553 | every accepted and unsettled message is still in its line, or was dropped with its receiver above everything settled of its partition |
| Delivery.WatermarkMeaning | src/offset/offset_tracker.rs:47-48 | in the pipeline every offset from a partition's first ack to its watermark was acked |
| Delivery.AtLeastOnce | src/worker_pool/worker.rs:371-553 | in every run a polled offset at or below the watermark had its handler succeed and was acked, or was handed off, or never entered its queue; nothing taken is unsettled there and nothing queued, batched, in a handler or awaiting retry is there |
| Delivery.EndsApart | src/worker_pool/batch_loop.rs:295-403 | no message is both acked and handed off, and no refused message is either |
| Delivery.WatermarkPassesOnlyBeforeFirstAck | src/offset/offset_tracker.rs:87-89 | the watermark covers a dead-lettered or refused offset if and only if it precedes the partition's first ack |
| Delivery.RefusedAndPassedOver | src/dispatcher/consumer_dispatcher.rs:82-106 | there is a run in which a refused message is passed over by the watermark and by a committed offset, and so lost |
| Delivery.FirstAckStays | src/offset/offset_tracker.rs:87-89 | that first ack never changes |
| Delivery.CommitsAreSafe | src/offset/commit_task.rs:171-245 | every offset issued to the broker was acked, is at most the watermark, and every polled offset up to it is settled or was refused |
| Delivery.PipelineConservation | src/dispatcher/queue_manager.rs:90-116 | in the whole pipeline a live queue counts its channel plus the unacked messages of its worker, and no worker's queue ack saturates |
| Delivery.NeverStuck | src/worker_pool/worker.rs:387-552 | in every reachable state a worker that holds a message can go on, whatever the handler returns |
| Stepwise.SingleStepsAreAnAttempt | src/worker_pool/worker.rs:106-194 | the pipeline's steps of one worker left alone are exactly the calls of one attempt, in order |
| Stepwise.BatchStepsSettleOne | src/worker_pool/batch_loop.rs:316-401 | the same for one message of a batch |
| Commits.OffsetCommitter.CommitPartition | src/offset/commit_task.rs:224-245 | one attempt to store, then to commit if stored; failures are recorded and not retried |
| Commits.OffsetCommitter.ProcessPartition | src/offset/commit_task.rs:171-187 | behind the throttle, issues the partition's watermark exactly if it may be committed, then resets |
| Commits.OffsetCommitter.Select | src/offset/commit_task.rs:202-211 | the watermarks of exactly the committable partitions, once each |
| Commits.OffsetCommitter.ProcessReadyPartitions | src/offset/commit_task.rs:194-219 | behind the throttle, issues exactly those and resets; otherwise changes nothing |
| Commits.CommitterSoundness | src/offset/commit_task.rs:171-219 | under any interleaving with acks and failures an issued offset is at most its partition's watermark at that moment, and a partition's issued offsets never decrease |
| Commits.ScanIssuesEligible | src/offset/commit_task.rs:194-219 | a scan, and the pass at shutdown, issues every partition registered at its start and not terminal at its end, once, at no less than its watermark at the start, and none that was terminal at its start |
| Commits.TerminalEndsCommits | src/offset/commit_task.rs:202-210 | from a terminal failure on, a partition's issues and its pick by the cycle under way together stay constant: it is issued once more if it was picked, else never |
| Commits.TerminalRace | src/offset/commit_task.rs:205-216 | that one more issue happens in a run where the failure comes between check and read |
| Commits.CyclesSpaced | src/offset/commit_task.rs:65-79 | with a message limit of at least one, every cycle starts at least the interval after the previous one ended |
| Commits.ThrottleExactly | src/offset/commit_task.rs:65-74 | a cycle may start exactly when none was done, the interval has passed, or the message limit is zero |
| Rebalancing.ConsumerContext.Persist | src/consumer/context.rs:131-173 | stores and commits one registered partition's watermark |
| Rebalancing.ConsumerContext.PreRebalance | src/consumer/context.rs:119-194 | does so for every revoked partition in turn and clears its pause mark; nothing otherwise |
| Rebalancing.ConsumerContext.PostRebalance | src/consumer/context.rs:199-275 | seeks every assigned partition to its target, if it has one |
| Rebalancing.RevokeExactly | src/consumer/context.rs:127-173 | for every partition and a whole revoke list: stored and persisted become watermark + 1 if and only if it is registered, its store was accepted and, for persisted, its own or a later commit was accepted; exactly what they are otherwise |
| Rebalancing.RevokeIgnoresTerminal | src/consumer/context.rs:131-136 | a whole revoke does the same whether or not a partition has a terminal failure, which the committer would refuse |
| Rebalancing.AssignExactly | src/consumer/context.rs:219-265 | for every partition and a whole list: fetched above its watermark, else from its startup offset, else left where it was; nothing stored or persisted changes |
| Rebalancing.ResumesAtWatermark | src/consumer/context.rs:213-229 | revoke then reassign with any acks in between: the fetch position is one above the watermark by then, never below the persisted one, above it if and only if the next offset was acked meanwhile, and passes over acked offsets only |
| Rebalancing.AckAfterRevoke | src/consumer/context.rs:224-229 | a concrete ack between the two after which the positions differ |
| Rebalancing.RestartResumes | src/consumer/context.rs:229-234 | a new process that starts from what the revoke persisted resumes right above the old process's watermark |
| Rebalancing.ReplayClosesGaps | src/offset/offset_tracker.rs:74-104 | once every offset from watermark + 1 to n is acked again the watermark is at least n, and not before all of them were acked |
| Rebalancing.ReackIsHarmless | src/offset/offset_tracker.rs:83-104 | acking a covered or buffered offset again changes neither the watermark nor what is buffered or failed above it |
| FanOut.FanOutTracker.TryAcquireSlot | src/worker_pool/fan_out.rs:221-234 | uncontended, succeeds exactly while slots are left |
| FanOut.FanOutTracker.RecordBranchResult | src/worker_pool/fan_out.rs:269-280 | pushes, counts, notifies once the count reaches the total |
| FanOut.SlotCount | src/worker_pool/fan_out.rs:221-240 | with loads and exchanges of all callers interleaved, the counter is holders less stray releases modulo 256; without stray releases it is the number of holders, at most min(max_fan_out, 64) |
| FanOut.SlotGranted | src/worker_pool/fan_out.rs:221-234 | a slot is granted exactly if one was left at the load and the counter is back at that value at the exchange |
| FanOut.WorkerReleasesOnly | src/worker_pool/worker.rs:300-301 | after k releases without acquisition the counter is -k modulo 256, which turns every caller away for the first 192 |
| FanOut.WaiterSeesRegistered | src/worker_pool/fan_out.rs:264-295 | in every interleaving of at most 255 branches the returned list holds each branch registered at the comparison exactly once, with its own result |
| FanOut.PassesExactly | src/worker_pool/fan_out.rs:286-295 | undisturbed, the waiter goes through exactly if there are branches and all registered ones were counted |
| FanOut.WaitAllComplete | src/worker_pool/fan_out.rs:261-295 | if all branches are registered before any records, the list holds exactly one result per branch |
| FanOut.TooManyBranches | src/worker_pool/fan_out.rs:264-295 | with 256 branches, all registered before the first result, there is a run in which the waiter returns with one result |
| FanOut.LateRegistrationMissed | src/worker_pool/worker.rs:253-254 | registering inside the branch's task lets the waiter return without it |
| LogFilter.SplitFaithful | src/log.rs:117 | splitting a target at its separators loses nothing |
| LogFilter.FindSep | src/log.rs:129 | the first separator from a position on, none exactly if there is none |
| LogFilter.SegmentsPlain | src/log.rs:117 | no segment contains a separator |
| LogFilter.StoreIsUpdate | src/log.rs:67-88 | storing under one path is seen under that path only |
| LogFilter.CacheIsMap | src/log.rs:67-124 | after any stores the trie answers like a map keyed by the target string |
| LogFilter.LoggerState.Lookup | src/log.rs:111-124 | walks the trie along the target's segments; nothing if caching is off |
| LogFilter.LoggerState.StoreToCache | src/log.rs:150-155 | stores the entry unless the cache was replaced since it was loaded; then the replacement stays |
| LogFilter.LoggerState.FilterFor | src/log.rs:126-139 | the filter of the longest registered prefix of whole segments, else the default |
| LogFilter.LongestIsUnique | src/log.rs:126-139 | that filter is determined |
| LogFilter.LoggerState.Enabled | src/log.rs:141-148 | a record passes exactly if the cached level and the module filter both let it |

## Left out

- Python bindings, configuration builders, environment loading: plumbing without a hard property.
- The Kafka client and the brokers: only the offsets passed to them are modelled. Storing offset N is taken to make N + 1 the next position, and a commit to persist everything stored.
- Integer widths: offsets, attempts and queue counters are unbounded integers; the one-byte fan-out counters do wrap.
- Message timestamps and headers, tracing, metrics, middleware, the runtime snapshot and the exception-text classifier: reporting only.
- The dead-letter router and the record's timestamps and last processed offset: the record carries place, reason, attempts, timeout, key and payload.
- Task abort and the delivery of final commits at shutdown (`src/worker_pool/pool.rs:175-203`, the dropped futures at `src/offset/offset_tracker.rs:303-304`): no claim is made that they happen.
- `flush_failed_to_dlq` (`src/offset/offset_tracker.rs:310-386`): part of shutdown, like the above.
- Liveness of wake-ups (`Notify`, watch channels, `select!`): every theorem is a safety property, and termination is proved of the loops the code itself bounds.
- Resuming a paused topic eventually: a resume is only looked at after a successful send, so this code does not decide it.
- Per-handler concurrency permits and the fan-out slot manager: thin wrappers over a library semaphore.
- Fan-out inside the single worker's loop: branches run after the message is settled; the tracker they share is modelled on its own.
- The pause mark's string key (`src/consumer/context.rs:176`): the model keys it by topic and partition.
- Pipeline.After: one worker per topic queue, as the pool creates them; the committer's steps are freer than the code's, since any registered partition may be selected at any time.
- Worker.WorkerLoop: takes its inbox as a sequence; the interleaving with senders is in the pipeline model.
- BatchLoop.BatchWorkerLoop: one random draw serves all failed messages, since batch mode discards the delay, and all messages of a worker carry its queue's topic.
- Retry.TotalBackoffBound: over real numbers, without floating-point rounding.
- Rebalancing.ConsumerContext.PreRebalance: sequential; acks that arrive during the callback are not interleaved with it.
- OffsetTracking.OffsetTracker.GracefulShutdown: check and read are one atomic pass; taken apart and interleaved with acks and failures the pass is a shutdown cycle of the machine in `Commits.dfy`. Two tasks' cycles are not interleaved with each other.
- Commits.OffsetCommitter.ProcessReadyPartitions: sequential; the interleaving with acks and failures is the subject of Commits.CommitterSoundness and its neighbours.
- Dispatcher.send (`src/dispatcher/mod.rs:100-145`): the same as the variant with a signal, which is dropped.
