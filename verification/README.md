# Verified model of the durable execution protocol

The platform runs workflow executions with at-least-once delivery: API callers insert an
execution and an outbox row, schedulers publish outbox rows to a queue, requeue due retries, tick
schedules and reap expired leases, workers pop messages, claim and run executions step by step
under a renewable lease, and operators cancel executions or retry dead letters. All of them
interleave at every commit. This project models that protocol and proves what no interleaving can
break.

## Shape

| file | what it holds |
|---|---|
| `Json.dfy`, `Steps.dfy` | JSON objects, the built-in step runner, the straight-line evaluation of a workflow |
| `Backoff.dfy` | retry delays over reals, for an arbitrary digest |
| `Models.dfy` | the persisted rows |
| `Columns.dfy` | what each commit leaves in the columns, spelled out independently of how it is computed |
| `Lifecycle.dfy` | every write to one execution, as a change of its row, step rows, failure records and audit log; what any history of such changes keeps |
| `Protocol.dfy` | the transition system: one action per commit, private state of workers, reapers and callers included |
| `Fencing.dfy` | the inductive invariant, and the proof that every action refines the lifecycle |
| `Guarantees.dfy`, `Delivery.dfy`, `Requests.dfy`, `Schedules.dfy` | the theorems about all reachable states and all runs |
| `Stores.dfy` | the shared database and queue as a mutable class |
| `Executions.dfy`, `Scheduling.dfy`, `Publishing.dfy`, `ExecutionRequests.dfy`, `Operators.dfy` | the code of the services as methods on that class, each shown to take only steps of the protocol |
| `CatchingUp.dfy`, `Scheduler.dfy` | repeated passes over the due schedules, and whole cycles of the scheduler process |

A worker's commits are writes by primary key that look at no lease; they write from a snapshot the
worker loaded earlier. So the central argument is a refinement: in every reachable state the
snapshot of whoever may commit equals what is stored, hence every action of the platform is a
change of the simple lifecycle in `Lifecycle.dfy`, and everything proved there holds of every run.

The methods run with interference. Between two commits they call `Store.Others`, whose contract
says no more than that some run of the protocol happened and that the caller's private state
stood still; `Stores.OthersKeepLocalState` shows that the actions of others do keep it. The
ghost constant `alone` says that nobody else runs; under it the methods state their effect
exactly.

## Assumptions

- **Timing.** A commit follows its last renewal by less than `lease_seconds` on a common clock
  (`Protocol.InTime`, `Store.OthersBefore`). `Fencing.FencingIsExact` shows that this is exactly
  what fencing needs. The failure model document promises fencing without this condition; the
  code does not provide that (see the results below).
- **Fresh identifiers.** An id is a position in creation order; a lease token is the position of
  its delivery.
- **Atomic operator routes.** Retry and cancel are each one atomic read-check-write.
- **Immutable requests.** Workflow definitions and input payloads do not change; `max_attempts`
  and `retry_base_seconds` are at least 1.
- **Runner.** A step's successful result depends on its kind, config, input payload and accumulated
  output only. It may raise anything at any time.
- `now` is read at the commit it belongs to, except the reaper's, which is as old as its reading.
- **Fresh reading.** The attempt count that a due retry's requeue logs is the row's own. The code
  takes it from `session.get` in a session that serves the whole scheduler cycle and does not
  expire on commit (`app/scheduler.py:33-37`, `app/infrastructure/database.py:18`), so an object
  loaded earlier in the cycle and still referenced could give an older count.
- **Slow publishers.** The transition system lets a publisher push any row at any time, since it may
  have loaded the row while it was unpublished and take arbitrarily long. What one pass selects is
  modelled in `Publishing`, and `Delivery.SelectingRun` describes runs without such latecomers.
- The text `schedule:<id>:<due>` is one to one in id and due time; callers may send it too.

## Results about the code that contradict its documents

- A delivery popped by a worker process that dies before its claim is lost although the execution
  is queued and its outbox row published (`Delivery.DroppedDeliveryStrands`). With nothing else
  outstanding, coverage is lost exactly by such a drop when no row of the execution is unpublished,
  or, after the drop, by the mark of its last unpublished row (`Delivery.CoverageLostExactly`); it
  comes back exactly by a push of one of its rows or a cancellation
  (`Delivery.CoverageRegainedExactly`). Without a drop it is never lost
  (`Delivery.QueuedIsOutstanding`).
- A commit that comes later than `lease_seconds` after its renewal lands although a reaper has
  taken the row. Such a state is reached by one request and one slow worker
  (`Fencing.LateSuccessHappens`); from every state with an overdue commit whose worker still holds
  the lease the reaper can get there first, and every commit but the start of a step then leaves an audit log that contradicts the
  row (`Fencing.LateCommitCorruptsHistory`).
- A due tick fails, and its scheduler pass raises, exactly when a request was made under the key
  of that tick (`Schedules.TickBlockedExactlyByRequest`), which a caller can do
  (`Schedules.RequestCanBlockTick`). Catching up meets its promised number of passes exactly when
  no request holds the key of a tick within them (`Schedules.CatchUpIsExact`, `CatchingUp.CatchUp`).
  Such a schedule never ticks again (`Schedules.BlockedForever`), and since nothing in the scheduler
  catches the error, no later cycle reaches the retries or the publisher
  (`Scheduler.RestartScheduler`).
- The state diagram lacks two edges of the code: running to queued by the reaper
  (`Guarantees.RunningIsRecoverable`), and retry-scheduled to cancelled (`Operators.CancelExecutionRoute`).

## Model

| member | source | states |
|---|---|---|
| `Json.PyEqualMeans` | app/services/steps.py:51-52 | when two JSON values are equal: null and texts only to themselves, numbers also to the booleans 1 and 0, arrays and objects entry by entry |
| `Steps.AssignPutsItsValue` | app/services/steps.py:41-45 | after an assign step the target holds the configured value, null if missing, and nothing else has changed |
| `Steps.EmitEventPutsItsPayload` | app/services/steps.py:54-61 | after an emit_event step event name and payload are the config's, an empty payload if missing, and nothing else has changed |
| `Steps.ConditionPutsItsVerdict` | app/services/steps.py:47-52 | after a condition step field and verdict are there, by the earlier output, else the input payload, else null, and nothing else has changed |
| `Steps.RejectionsSayWhy` | app/services/steps.py:43-60 | code and message with which each kind rejects its config, never transient |
| `Steps.UnknownKindsAreRejected` | app/services/steps.py:39 | any other kind is rejected for good |
| `Steps.WellFormedMeans` | app/services/executions.py:100-107 | which stored definitions are well formed, on their raw entries |
| `Steps.DefinitionDecidesSuccess` | app/services/steps.py:31-61 | with the built-in runner a workflow evaluates if and only if each of its definitions is well formed, whatever the input and the earlier outputs |
| `Steps.LastWriterWins` | app/services/executions.py:185 | in a right-biased merge a key has the value of its last writer and is absent exactly when nobody wrote it |
| `Steps.EvaluationMergesResults` | app/services/executions.py:185-190 | the accumulated output is the merge of all step results |
| `Steps.ConditionSeesLastWrite` | app/services/steps.py:47-52 | a condition compares with the last earlier write of its field, null included, and with the input payload only if no step wrote it |
| `Backoff.DelayFollowsDigest` | app/services/executions.py:25-30 | the delay at every digest: 0.8 to 1.2 of the exponential, evenly, and then the floor of one second |
| `Backoff.ExponentialMeans` | app/services/executions.py:26 | the base for a first attempt, doubled by each further one |
| `Backoff.DelayWithinBand` | app/services/executions.py:25-30 | at least one second, and within 20 percent of base * 2^(attempt-1), the lower end raised to 1 |
| `Backoff.DelaysStrictlyIncrease` | app/services/executions.py:25-30 | a later attempt waits strictly longer whatever the jitter of either |
| `Backoff.TotalDelayBounded` | app/services/executions.py:25-30 | the total waiting of n attempts lies within 20 percent of the sum of their exponentials |
| `Backoff.GeometricSum` | app/services/executions.py:26 | that sum is base * (2^n - 1) |
| `Backoff.BudgetWaitBounded` | app/services/executions.py:248-255 | one attempt budget waits at most 1.2 * base * (2^(max_attempts-1) - 1), and at least 0.8 of it |
| `Lifecycle.RetryWaitsItsBackoff` | app/services/executions.py:248-255 | after a retryable failure exactly a cancellation, or a requeue no sooner than the stored delay, can follow; the delay lies in its band |
| `Lifecycle.OutputRefinementKept` | app/services/executions.py:92-201 | every change keeps step rows and output equal to the straight-line evaluation |
| `Lifecycle.SoundForever` | app/services/executions.py:48-282 | all of it after any history of changes |
| `Lifecycle.RemainingDecreases` | app/services/executions.py:232-264 | a potential that every lifecycle transition but manual retry strictly decreases |
| `Lifecycle.TransitionsBounded` | app/services/executions.py:48-282 | transitions in any history number at most that potential plus one budget per manual retry |
| `Lifecycle.FreshExecutionTerminates` | app/services/executions.py:48-282 | without manual retry at most 3 * max_attempts + steps + 1 transitions |
| `Fencing.ActionsRefineLifecycle` | app/services/scheduling.py:23-208 | every action of anybody leaves the executions alone, adds one, or makes one lifecycle change |
| `Fencing.InvReachable` | app/services/executions.py:284-302 | the invariant holds in every reachable state |
| `Fencing.FencingIsExact` | app/services/executions.py:183-201 | a pending commit is safe from every behaviour of the others if and only if its deadline has not passed |
| `Fencing.ReapPastDeadline` | app/services/scheduling.py:45-66 | past the deadline a reaper reading now takes the row |
| `Fencing.LateCommitCorruptsHistory` | app/services/executions.py:183-282 | from every reachable state with an overdue commit whose worker still holds the lease, a run leads to one where that commit lands and leaves a log that does not explain the row, except for the start of a step |
| `Fencing.OverdueCommitIsReachable` | app/services/executions.py:284-302 | for every workflow, a state with an overdue commit and the lease still held is reached |
| `Fencing.LateSuccessHappens` | app/services/executions.py:203-220 | with a workflow without steps, a state is reached where a late success contradicts the log |
| `Guarantees.OutputIsStraightLine` | app/services/executions.py:92-220 | in every reachable state the output is that of an uninterrupted run of the first current_step steps; a success holds that of the whole workflow |
| `Guarantees.StepRowsExplainOutput` | app/services/executions.py:117-135 | the structure of the step rows, and their merged outputs equal the output |
| `Guarantees.RowsAreWellShaped` | app/services/scheduling.py:55-64 | row shape and attempt budget in every reachable state |
| `Guarantees.HistoryExplainsRow` | app/services/executions.py:238-246 | attempt conservation, exactly-once progress and replay of the audit log in every reachable state |
| `Guarantees.FailuresAreShown` | app/services/executions.py:145-176 | in every reachable state a waiting or dead execution shows its last failure, waiting exactly if that was transient with attempts left; a waiting one has a failed row for its current step with the same message; step rows have errors and outputs exactly by their status |
| `Guarantees.LeaseFollowsHeartbeat` | app/services/executions.py:58-67 | in every reachable state a lease ends exactly lease_seconds after the last heartbeat |
| `Guarantees.OnlyTheHolderCommits` | app/services/executions.py:183-201 | no stale step, failure or success commit lands |
| `Guarantees.RenewalAndReapExclude` | app/services/scheduling.py:45-69 | a late renewal and a reap of the same lease have exactly one winner |
| `Guarantees.ReaperDecidesOnCurrentRow` | app/services/scheduling.py:43-94 | requeue or dead letter is decided by the attempt count at commit time, and every column the reap leaves, the failure record of the current step included |
| `Guarantees.RunsRefineHistories` | app/services/executions.py:48-282 | any run of the platform, seen from one execution, is a legal lifecycle history |
| `Guarantees.TransitionsBoundedInRuns` | app/services/scheduling.py:178-190 | the bound on transitions along any run |
| `Guarantees.ProgressNeverLost` | app/services/executions.py:236 | current_step never decreases, the log and the failures only grow |
| `Guarantees.LeaseHoldsUntilExpiry` | app/services/executions.py:284-302 | no run takes an unexpired lease from a worker that has not finished, failed or crashed |
| `Guarantees.ClaimLasts` | app/services/executions.py:58-67 | from a granted claim on, no run takes the execution from its worker within lease_seconds of the claim, unless that worker stops by itself |
| `Guarantees.RenewalLasts` | app/services/executions.py:284-302 | the same from a renewal on |
| `Guarantees.FinalMeansFinal` | app/api/routes/executions.py:127-148 | nothing is written to a succeeded or cancelled execution again |
| `Guarantees.MissedForGood` | app/services/scheduling.py:45-66 | once a reaper's conditional update misses, it never matches again |
| `Guarantees.WaitsUntilLogged` | app/services/scheduling.py:178-206 | an execution waiting for its retry is untouched until its log says requeued or cancelled |
| `Guarantees.RunningIsRecoverable` | app/services/scheduling.py:23-96 | from every reachable state a run without any worker takes a running execution to queued or dead letter, by its attempt count |
| `Delivery.CoverageLostExactly` | app/services/scheduling.py:217-238 | one step takes the last unpublished row, message or unclaimed delivery of a queued execution if and only if it drops its last delivery with no row unpublished, or marks its last unpublished row with nothing in the queue or in hand |
| `Delivery.CoverageRegainedExactly` | app/services/scheduling.py:226-228 | a queued execution with nothing outstanding is covered again exactly by a push of one of its rows or by its cancellation |
| `Delivery.StrandedExactly` | app/services/scheduling.py:205-238 | after any run an execution is queued with nothing outstanding if and only if its last such loss has not been made good |
| `Delivery.ClaimableExactly` | app/worker.py:30-44 | a queued execution has something outstanding if and only if publishers and workers alone can bring it to a claim; otherwise no run does in which publishers push only unpublished rows |
| `Delivery.QueuedIsOutstanding` | app/services/scheduling.py:226-238 | after any run that never drops the only copy of its delivery, a queued execution has one outstanding |
| `Delivery.DroppedDeliveryStrands` | app/worker.py:31-39 | a reachable state where a dropped delivery leaves a queued execution with none |
| `Delivery.DispatchesBalanceClaims` | app/services/scheduling.py:178-207 | outbox rows are 1 plus redispatch events, and exceed claims by 1 exactly when queued or cancelled while queued, else by 0 |
| `Requests.CallersAgree` | app/services/execution_requests.py:21-65 | calls with one key return one execution, only one of them created it, with its own payload and one request event |
| `Requests.KeysIdentify` | app/services/execution_requests.py:22-26 | in every reachable state two executions differ exactly if they differ in workflow id or key |
| `Requests.CallersHoldTheirKey` | app/services/execution_requests.py:55-60 | a returned call holds an execution of its own workflow id and key; two calls hold the same one exactly if they agree in both |
| `Requests.RecoveryNeverRaises` | app/services/execution_requests.py:53-63 | the lookup after a duplicate-key rollback always finds the execution |
| `Schedules.TicksAreExact` | app/services/scheduling.py:115-161 | n ticks have due times start + k * interval for k below n, one distinct execution each, and no other |
| `Schedules.TickBlockedExactlyByRequest` | app/services/scheduling.py:134-148 | a due tick goes through if and only if no request holds its key |
| `Schedules.RequestCanBlockTick` | app/services/scheduling.py:134-148 | a state is reached where a tick is due and cannot be taken |
| `Schedules.BlockedForever` | app/services/scheduling.py:134-148 | a due schedule whose next key a request holds is the same after every run |
| `Schedules.CatchUpIsExact` | app/services/scheduling.py:116-160 | at a standing clock n more ticks of a schedule can be taken if and only if it owes n and no request holds the key of any of them; it owes floor((now - next_run_at) / interval) + 1 when overdue |
| `Schedules.DueUntilCaughtUp` | app/services/scheduling.py:99-131 | after n such ticks it is still due if and only if it owed more than n |
| `Stores.OthersKeepLocalState` | app/infrastructure/database.py:18 | a run in which a process does not move leaves its private state alone |
| `Stores.Store.Others` | app/scheduler.py:32-46 | the interference between two commits: any run of the protocol |
| `Stores.Store.OthersBefore` | app/services/executions.py:183-201 | the same, ending before the deadline of a renewed lease |
| `Executions.ExecutionService.Claim` | app/services/executions.py:48-72 | the conditional claim, a protocol step, true exactly for a queued execution, with every column it leaves: owner, token, heartbeat and an expiry lease_seconds after the claim |
| `Executions.ExecutionService.LoadExecution` | app/services/executions.py:82-94 | the snapshot is the stored row and step rows; later writes are based on it |
| `Executions.ExecutionService.RenewLease` | app/services/executions.py:284-302 | renews exactly for the holder of a running lease, for lease_seconds from now and with no other column changed; otherwise the worker stops |
| `Executions.ExecutionService.StartStep` | app/services/executions.py:117-135 | inserts the row of the current step, or restarts it with one more attempt and its error cleared; nothing else is written |
| `Executions.ExecutionService.FinishStep` | app/services/executions.py:185-201 | step row, progress, merged output and event together, column by column against what was stored |
| `Executions.ExecutionService.CompleteExecution` | app/services/executions.py:205-220 | success with its event, lease and errors cleared, and no other column changed |
| `Executions.ExecutionService.FailExecution` | app/services/executions.py:145-282 | a retry after the delay exactly for a transient failure within budget, else a dead letter; code, message, failure record, event and the failed step row, column by column |
| `Executions.ExecutionService.FinishRun` | app/services/executions.py:137-201 | runs the step, renews and commits its outcome |
| `Executions.ExecutionService.RunOneStep` | app/services/executions.py:96-201 | one turn of the loop advances by one step or stops |
| `Executions.ExecutionService.RunSteps` | app/services/executions.py:92-220 | only protocol steps; left alone the execution leaves running, and succeeds exactly if the workflow evaluates |
| `Executions.ExecutionService.Run` | app/services/executions.py:48-80 | as above from the claim on, a no-op for an execution that is not queued |
| `Executions.HandleDelivery` | app/worker.py:30-44 | one delivery from the queue under a fresh token: processed exactly if queued, then never left running, and succeeded exactly if the workflow evaluates |
| `Scheduling.RewrittenAt` | app/services/scheduling.py:39-95 | a pass writes each fetched row once, from its original, and nothing else |
| `Scheduling.ReadRow` | app/services/scheduling.py:25-42 | the reading a reaper acts on |
| `Scheduling.ReapOne` | app/services/scheduling.py:45-95 | the conditional update with its outbox row or failure record, column by column; a miss changes nothing |
| `Scheduling.ReapExpiredExecutions` | app/services/scheduling.py:23-96 | only protocol steps; whoever else runs, no fetched lease is left expired and the count is that of the executions it reaped, each logged; alone it reaps every fetched execution by its current attempt count |
| `Scheduling.RequeueNext` | app/services/scheduling.py:178-206 | requeues exactly a retry that is still due, with its event and outbox row, whoever else runs; column by column when alone |
| `Scheduling.PrepareDueRetries` | app/services/scheduling.py:164-208 | only protocol steps; whoever else runs, every fetched retry has been requeued or cancelled and the count is that of its own requeues, each logged; alone it requeues every fetched retry with an outbox row each |
| `Scheduling.CommitTick` | app/services/scheduling.py:118-159 | the new execution, its input, its outbox row and the advanced schedule, column by column, or none of it |
| `Scheduling.TickNext` | app/services/scheduling.py:116-160 | one conditional advance with its execution and outbox row, or none of it when overtaken or when the key is taken |
| `Scheduling.PrepareDueSchedules` | app/services/scheduling.py:99-161 | only protocol steps; whoever else runs, without an error every fetched schedule has moved on, and there is an error if a request held one of their keys from the start; alone it advances each fetched schedule by one tick up to the first whose key a request holds, and raises exactly there |
| `CatchingUp.CatchUp` | app/services/scheduling.py:99-161 | with all due schedules in a batch, of n calls one raises exactly if a request holds the key of a tick within them; else each schedule has taken min(n, owed) ticks and is still due exactly if it owed more |
| `CatchingUp.CatchUpInBatches` | app/services/scheduling.py:111-112 | with any batch size, calls until nothing is due raise exactly if a request holds the key of an owed tick; else every schedule takes exactly the ticks it owed, in at least total / batch size and at most total calls |
| `Scheduler.SchedulerCycle` | app/scheduler.py:32-46 | a cycle raises exactly if a request holds the key of a due tick, as long as the schedules fit into a batch, whoever else runs; left alone it has then published nothing and requeued no retry; otherwise, alone, with a healthy queue and work that fits into a batch, every expired execution is reaped, every due retry requeued, every due schedule one tick further, and every row published in order, those of the cycle itself included |
| `Scheduler.RestartScheduler` | app/scheduler.py:25-47 | once that is so, every start of the scheduler ends in an error in its first cycle; left alone, all that these starts do to the executions is reap the expired ones, with nothing published or requeued |
| `Publishing.PublishNext` | app/services/scheduling.py:227-238 | push then mark, or record the error; a row is marked only after a push |
| `Publishing.PublishDispatchOutbox` | app/services/scheduling.py:211-239 | for any pattern of push failures: each row of the batch is published or left with its error, no other is touched, the queue gains exactly the succeeding ids in order, and the count is returned; whoever else runs, each counted row has been pushed |
| `Publishing.BatchIsOldest` | app/services/scheduling.py:217-224 | the batch is the oldest unpublished rows in order, and all of them if they fit |
| `Publishing.RowsHandledAt` | app/services/scheduling.py:226-238 | each batch row is handled once, from its original |
| `Publishing.UnpublishedIsComplete` | app/services/scheduling.py:217-224 | the query selects exactly the unpublished rows |
| `Publishing.HealthyPassDrains` | app/services/scheduling.py:211-239 | with a healthy queue a pass leaves exactly the rows beyond its batch |
| `Publishing.Drain` | app/services/scheduling.py:211-239 | n calls with a healthy queue publish the oldest n * batch_size rows once each and in order; the outbox is empty exactly from the ceiling of rows over batch size on |
| `ExecutionRequests.RequestExecution` | app/services/execution_requests.py:11-65 | returns the execution of this workflow id and key, a replay exactly if there was one, else created with every column, an outbox row and its event; never re-raises |
| `Operators.RetryDeadLetterExecution` | app/api/routes/executions.py:85-114 | exactly dead letters get a fresh budget and an outbox row, with errors and finish time cleared; progress and history stay |
| `Operators.CancelExecutionRoute` | app/api/routes/executions.py:122-149 | exactly queued and retry-scheduled executions are cancelled, nothing else of them changes |

## Left out

- Authentication, roles, webhook signatures, body limits: gatekeeping without protocol state.
- Workflow creation, draft and archived workflows, list and get routes: single-branch or read-only.
- The SQL behind a SELECT: the rows it returned are a parameter described by the query; the order and limit of the reaper's, retries' and schedules' batches are left free, the publisher's are modelled.
- The SHA-256 value: the two digest bytes are arbitrary.
- Rounding of delays and timestamps to microseconds: time is real.
- Timestamps of step rows, failure records and events, actor and correlation ids, and event details other than attempt counts and step indices.
- Enabling and disabling schedules: no route does it.
- A push that reaches the queue and raises all the same appears only as a push followed by a recorded error in the transition system, not in `Publishing`.
- CatchingUp.CatchUp: the exact number of calls is for due schedules that fit into a batch; `CatchingUp.CatchUpInBatches` bounds it for the others.
- Scheduler.SchedulerCycle: with more schedules than fit into a batch, whether a cycle meets the blocked one depends on the order of the query, which is left free.
- READ COMMITTED races inside the operator routes, and lost updates of an outbox row's own attempt counter between schedulers (the protocol allows any value there).
- Stores.Store.Others: its body stands still, because only its contract matters to callers.
- Stores.Store.OthersBefore: as `Others`.
- Metrics, logging, signals, health endpoints, migrations.
