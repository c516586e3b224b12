/** The persisted entities (app/domain/models.py, app/domain/enums.py). An entity's
    id is its position in creation order, which stands for UUID uniqueness. */
module Models {
  import opened Json
  import opened Backoff

  type Time = real

  datatype Workflow = Workflow(id: nat, steps: seq<Object>, maxAttempts: Positive, retryBaseSeconds: Positive)

  datatype ExecutionStatus = Queued | Running | RetryScheduled | Succeeded | DeadLetter | Cancelled
  datatype StepStatus = StepRunning | StepSucceeded | StepFailed
  datatype Trigger = Manual | Webhook | Schedule

  /** Idempotency keys: text from a caller, or the text `schedule:<id>:<due>` that
      names one tick of one schedule. A caller may also send the latter. */
  datatype Key = Supplied(text: string) | ForTick(schedule: nat, dueAt: Time)

  /** The four lease columns are separate, as in the table, and so are the two error columns. */
  datatype Execution = Execution(
    workflow: Workflow,
    trigger: Trigger,
    key: Key,
    input: Object,
    status: ExecutionStatus,
    attemptCount: nat,
    currentStep: nat,
    output: Option<Object>,
    nextRetryAt: Option<Time>,
    leaseOwner: Option<string>,
    leaseToken: Option<nat>,
    leaseExpiresAt: Option<Time>,
    heartbeatAt: Option<Time>,
    lastErrorCode: Option<string>,
    lastErrorMessage: Option<string>,
    startedAt: Option<Time>,
    finishedAt: Option<Time>)

  datatype StepRow = StepRow(
    name: string, kind: string, status: StepStatus, attemptCount: nat,
    output: Option<Object>, error: Option<string>)

  datatype FailureRecord = FailureRecord(step: nat, transient: bool, code: string, message: string)

  datatype Event =
    | ExecutionRequested
    | ScheduledExecutionRequested
    | StepSucceededEvent(index: nat)
    | ExecutionSucceeded(attempts: nat)
    | ExecutionRetryScheduled(attempts: nat)
    | ExecutionDeadLettered(attempts: nat)
    | LeaseRequeued(attempts: nat)
    | LeaseDeadLettered(attempts: nat)
    | ExecutionRequeued(attempts: nat)
    | ManualRetryRequested(priorAttempts: nat)
    | ExecutionCancelled(attempts: nat)

  /** An execution with the rows that reference it. `claims` and `dispatches` are
      history variables: the claims ever granted and the outbox rows ever written. */
  datatype Job = Job(
    row: Execution,
    steps: map<nat, StepRow>,
    failures: seq<FailureRecord>,
    audit: seq<Event>,
    claims: nat,
    dispatches: nat)

  /** `execution.output_payload or {}` */
  function OutputOf(row: Execution): Object {
    if row.output.Some? then row.output.value else map[]
  }

  function Min(a: nat, b: nat): nat {
    if a <= b then a else b
  }
}
