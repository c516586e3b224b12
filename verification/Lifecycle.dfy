/** The lifecycle of one execution: every committed write that changes its rows,
    and what no history of such writes can break. */
module Lifecycle {
  import opened Json
  import opened Steps
  import opened Backoff
  import opened Models

  datatype World = World(leaseSeconds: Positive, run: Runner)

  // ---- The writes ----------------------------------------------------------

  /** What a worker loaded: the ORM objects that its later writes are based on. */
  datatype Snapshot = Snapshot(attempts: nat, index: nat, output: Object, steps: map<nat, StepRow>)

  function Load(j: Job): Snapshot {
    Snapshot(j.row.attemptCount, j.row.currentStep, OutputOf(j.row), j.steps)
  }

  function NewJob(workflow: Workflow, trigger: Trigger, key: Key, input: Object): Job {
    Job(
      Execution(workflow, trigger, key, input, Queued, 0, 0,
                None, None, None, None, None, None, None, None, None, None),
      map[], [],
      [if trigger.Schedule? then ScheduledExecutionRequested else ExecutionRequested],
      0, 1)
  }

  function ClearLease(row: Execution): Execution {
    row.(leaseOwner := None, leaseToken := None, leaseExpiresAt := None, heartbeatAt := None)
  }

  function WriteClaim(w: World, j: Job, token: nat, owner: string, now: Time): Job {
    j.(row := j.row.(status := Running, startedAt := Some(now), attemptCount := j.row.attemptCount + 1,
                     nextRetryAt := None, leaseOwner := Some(owner), leaseToken := Some(token),
                     heartbeatAt := Some(now), leaseExpiresAt := Some(now + w.leaseSeconds as real)),
       claims := j.claims + 1)
  }

  function WriteRenewal(w: World, j: Job, now: Time): Job {
    j.(row := j.row.(heartbeatAt := Some(now), leaseExpiresAt := Some(now + w.leaseSeconds as real)))
  }

  function StartedRow(v: Snapshot, d: Definition): StepRow {
    if v.index in v.steps
    then v.steps[v.index].(status := StepRunning, attemptCount := v.steps[v.index].attemptCount + 1, error := None)
    else StepRow(d.name, d.kind, StepRunning, 1, None, None)
  }

  function WriteStepStart(j: Job, v: Snapshot, d: Definition): Job {
    j.(steps := j.steps[v.index := StartedRow(v, d)])
  }

  function WriteStepSuccess(j: Job, v: Snapshot, output: Object): Job
    requires v.index in v.steps
  {
    j.(row := j.row.(currentStep := v.index + 1, output := Some(v.output + output)),
       steps := j.steps[v.index := v.steps[v.index].(status := StepSucceeded, output := Some(output))],
       audit := j.audit + [StepSucceededEvent(v.index)])
  }

  function WriteSuccess(j: Job, v: Snapshot, now: Time): Job {
    j.(row := ClearLease(j.row).(status := Succeeded, finishedAt := Some(now),
                                 lastErrorCode := None, lastErrorMessage := None),
       audit := j.audit + [ExecutionSucceeded(v.attempts)])
  }

  /** A failed step: the step row is marked too, unless the definition was invalid
      and no step row was started. */
  function WriteFailure(j: Job, v: Snapshot, f: FailureRecord, markStep: bool, digest: Digest, now: Time): Job
    requires markStep ==> v.index in v.steps
  {
    var workflow := j.row.workflow;
    var retryable := f.transient && v.attempts < workflow.maxAttempts;
    var row := ClearLease(j.row).(lastErrorCode := Some(f.code), lastErrorMessage := Some(f.message),
                                  currentStep := v.index);
    j.(row := if retryable
              then row.(status := RetryScheduled,
                        nextRetryAt := Some(now + RetryDelay(digest, v.attempts, workflow.retryBaseSeconds)))
              else row.(status := DeadLetter, finishedAt := Some(now)),
       steps := if markStep
                then j.steps[v.index := v.steps[v.index].(status := StepFailed, error := Some(f.message))]
                else j.steps,
       failures := j.failures + [f],
       audit := j.audit + [if retryable then ExecutionRetryScheduled(v.attempts)
                           else ExecutionDeadLettered(v.attempts)])
  }

  const LEASE_EXPIRED := "worker_lease_expired"
  const LEASE_EXPIRED_MESSAGE := "Worker lease expired before completion"

  predicate ReapRequeues(j: Job, attempts: nat) {
    attempts < j.row.workflow.maxAttempts
  }

  /** The reaper's write, with the attempt count and step that it read earlier. */
  function WriteReap(j: Job, attempts: nat, step: nat, now: Time): Job {
    var requeue := ReapRequeues(j, attempts);
    j.(row := ClearLease(j.row).(status := if requeue then Queued else DeadLetter,
                                 finishedAt := if requeue then None else Some(now),
                                 lastErrorCode := Some(LEASE_EXPIRED), lastErrorMessage := Some(LEASE_EXPIRED_MESSAGE)),
       failures := if requeue then j.failures
                   else j.failures + [FailureRecord(step, true, LEASE_EXPIRED, LEASE_EXPIRED_MESSAGE)],
       audit := j.audit + [if requeue then LeaseRequeued(attempts) else LeaseDeadLettered(attempts)],
       dispatches := if requeue then j.dispatches + 1 else j.dispatches)
  }

  function WriteRequeue(j: Job): Job {
    j.(row := j.row.(status := Queued, nextRetryAt := None),
       audit := j.audit + [ExecutionRequeued(j.row.attemptCount)],
       dispatches := j.dispatches + 1)
  }

  function WriteManualRetry(j: Job): Job {
    j.(row := j.row.(status := Queued, attemptCount := 0, finishedAt := None, nextRetryAt := None,
                     lastErrorCode := None, lastErrorMessage := None),
       audit := j.audit + [ManualRetryRequested(j.row.attemptCount)],
       dispatches := j.dispatches + 1)
  }

  function WriteCancel(j: Job, now: Time): Job {
    j.(row := j.row.(status := Cancelled, nextRetryAt := None, finishedAt := Some(now)),
       audit := j.audit + [ExecutionCancelled(j.row.attemptCount)])
  }

  // ---- Changes: the writes of an undisturbed owner -------------------------

  datatype Change =
    | Claim(token: nat, owner: string, at: Time)
    | Renew(at: Time)
    | StartStep
    | FinishStep(result: Object)
    | Complete(at: Time)
    | Reject(failure: FailureRecord, digest: Digest, at: Time)
    | FailStep(failure: FailureRecord, digest: Digest, at: Time)
    | Reap(at: Time)
    | Requeue(at: Time)
    | ManualRetry
    | Cancel(at: Time)

  predicate HasStep(j: Job) {
    j.row.currentStep < |j.row.workflow.steps|
  }

  function StepAt(j: Job): Option<Definition>
    requires HasStep(j)
  {
    Parse(j.row.workflow.steps[j.row.currentStep])
  }

  predicate StepIsRunning(j: Job) {
    j.row.currentStep in j.steps && j.steps[j.row.currentStep].status.StepRunning?
  }

  predicate Enabled(w: World, j: Job, c: Change) {
    match c
    case Claim(_, _, _) => j.row.status.Queued?
    case Renew(_) => j.row.status.Running?
    case StartStep => j.row.status.Running? && HasStep(j) && StepAt(j).Some?
    case FinishStep(result) =>
      && j.row.status.Running? && HasStep(j) && StepAt(j).Some? && StepIsRunning(j)
      && w.run(StepAt(j).value.kind, StepAt(j).value.config, j.row.input, OutputOf(j.row)) == Some(result)
    case Complete(_) => j.row.status.Running? && j.row.currentStep == |j.row.workflow.steps|
    case Reject(f, _, _) => j.row.status.Running? && HasStep(j) && f.step == j.row.currentStep && !f.transient
    case FailStep(f, _, _) =>
      j.row.status.Running? && HasStep(j) && f.step == j.row.currentStep && StepIsRunning(j)
    case Reap(at) => j.row.status.Running? && j.row.leaseExpiresAt.Some? && j.row.leaseExpiresAt.value <= at
    case Requeue(at) => j.row.status.RetryScheduled? && j.row.nextRetryAt.Some? && j.row.nextRetryAt.value <= at
    case ManualRetry => j.row.status.DeadLetter?
    case Cancel(_) => j.row.status.Queued? || j.row.status.RetryScheduled?
  }

  function Apply(w: World, j: Job, c: Change): Job
    requires Enabled(w, j, c)
  {
    match c
    case Claim(token, owner, at) => WriteClaim(w, j, token, owner, at)
    case Renew(at) => WriteRenewal(w, j, at)
    case StartStep => WriteStepStart(j, Load(j), StepAt(j).value)
    case FinishStep(result) => WriteStepSuccess(j, Load(j), result)
    case Complete(at) => WriteSuccess(j, Load(j), at)
    case Reject(f, digest, at) => WriteFailure(j, Load(j), f, false, digest, at)
    case FailStep(f, digest, at) => WriteFailure(j, Load(j), f, true, digest, at)
    case Reap(at) => WriteReap(j, j.row.attemptCount, j.row.currentStep, at)
    case Requeue(_) => WriteRequeue(j)
    case ManualRetry => WriteManualRetry(j)
    case Cancel(at) => WriteCancel(j, at)
  }

  /** A history is a sequence of changes, each enabled where it happens. */
  ghost predicate Legal(w: World, j: Job, cs: seq<Change>)
    decreases |cs|
  {
    cs == [] || (Enabled(w, j, cs[0]) && Legal(w, Apply(w, j, cs[0]), cs[1..]))
  }

  ghost function After(w: World, j: Job, cs: seq<Change>): Job
    requires Legal(w, j, cs)
    decreases |cs|
  {
    if cs == [] then j else After(w, Apply(w, j, cs[0]), cs[1..])
  }

  // ---- Row shape and attempt budget ----------------------------------------

  predicate Terminal(s: ExecutionStatus) {
    s.Succeeded? || s.DeadLetter? || s.Cancelled?
  }

  /** Which columns are set is a function of the status. */
  predicate RowShape(r: Execution) {
    && (r.leaseOwner.Some? <==> r.status.Running?)
    && (r.leaseToken.Some? <==> r.status.Running?)
    && (r.leaseExpiresAt.Some? <==> r.status.Running?)
    && (r.heartbeatAt.Some? <==> r.status.Running?)
    && (r.nextRetryAt.Some? <==> r.status.RetryScheduled?)
    && (r.finishedAt.Some? <==> Terminal(r.status))
    && (r.lastErrorCode.Some? <==> r.lastErrorMessage.Some?)
    && (r.status.Succeeded? ==> r.lastErrorCode.None?)
    && (r.status.RetryScheduled? || r.status.DeadLetter? ==> r.lastErrorCode.Some?)
  }

  predicate WithinBudget(r: Execution) {
    var max := r.workflow.maxAttempts;
    match r.status
    case Queued => r.attemptCount < max
    case Running => 1 <= r.attemptCount <= max
    case RetryScheduled => 1 <= r.attemptCount < max
    case Succeeded => 1 <= r.attemptCount <= max
    case DeadLetter => 1 <= r.attemptCount <= max
    case Cancelled => r.attemptCount < max
  }

  lemma RowShapeKept(w: World, j: Job, c: Change)
    requires Enabled(w, j, c) && RowShape(j.row) && WithinBudget(j.row)
    ensures RowShape(Apply(w, j, c).row) && WithinBudget(Apply(w, j, c).row)
  {}

  // ---- Conservation over the audit log -------------------------------------

  function SumPrior(audit: seq<Event>): nat {
    if audit == [] then 0 else
    var last := audit[|audit| - 1];
    SumPrior(audit[..|audit| - 1]) + if last.ManualRetryRequested? then last.priorAttempts else 0
  }

  function CountLeaseRequeues(audit: seq<Event>): nat {
    if audit == [] then 0 else
    CountLeaseRequeues(audit[..|audit| - 1]) + if audit[|audit| - 1].LeaseRequeued? then 1 else 0
  }

  /** The three events that go with a further outbox row. */
  predicate Redispatches(e: Event) {
    e.ExecutionRequeued? || e.LeaseRequeued? || e.ManualRetryRequested?
  }

  function CountRedispatches(audit: seq<Event>): nat {
    if audit == [] then 0 else
    CountRedispatches(audit[..|audit| - 1]) + if Redispatches(audit[|audit| - 1]) then 1 else 0
  }

  /** The indices of the `step_succeeded` events, in log order. */
  function Progress(audit: seq<Event>): seq<nat> {
    if audit == [] then [] else
    var last := audit[|audit| - 1];
    Progress(audit[..|audit| - 1]) + if last.StepSucceededEvent? then [last.index] else []
  }

  function UpTo(n: nat): (s: seq<nat>)
    ensures |s| == n && forall i | 0 <= i < n :: s[i] == i
  {
    if n == 0 then [] else UpTo(n - 1) + [n - 1]
  }

  lemma Append(audit: seq<Event>, e: Event)
    ensures SumPrior(audit + [e]) == SumPrior(audit) + if e.ManualRetryRequested? then e.priorAttempts else 0
    ensures CountLeaseRequeues(audit + [e]) == CountLeaseRequeues(audit) + if e.LeaseRequeued? then 1 else 0
    ensures CountRedispatches(audit + [e]) == CountRedispatches(audit) + if Redispatches(e) then 1 else 0
    ensures Progress(audit + [e]) == Progress(audit) + if e.StepSucceededEvent? then [e.index] else []
    ensures audit != [] ==> Replay(audit + [e]) == match Replay(audit) case None => None case Some(m) => Advance(m, e)
  {
    assert (audit + [e])[..|audit|] == audit;
  }

  /** Attempts are neither lost nor invented: each one ended in a failure record, in a
      lease requeue, or is the one now running or finally successful. */
  predicate AttemptsConserved(j: Job) {
    j.row.attemptCount + SumPrior(j.audit)
    == |j.failures| + CountLeaseRequeues(j.audit)
       + if j.row.status.Running? || j.row.status.Succeeded? then 1 else 0
  }

  /** Dispatch intents: one at creation, one per redispatch event, one consumed per
      claim; the one outstanding belongs to a queued (or cancelled while queued) execution. */
  predicate DispatchBalanced(j: Job) {
    && j.dispatches == 1 + CountRedispatches(j.audit)
    && (j.row.status.Queued? ==> j.dispatches == j.claims + 1)
    && (j.row.status.Cancelled? ==> j.dispatches == j.claims + if CancelledFromQueue(j.audit) then 1 else 0)
    && (!j.row.status.Queued? && !j.row.status.Cancelled? ==> j.dispatches == j.claims)
  }

  predicate CancelledFromQueue(audit: seq<Event>) {
    var r := Replay(audit);
    r.Some? && r.value.mode.Gone? && r.value.mode.fromQueue
  }

  /** Progress is recorded exactly once per step, in order, and never undone. */
  predicate ProgressExact(j: Job) {
    Progress(j.audit) == UpTo(j.row.currentStep)
  }

  lemma AttemptsKept(w: World, j: Job, c: Change)
    requires Enabled(w, j, c) && AttemptsConserved(j)
    ensures AttemptsConserved(Apply(w, j, c))
  {
    LogGrowsByOne(w, j, c);
  }

  lemma ProgressKept(w: World, j: Job, c: Change)
    requires Enabled(w, j, c) && ProgressExact(j)
    ensures ProgressExact(Apply(w, j, c)) && Apply(w, j, c).row.currentStep >= j.row.currentStep
  {
    LogGrowsByOne(w, j, c);
  }

  /** Every change appends at most one event. */
  lemma LogGrowsByOne(w: World, j: Job, c: Change)
    requires Enabled(w, j, c)
    ensures var j' := Apply(w, j, c);
            if Unlogged(c) then j'.audit == j.audit
            else |j'.audit| == |j.audit| + 1 && j'.audit == j.audit + [j'.audit[|j.audit|]]
    ensures var audit' := Apply(w, j, c).audit;
            audit' != j.audit ==>
              var e := audit'[|j.audit|];
              && SumPrior(audit') == SumPrior(j.audit) + (if e.ManualRetryRequested? then e.priorAttempts else 0)
              && CountLeaseRequeues(audit') == CountLeaseRequeues(j.audit) + (if e.LeaseRequeued? then 1 else 0)
              && CountRedispatches(audit') == CountRedispatches(j.audit) + (if Redispatches(e) then 1 else 0)
              && Progress(audit') == Progress(j.audit) + (if e.StepSucceededEvent? then [e.index] else [])
              && (j.audit != [] ==>
                    Replay(audit') == match Replay(j.audit) case None => None case Some(m) => Advance(m, e))
  {
    var audit' := Apply(w, j, c).audit;
    if |audit'| > |j.audit| {
      Append(j.audit, audit'[|j.audit|]);
    }
  }

  // ---- The audit log as a faithful history ---------------------------------

  /** `attempts` is the attempt count when the status was last settled. `Ready` covers
      the one unaudited edge: a claim leaves no event. */
  datatype Mode =
    | Ready(attempts: nat)
    | Busy(attempts: nat)
    | Waiting(attempts: nat)
    | Done(attempts: nat)
    | Dead(attempts: nat)
    | Gone(attempts: nat, fromQueue: bool)

  datatype Replayed = Replayed(mode: Mode, step: nat)

  /** The attempt in which a running worker's event happened. */
  predicate RunningAttempt(m: Mode, attempts: nat) {
    (attempts > 0 && m == Ready(attempts - 1)) || m == Busy(attempts)
  }

  function Advance(r: Replayed, e: Event): Option<Replayed> {
    match e
    case StepSucceededEvent(index) =>
      if index != r.step then None
      else if r.mode.Ready? then Some(Replayed(Busy(r.mode.attempts + 1), index + 1))
      else if r.mode.Busy? then Some(Replayed(r.mode, index + 1))
      else None
    case ExecutionSucceeded(a) => if RunningAttempt(r.mode, a) then Some(r.(mode := Done(a))) else None
    case ExecutionRetryScheduled(a) => if RunningAttempt(r.mode, a) then Some(r.(mode := Waiting(a))) else None
    case ExecutionDeadLettered(a) => if RunningAttempt(r.mode, a) then Some(r.(mode := Dead(a))) else None
    case LeaseRequeued(a) => if RunningAttempt(r.mode, a) then Some(r.(mode := Ready(a))) else None
    case LeaseDeadLettered(a) => if RunningAttempt(r.mode, a) then Some(r.(mode := Dead(a))) else None
    case ExecutionRequeued(a) => if r.mode == Waiting(a) then Some(r.(mode := Ready(a))) else None
    case ManualRetryRequested(a) => if r.mode == Dead(a) then Some(r.(mode := Ready(0))) else None
    case ExecutionCancelled(a) =>
      if r.mode == Ready(a) then Some(r.(mode := Gone(a, true)))
      else if r.mode == Waiting(a) then Some(r.(mode := Gone(a, false)))
      else None
    case _ => None
  }

  function Replay(audit: seq<Event>): Option<Replayed> {
    if audit == [] then None
    else if |audit| == 1 then
      if audit[0].ExecutionRequested? || audit[0].ScheduledExecutionRequested?
      then Some(Replayed(Ready(0), 0)) else None
    else
      match Replay(audit[..|audit| - 1])
      case None => None
      case Some(r) => Advance(r, audit[|audit| - 1])
  }

  predicate ModeMatches(m: Mode, r: Execution) {
    match m
    case Ready(a) => (r.status.Queued? && r.attemptCount == a) || (r.status.Running? && r.attemptCount == a + 1)
    case Busy(a) => r.status.Running? && r.attemptCount == a
    case Waiting(a) => r.status.RetryScheduled? && r.attemptCount == a
    case Done(a) => r.status.Succeeded? && r.attemptCount == a
    case Dead(a) => r.status.DeadLetter? && r.attemptCount == a
    case Gone(a, _) => r.status.Cancelled? && r.attemptCount == a
  }

  /** Replaying the log gives back the status, the attempt count and the current step. */
  predicate LogFaithful(j: Job) {
    var r := Replay(j.audit);
    r.Some? && r.value.step == j.row.currentStep && ModeMatches(r.value.mode, j.row)
  }

  predicate Unlogged(c: Change) {
    c.Claim? || c.Renew? || c.StartStep?
  }

  predicate WorkerLogs(c: Change) {
    c.FinishStep? || c.Complete? || c.Reject? || c.FailStep?
  }

  lemma UnloggedFaithful(w: World, j: Job, c: Change)
    requires Enabled(w, j, c) && LogFaithful(j) && Unlogged(c)
    ensures LogFaithful(Apply(w, j, c))
  {}

  lemma WorkerLogsFaithful(w: World, j: Job, c: Change)
    requires Enabled(w, j, c) && LogFaithful(j) && WorkerLogs(c)
    ensures LogFaithful(Apply(w, j, c))
  {
    LogGrowsByOne(w, j, c);
  }

  lemma OthersLogFaithful(w: World, j: Job, c: Change)
    requires Enabled(w, j, c) && LogFaithful(j) && !Unlogged(c) && !WorkerLogs(c)
    ensures LogFaithful(Apply(w, j, c))
  {
    LogGrowsByOne(w, j, c);
  }

  lemma FaithfulKept(w: World, j: Job, c: Change)
    requires Enabled(w, j, c) && LogFaithful(j)
    ensures LogFaithful(Apply(w, j, c))
  {
    if Unlogged(c) {
      UnloggedFaithful(w, j, c);
    } else if WorkerLogs(c) {
      WorkerLogsFaithful(w, j, c);
    } else {
      OthersLogFaithful(w, j, c);
    }
  }

  lemma BalanceKept(w: World, j: Job, c: Change)
    requires Enabled(w, j, c) && LogFaithful(j) && DispatchBalanced(j)
    ensures DispatchBalanced(Apply(w, j, c))
  {
    LogGrowsByOne(w, j, c);
  }

  lemma LogKept(w: World, j: Job, c: Change)
    requires Enabled(w, j, c) && LogFaithful(j) && DispatchBalanced(j)
    ensures LogFaithful(Apply(w, j, c)) && DispatchBalanced(Apply(w, j, c))
  {
    FaithfulKept(w, j, c);
    BalanceKept(w, j, c);
  }

  // ---- Step rows and the crash-tolerant output -----------------------------

  predicate SettledRow(j: Job, i: nat) {
    i in j.steps && j.steps[i].status.StepSucceeded? && j.steps[i].output.Some?
  }

  predicate RowMatchesDefinition(j: Job, i: nat) {
    && i in j.steps && i < |j.row.workflow.steps|
    && var d := Parse(j.row.workflow.steps[i]);
       d.Some? && j.steps[i].name == d.value.name && j.steps[i].kind == d.value.kind
  }

  /** Rows below `current_step` are all there and succeeded, at most one more exists,
      at `current_step`, and none lies beyond it. */
  predicate StepRowsShape(j: Job) {
    && j.row.currentStep <= |j.row.workflow.steps|
    && (forall i | 0 <= i < j.row.currentStep :: SettledRow(j, i))
    && (forall i | i in j.steps :: i <= j.row.currentStep && RowMatchesDefinition(j, i))
    && (j.row.currentStep in j.steps ==> !j.steps[j.row.currentStep].status.StepSucceeded?)
  }

  /** The outputs of the first `n` step rows, in index order. */
  function RowOutputs(j: Job, n: nat): (outputs: seq<Object>)
    requires forall i | 0 <= i < n :: SettledRow(j, i)
    ensures |outputs| == n && forall i | 0 <= i < n :: SettledRow(j, i) && outputs[i] == j.steps[i].output.value
  {
    seq(n, i requires 0 <= i < n => assert SettledRow(j, i); j.steps[i].output.value)
  }

  /** The durable state is what the straight-line evaluation of the first
      `current_step` steps gives, row by row and merged. */
  predicate OutputRefinesEvaluation(w: World, j: Job)
    requires StepRowsShape(j)
  {
    var steps, input, n := j.row.workflow.steps, j.row.input, j.row.currentStep;
    && Evaluate(w.run, steps, input, n) == Some(OutputOf(j.row))
    && RowOutputs(j, n) == Results(w.run, steps, input, n)
    && (j.row.status.Succeeded? ==> n == |steps|)
  }

  lemma StepRowsShapeKept(w: World, j: Job, c: Change)
    requires Enabled(w, j, c) && StepRowsShape(j)
    ensures StepRowsShape(Apply(w, j, c))
  {
    var j' := Apply(w, j, c);
    forall i | 0 <= i < j'.row.currentStep ensures SettledRow(j', i) {
      assert i < j.row.currentStep ==> SettledRow(j, i);
    }
    forall i | i in j'.steps ensures i <= j'.row.currentStep && RowMatchesDefinition(j', i) {
      assert i in j.steps ==> RowMatchesDefinition(j, i);
    }
  }

  /** Nothing ever rewrites what an execution was asked to do. */
  lemma RequestImmutable(w: World, j: Job, c: Change)
    requires Enabled(w, j, c)
    ensures var r, r' := j.row, Apply(w, j, c).row;
            r'.workflow == r.workflow && r'.trigger == r.trigger && r'.key == r.key && r'.input == r.input
  {}

  lemma ResultsGrow(run: Runner, steps: seq<Object>, input: Object, n: nat, result: Object)
    requires n < |steps| && Evaluate(run, steps, input, n).Some? && Parse(steps[n]).Some?
    requires var d := Parse(steps[n]).value;
             run(d.kind, d.config, input, Evaluate(run, steps, input, n).value) == Some(result)
    ensures Evaluate(run, steps, input, n + 1) == Some(Evaluate(run, steps, input, n).value + result)
    ensures Results(run, steps, input, n + 1) == Results(run, steps, input, n) + [result]
  {}

  lemma RowOutputsGrow(j: Job, j': Job, n: nat, result: Object)
    requires forall i | 0 <= i < n :: SettledRow(j, i) && i in j'.steps && j'.steps[i] == j.steps[i]
    requires SettledRow(j', n) && j'.steps[n].output == Some(result)
    ensures forall i | 0 <= i <= n :: SettledRow(j', i)
    ensures RowOutputs(j', n + 1) == RowOutputs(j, n) + [result]
  {
    assert forall i | 0 <= i < n :: SettledRow(j', i);
  }

  /** One more settled row and one more merged result are one more evaluated step. */
  lemma OneMoreStepRefines(w: World, j: Job, j': Job, result: Object)
    requires StepRowsShape(j) && OutputRefinesEvaluation(w, j) && StepRowsShape(j')
    requires HasStep(j) && StepAt(j).Some?
    requires w.run(StepAt(j).value.kind, StepAt(j).value.config, j.row.input, OutputOf(j.row)) == Some(result)
    requires j'.row.workflow == j.row.workflow && j'.row.input == j.row.input && !j'.row.status.Succeeded?
    requires j'.row.currentStep == j.row.currentStep + 1 && OutputOf(j'.row) == OutputOf(j.row) + result
    requires forall i | 0 <= i < j.row.currentStep :: i in j'.steps && j'.steps[i] == j.steps[i]
    requires j.row.currentStep in j'.steps && j'.steps[j.row.currentStep].output == Some(result)
    ensures OutputRefinesEvaluation(w, j')
  {
    var n := j.row.currentStep;
    ResultsGrow(w.run, j.row.workflow.steps, j.row.input, n, result);
    assert forall i | 0 <= i < n :: SettledRow(j, i);
    assert SettledRow(j', n);
    RowOutputsGrow(j, j', n, result);
  }

  lemma StepSuccessRefines(w: World, j: Job, c: Change)
    requires Enabled(w, j, c) && StepRowsShape(j) && OutputRefinesEvaluation(w, j) && c.FinishStep?
    requires StepRowsShape(Apply(w, j, c))
    ensures OutputRefinesEvaluation(w, Apply(w, j, c))
  {
    var j' := Apply(w, j, c);
    forall i | 0 <= i < j.row.currentStep ensures i in j'.steps && j'.steps[i] == j.steps[i] {
      assert SettledRow(j, i);
    }
    OneMoreStepRefines(w, j, j', c.result);
  }

  /** Outside a step success, progress and the rows below it stay put. */
  lemma OtherChangesKeepProgress(w: World, j: Job, c: Change)
    requires Enabled(w, j, c) && StepRowsShape(j) && !c.FinishStep?
    ensures var j' := Apply(w, j, c);
            && j'.row.currentStep == j.row.currentStep && j'.row.output == j.row.output
            && (forall i | 0 <= i < j.row.currentStep :: i in j'.steps && j'.steps[i] == j.steps[i])
            && (j'.row.status.Succeeded? ==> j.row.currentStep == |j.row.workflow.steps|)
  {
    forall i | 0 <= i < j.row.currentStep ensures i in Apply(w, j, c).steps && Apply(w, j, c).steps[i] == j.steps[i] {
      assert SettledRow(j, i);
    }
  }

  lemma OutputRefinementKept(w: World, j: Job, c: Change)
    requires Enabled(w, j, c) && StepRowsShape(j) && OutputRefinesEvaluation(w, j)
    ensures StepRowsShape(Apply(w, j, c)) && OutputRefinesEvaluation(w, Apply(w, j, c))
  {
    StepRowsShapeKept(w, j, c);
    if c.FinishStep? {
      StepSuccessRefines(w, j, c);
    } else {
      RequestImmutable(w, j, c);
      OtherChangesKeepProgress(w, j, c);
      SameProgressSameOutputs(w, j, Apply(w, j, c));
    }
  }

  lemma SameProgressSameOutputs(w: World, j: Job, j': Job)
    requires StepRowsShape(j) && OutputRefinesEvaluation(w, j) && StepRowsShape(j')
    requires j'.row.workflow == j.row.workflow && j'.row.input == j.row.input
    requires j'.row.currentStep == j.row.currentStep && j'.row.output == j.row.output
    requires forall i | 0 <= i < j.row.currentStep :: i in j'.steps && j'.steps[i] == j.steps[i]
    requires j'.row.status.Succeeded? ==> j.row.currentStep == |j.row.workflow.steps|
    ensures OutputRefinesEvaluation(w, j')
  {
    var n := j.row.currentStep;
    forall i | 0 <= i < n ensures RowOutputs(j', n)[i] == RowOutputs(j, n)[i] {}
    assert RowOutputs(j', n) == RowOutputs(j, n);
  }

  // ---- Step rows and failures tell what happened ---------------------------

  /** A step row shows an error exactly if it failed, and an output exactly if it succeeded. */
  predicate StepRowTells(s: StepRow) {
    (s.error.Some? <==> s.status.StepFailed?) && (s.output.Some? <==> s.status.StepSucceeded?) && s.attemptCount >= 1
  }

  predicate StepRowsTell(j: Job) {
    forall i | i in j.steps :: StepRowTells(j.steps[i])
  }

  /** The error columns show the last failure, which is that of the current step. */
  predicate ShowsLastFailure(j: Job) {
    && j.failures != []
    && var f := j.failures[|j.failures| - 1];
       && f.step == j.row.currentStep
       && j.row.lastErrorCode == Some(f.code) && j.row.lastErrorMessage == Some(f.message)
  }

  /** An execution waits for a retry because its current step failed transiently with attempts
      left, and is a dead letter because it failed for good or has used up its attempts. */
  predicate FailureShown(j: Job) {
    && (j.row.status.RetryScheduled? ==>
          && ShowsLastFailure(j)
          && j.failures[|j.failures| - 1].transient && j.row.attemptCount < j.row.workflow.maxAttempts
          && j.row.currentStep in j.steps
          && j.steps[j.row.currentStep].status.StepFailed?
          && j.steps[j.row.currentStep].error == j.row.lastErrorMessage)
    && (j.row.status.DeadLetter? ==>
          && ShowsLastFailure(j)
          && (j.failures[|j.failures| - 1].transient ==> j.row.attemptCount >= j.row.workflow.maxAttempts))
  }

  lemma FailureShownKept(w: World, j: Job, c: Change)
    requires Enabled(w, j, c) && FailureShown(j)
    ensures FailureShown(Apply(w, j, c))
  {}

  lemma StepRowsTellKept(w: World, j: Job, c: Change)
    requires Enabled(w, j, c) && StepRowsTell(j) && StepRowsShape(j)
    ensures StepRowsTell(Apply(w, j, c))
  {
    var j' := Apply(w, j, c);
    forall i | i in j'.steps ensures StepRowTells(j'.steps[i]) {
      assert i in j.steps ==> StepRowTells(j.steps[i]);
    }
  }

  // ---- The invariant of one execution --------------------------------------

  ghost predicate Sound(w: World, j: Job) {
    && RowShape(j.row) && WithinBudget(j.row)
    && AttemptsConserved(j) && ProgressExact(j)
    && LogFaithful(j) && DispatchBalanced(j)
    && StepRowsShape(j) && OutputRefinesEvaluation(w, j)
    && StepRowsTell(j) && FailureShown(j)
  }

  lemma NewJobSound(w: World, workflow: Workflow, trigger: Trigger, key: Key, input: Object)
    ensures Sound(w, NewJob(workflow, trigger, key, input))
  {
    var j := NewJob(workflow, trigger, key, input);
    assert j.audit[..0] == [];
    assert RowOutputs(j, 0) == [];
  }

  lemma SoundKept(w: World, j: Job, c: Change)
    requires Enabled(w, j, c) && Sound(w, j)
    ensures Sound(w, Apply(w, j, c))
  {
    RowShapeKept(w, j, c);
    AttemptsKept(w, j, c);
    ProgressKept(w, j, c);
    LogKept(w, j, c);
    OutputRefinementKept(w, j, c);
    StepRowsTellKept(w, j, c);
    FailureShownKept(w, j, c);
  }

  lemma {:induction false} SoundForever(w: World, j: Job, cs: seq<Change>)
    requires Legal(w, j, cs) && Sound(w, j)
    ensures Sound(w, After(w, j, cs))
    decreases |cs|
  {
    if cs != [] {
      SoundKept(w, j, cs[0]);
      SoundForever(w, Apply(w, j, cs[0]), cs[1..]);
    }
  }

  // ---- Backoff -------------------------------------------------------------

  /** After a retryable failure the execution waits: a change is possible if and only if it is
      a cancellation, or a requeue no sooner than the stored delay after the failure. That delay
      is at least a second and within 20% of base * 2^(attempt-1), the lower end raised to 1. */
  lemma RetryWaitsItsBackoff(w: World, j: Job, f: Change, c: Change)
    requires Enabled(w, j, f) && f.FailStep? && Apply(w, j, f).row.status.RetryScheduled?
    ensures var attempt, base := j.row.attemptCount, j.row.workflow.retryBaseSeconds;
            var delay, e := RetryDelay(f.digest, attempt, base), Exponential(attempt, base) as real;
            && Apply(w, j, f).row.nextRetryAt == Some(f.at + delay)
            && (Enabled(w, Apply(w, j, f), c) <==> c.Cancel? || (c.Requeue? && c.at >= f.at + delay))
            && delay >= 1.0 && 0.8 * e <= delay <= 1.2 * e
  {
    DelayWithinBand(f.digest, j.row.attemptCount, j.row.workflow.retryBaseSeconds);
  }

  // ---- Termination between operator actions --------------------------------

  function Rank(s: ExecutionStatus): nat {
    match s
    case Running => 3
    case RetryScheduled => 2
    case Queued => 1
    case _ => 0
  }

  /** The part of `Sound` that termination rests on. */
  predicate Bounded(j: Job) {
    RowShape(j.row) && WithinBudget(j.row) && j.row.currentStep <= |j.row.workflow.steps|
  }

  /** What is left: three transitions per unused attempt, the way down from the
      current status, and the steps not yet done. */
  function Remaining(j: Job): nat
    requires Bounded(j)
  {
    3 * (j.row.workflow.maxAttempts - j.row.attemptCount) + Rank(j.row.status)
    + (|j.row.workflow.steps| - j.row.currentStep)
  }

  /** Renewals and step starts leave the lifecycle where it is. */
  predicate Transition(c: Change) {
    !c.Renew? && !c.StartStep?
  }

  lemma RemainingDecreases(w: World, j: Job, c: Change)
    requires Enabled(w, j, c) && Bounded(j)
    ensures Bounded(Apply(w, j, c)) && Apply(w, j, c).row.workflow == j.row.workflow
    ensures !c.ManualRetry? && Transition(c) ==> Remaining(Apply(w, j, c)) < Remaining(j)
    ensures !Transition(c) ==> Remaining(Apply(w, j, c)) == Remaining(j)
    ensures c.ManualRetry? ==> Remaining(Apply(w, j, c)) <= Remaining(j) + 3 * j.row.workflow.maxAttempts + 1
  {}

  function CountTransitions(cs: seq<Change>): nat {
    if cs == [] then 0 else (if Transition(cs[0]) && !cs[0].ManualRetry? then 1 else 0) + CountTransitions(cs[1..])
  }

  function CountManualRetries(cs: seq<Change>): nat {
    if cs == [] then 0 else (if cs[0].ManualRetry? then 1 else 0) + CountManualRetries(cs[1..])
  }

  function Times(n: nat, k: nat): nat {
    if n == 0 then 0 else k + Times(n - 1, k)
  }

  /** Whatever the interleaving, the lifecycle transitions that are not manual retries
      number at most what was remaining plus one budget per manual retry. */
  lemma {:induction false} TransitionsBounded(w: World, j: Job, cs: seq<Change>)
    requires Legal(w, j, cs) && Bounded(j)
    ensures CountTransitions(cs)
            <= Remaining(j) + Times(CountManualRetries(cs), 3 * j.row.workflow.maxAttempts + 1)
    decreases |cs|
  {
    if cs != [] {
      RemainingDecreases(w, j, cs[0]);
      TransitionsBounded(w, Apply(w, j, cs[0]), cs[1..]);
    }
  }

  /** A fresh execution that no operator retries makes at most 3 * max_attempts + steps + 1 transitions. */
  lemma FreshExecutionTerminates(w: World, workflow: Workflow, trigger: Trigger, key: Key, input: Object,
                                 cs: seq<Change>)
    requires Legal(w, NewJob(workflow, trigger, key, input), cs)
    requires CountManualRetries(cs) == 0
    ensures CountTransitions(cs) <= 3 * workflow.maxAttempts + |workflow.steps| + 1
  {
    TransitionsBounded(w, NewJob(workflow, trigger, key, input), cs);
  }
}
