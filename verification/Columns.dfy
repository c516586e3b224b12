/** What each commit leaves in the columns, spelled out one by one. `j` and `j'` are an
    execution with its rows before and after. */
module Columns {
  import opened Json
  import opened Steps
  import opened Backoff
  import opened Models
  import opened Lifecycle
  import opened Protocol

  predicate SameRequest(r: Execution, r': Execution) {
    r'.workflow == r.workflow && r'.trigger == r.trigger && r'.key == r.key && r'.input == r.input
  }

  predicate SameProgress(r: Execution, r': Execution) {
    r'.currentStep == r.currentStep && r'.output == r.output && r'.startedAt == r.startedAt
  }

  predicate SameLease(r: Execution, r': Execution) {
    && r'.leaseOwner == r.leaseOwner && r'.leaseToken == r.leaseToken
    && r'.leaseExpiresAt == r.leaseExpiresAt && r'.heartbeatAt == r.heartbeatAt
  }

  predicate NoLease(r: Execution) {
    r.leaseOwner.None? && r.leaseToken.None? && r.leaseExpiresAt.None? && r.heartbeatAt.None?
  }

  predicate SameErrors(r: Execution, r': Execution) {
    r'.lastErrorCode == r.lastErrorCode && r'.lastErrorMessage == r.lastErrorMessage
  }

  predicate Logs(j: Job, j': Job, e: Event) {
    |j'.audit| == |j.audit| + 1 && j.audit <= j'.audit && j'.audit[|j.audit|] == e
  }

  predicate SameRows(j: Job, j': Job) {
    j'.steps == j.steps && j'.failures == j.failures
  }

  /** No step row but number `i` is written. */
  predicate OtherStepRowsSame(j: Job, j': Job, i: nat) {
    && j'.steps.Keys == j.steps.Keys + {i}
    && forall k | k in j.steps && k != i :: j'.steps[k] == j.steps[k]
  }

  /** One more outbox row: for `e`, never tried and unpublished. */
  predicate AddsOutboxRow(outbox: seq<OutboxRow>, outbox': seq<OutboxRow>, e: nat) {
    && |outbox'| == |outbox| + 1 && outbox <= outbox'
    && var r := outbox'[|outbox|];
       r.exec == e && r.attemptCount == 0 && r.lastError.None? && r.publishedAt.None?
  }

  // ---- Creation ------------------------------------------------------------

  predicate CreationColumns(j: Job, workflow: Workflow, trigger: Trigger, key: Key, input: Object, opening: Event) {
    var r := j.row;
    && r.workflow == workflow && r.trigger == trigger && r.key == key && r.input == input
    && r.status.Queued? && r.attemptCount == 0 && r.currentStep == 0 && r.output.None?
    && r.nextRetryAt.None? && NoLease(r) && r.lastErrorCode.None? && r.lastErrorMessage.None?
    && r.startedAt.None? && r.finishedAt.None?
    && j.steps == map[] && j.failures == [] && j.audit == [opening]
  }

  // ---- The worker ----------------------------------------------------------

  predicate ClaimColumns(j: Job, j': Job, owner: string, token: nat, now: Time, leaseSeconds: Positive) {
    var r, r' := j.row, j'.row;
    && r'.status.Running? && r'.attemptCount == r.attemptCount + 1
    && r'.startedAt == Some(now) && r'.heartbeatAt == Some(now)
    && r'.leaseExpiresAt == Some(now + leaseSeconds as real)
    && r'.leaseOwner == Some(owner) && r'.leaseToken == Some(token)
    && r'.nextRetryAt.None? && r'.finishedAt == r.finishedAt
    && r'.currentStep == r.currentStep && r'.output == r.output
    && SameRequest(r, r') && SameErrors(r, r')
    && SameRows(j, j') && j'.audit == j.audit
  }

  predicate RenewalColumns(j: Job, j': Job, now: Time, leaseSeconds: Positive) {
    var r, r' := j.row, j'.row;
    && r'.heartbeatAt == Some(now) && r'.leaseExpiresAt == Some(now + leaseSeconds as real)
    && r'.leaseOwner == r.leaseOwner && r'.leaseToken == r.leaseToken
    && r'.status == r.status && r'.attemptCount == r.attemptCount
    && r'.nextRetryAt == r.nextRetryAt && r'.finishedAt == r.finishedAt
    && SameRequest(r, r') && SameProgress(r, r') && SameErrors(r, r')
    && SameRows(j, j') && j'.audit == j.audit
  }

  /** The row of step `i` is inserted, or runs again with its output kept and its error cleared. */
  predicate StartColumns(j: Job, j': Job, i: nat, name: string, kind: string) {
    && OtherStepRowsSame(j, j', i)
    && j'.row == j.row && j'.failures == j.failures && j'.audit == j.audit
    && var s' := j'.steps[i];
       && s'.status.StepRunning? && s'.error.None?
       && (if i in j.steps
           then && s'.name == j.steps[i].name && s'.kind == j.steps[i].kind && s'.output == j.steps[i].output
                && s'.attemptCount == j.steps[i].attemptCount + 1
           else s'.name == name && s'.kind == kind && s'.output.None? && s'.attemptCount == 1)
  }

  /** `{**before, **added}` */
  predicate Merges(before: Object, added: Object, after: Object) {
    && after.Keys == before.Keys + added.Keys
    && forall k | k in after :: after[k] == if k in added then added[k] else before[k]
  }

  predicate SuccessColumns(j: Job, j': Job, i: nat, output: Object) {
    var r, r' := j.row, j'.row;
    && r'.currentStep == i + 1
    && r'.output.Some? && Merges(if r.output.Some? then r.output.value else map[], output, r'.output.value)
    && r'.status == r.status && r'.attemptCount == r.attemptCount && r'.startedAt == r.startedAt
    && r'.nextRetryAt == r.nextRetryAt && r'.finishedAt == r.finishedAt
    && SameRequest(r, r') && SameLease(r, r') && SameErrors(r, r')
    && j'.failures == j.failures && Logs(j, j', StepSucceededEvent(i))
    && i in j.steps && OtherStepRowsSame(j, j', i)
    && var s, s' := j.steps[i], j'.steps[i];
       && s'.status.StepSucceeded? && s'.output == Some(output) && s'.error == s.error
       && s'.name == s.name && s'.kind == s.kind && s'.attemptCount == s.attemptCount
  }

  predicate CompletionColumns(j: Job, j': Job, now: Time) {
    var r, r' := j.row, j'.row;
    && r'.status.Succeeded? && r'.finishedAt == Some(now)
    && NoLease(r') && r'.lastErrorCode.None? && r'.lastErrorMessage.None?
    && r'.attemptCount == r.attemptCount && r'.nextRetryAt == r.nextRetryAt
    && SameRequest(r, r') && SameProgress(r, r')
    && SameRows(j, j') && Logs(j, j', ExecutionSucceeded(r.attemptCount))
  }

  predicate AppendsFailure(j: Job, j': Job, step: nat, transient: bool, code: string, message: string) {
    && |j'.failures| == |j.failures| + 1 && j.failures <= j'.failures
    && var f := j'.failures[|j.failures|];
       f.step == step && f.transient == transient && f.code == code && f.message == message
  }

  /** Retried after `delay` exactly when the failure is transient and attempts are left. */
  predicate FailureColumns(j: Job, j': Job, i: nat, code: string, message: string, transient: bool,
                           markStep: bool, delay: real, now: Time)
  {
    var r, r' := j.row, j'.row;
    && (if transient && r.attemptCount < r.workflow.maxAttempts
        then && r'.status.RetryScheduled? && r'.nextRetryAt == Some(now + delay) && r'.finishedAt == r.finishedAt
             && Logs(j, j', ExecutionRetryScheduled(r.attemptCount))
        else && r'.status.DeadLetter? && r'.finishedAt == Some(now) && r'.nextRetryAt == r.nextRetryAt
             && Logs(j, j', ExecutionDeadLettered(r.attemptCount)))
    && r'.lastErrorCode == Some(code) && r'.lastErrorMessage == Some(message)
    && NoLease(r') && r'.attemptCount == r.attemptCount && r'.startedAt == r.startedAt
    && r'.currentStep == i && r'.output == r.output && SameRequest(r, r')
    && AppendsFailure(j, j', i, transient, code, message)
    && (!markStep ==> j'.steps == j.steps)
    && (markStep ==>
          && i in j.steps && OtherStepRowsSame(j, j', i)
          && var s, s' := j.steps[i], j'.steps[i];
             && s'.status.StepFailed? && s'.error == Some(message)
             && s'.name == s.name && s'.kind == s.kind && s'.attemptCount == s.attemptCount && s'.output == s.output)
  }

  // ---- The scheduler -------------------------------------------------------

  /** Queued again while attempts are left, otherwise dead-lettered with a failure record. */
  predicate ReapColumns(j: Job, j': Job, now: Time) {
    var r, r' := j.row, j'.row;
    && (if r.attemptCount < r.workflow.maxAttempts
        then && r'.status.Queued? && r'.finishedAt.None? && j'.failures == j.failures
             && Logs(j, j', LeaseRequeued(r.attemptCount))
        else && r'.status.DeadLetter? && r'.finishedAt == Some(now)
             && AppendsFailure(j, j', r.currentStep, true, "worker_lease_expired",
                               "Worker lease expired before completion")
             && Logs(j, j', LeaseDeadLettered(r.attemptCount)))
    && r'.lastErrorCode == Some("worker_lease_expired")
    && r'.lastErrorMessage == Some("Worker lease expired before completion")
    && NoLease(r') && r'.attemptCount == r.attemptCount && r'.nextRetryAt == r.nextRetryAt
    && SameRequest(r, r') && SameProgress(r, r') && j'.steps == j.steps
  }

  predicate RequeueColumns(j: Job, j': Job) {
    var r, r' := j.row, j'.row;
    && r'.status.Queued? && r'.nextRetryAt.None?
    && r'.attemptCount == r.attemptCount && r'.finishedAt == r.finishedAt
    && SameRequest(r, r') && SameProgress(r, r') && SameLease(r, r') && SameErrors(r, r')
    && SameRows(j, j') && Logs(j, j', ExecutionRequeued(r.attemptCount))
  }

  // ---- The writes leave these columns --------------------------------------

  lemma RenewalLeaves(w: World, j: Job, now: Time)
    ensures RenewalColumns(j, WriteRenewal(w, j, now), now, w.leaseSeconds)
  {}

  lemma StartLeaves(j: Job, d: Definition, i: nat)
    requires i == j.row.currentStep
    ensures StartColumns(j, WriteStepStart(j, Load(j), d), i, d.name, d.kind)
  {}

  lemma SuccessLeaves(j: Job, output: Object)
    requires j.row.currentStep in j.steps
    ensures SuccessColumns(j, WriteStepSuccess(j, Load(j), output), j.row.currentStep, output)
  {}

  lemma FailureLeaves(j: Job, f: FailureRecord, markStep: bool, digest: Digest, now: Time)
    requires f.step == j.row.currentStep && (markStep ==> j.row.currentStep in j.steps)
    ensures FailureColumns(j, WriteFailure(j, Load(j), f, markStep, digest, now), j.row.currentStep, f.code, f.message,
                           f.transient, markStep,
                           RetryDelay(digest, j.row.attemptCount, j.row.workflow.retryBaseSeconds), now)
  {}

  lemma ReapLeaves(j: Job, now: Time)
    ensures ReapColumns(j, WriteReap(j, j.row.attemptCount, j.row.currentStep, now), now)
  {}
}
