/** The operator routes (app/api/routes/executions.py), each one atomic read-check-write. */
module Operators {
  import opened Json
  import opened Models
  import opened Columns
  import opened Protocol
  import opened Stores

  /** 202, 409 or 404. */
  datatype Response = Accepted | Conflict | NotFound

  /** `retry_dead_letter_execution`: a fresh attempt budget, the progress kept. */
  method RetryDeadLetterExecution(store: Store, e: nat) returns (r: Response)
    requires Reachable(store.world, store.View())
    modifies store
    ensures store.From(old(store.View()))
    ensures r.NotFound? <==> e >= old(|store.jobs|)
    ensures r.Accepted? <==> e < old(|store.jobs|) && old(store.jobs)[e].row.status.DeadLetter?
    ensures !r.Accepted? ==> store.View() == old(store.View())
    ensures |store.jobs| == old(|store.jobs|)
    ensures r.Accepted? ==>
              var j, j' := old(store.jobs)[e], store.jobs[e];
              && store.jobs == old(store.jobs)[e := j']
              && j'.row == j.row.(status := Queued, attemptCount := 0, finishedAt := None, nextRetryAt := None,
                                  lastErrorCode := None, lastErrorMessage := None)
              && j'.steps == j.steps && j'.failures == j.failures
              && j'.audit == j.audit + [ManualRetryRequested(j.row.attemptCount)]
              && store.outbox == old(store.outbox) + [NewOutboxRow(e)]
              && AddsOutboxRow(old(store.outbox), store.outbox, e)
  {
    ghost var before := store.View();
    ReachesItself(store.world, before);
    if e >= |store.jobs| {
      return NotFound;
    }
    var j := store.jobs[e];
    if !j.row.status.DeadLetter? {
      return Conflict;
    }
    var prior := j.row.attemptCount;
    var row := j.row.(status := Queued, attemptCount := 0, finishedAt := None, nextRetryAt := None,
                      lastErrorCode := None, lastErrorMessage := None);
    store.jobs := store.jobs[e := j.(row := row, audit := j.audit + [ManualRetryRequested(prior)],
                                     dispatches := j.dispatches + 1)];
    store.outbox := store.outbox + [NewOutboxRow(e)];
    Took(store.world, before, before, RetryManually(e), store.View());
    r := Accepted;
  }

  /** `cancel_execution`: only what no worker holds can be cancelled, and for good. */
  method CancelExecutionRoute(store: Store, e: nat) returns (r: Response)
    requires Reachable(store.world, store.View())
    modifies store
    ensures store.From(old(store.View()))
    ensures r.NotFound? <==> e >= old(|store.jobs|)
    ensures r.Accepted? <==>
              e < old(|store.jobs|)
              && (old(store.jobs)[e].row.status.Queued? || old(store.jobs)[e].row.status.RetryScheduled?)
    ensures !r.Accepted? ==> store.View() == old(store.View())
    ensures |store.jobs| == old(|store.jobs|)
    ensures r.Accepted? ==>
              var j, j' := old(store.jobs)[e], store.jobs[e];
              && store.jobs == old(store.jobs)[e := j']
              && j'.row == j.row.(status := Cancelled, nextRetryAt := None, finishedAt := Some(store.clock))
              && j'.steps == j.steps && j'.failures == j.failures
              && j'.audit == j.audit + [ExecutionCancelled(j.row.attemptCount)]
              && store.outbox == old(store.outbox)
  {
    ghost var before := store.View();
    ReachesItself(store.world, before);
    if e >= |store.jobs| {
      return NotFound;
    }
    var j := store.jobs[e];
    if !j.row.status.Queued? && !j.row.status.RetryScheduled? {
      return Conflict;
    }
    store.jobs := store.jobs[e := j.(
      row := j.row.(status := Cancelled, nextRetryAt := None, finishedAt := Some(store.clock)),
      audit := j.audit + [ExecutionCancelled(j.row.attemptCount)])];
    Took(store.world, before, before, CancelExecution(e), store.View());
    r := Accepted;
  }
}
