/** Accepting a request (app/services/execution_requests.py): look up, insert, and recover
    from losing the race for the unique key. */
module ExecutionRequests {
  import opened Json
  import opened Models
  import opened Columns
  import opened Lifecycle
  import opened Protocol
  import opened Requests
  import opened Stores

  /** The insert: a new execution with its outbox row and its audit event, or nothing. */
  method TryInsert(store: Store, workflow: Workflow, trigger: Trigger, key: Key, input: Object,
                   ghost c: nat, ghost before: System)
    returns (created: Option<nat>)
    requires store.From(before) && c < |store.callers| && !trigger.Schedule?
    requires store.callers[c] == Caller(workflow, trigger, key, input, Missed)
    modifies store
    ensures store.From(before) && c < |store.callers| && store.clock == old(store.clock)
    ensures created.Some? <==> FindKey(old(store.jobs), workflow, key).None?
    ensures created.Some? ==>
              && created.value == old(|store.jobs|)
              && store.jobs == old(store.jobs) + [NewJob(workflow, trigger, key, input)]
              && store.outbox == old(store.outbox) + [NewOutboxRow(created.value)]
              && CreationColumns(store.jobs[created.value], workflow, trigger, key, input, ExecutionRequested)
              && AddsOutboxRow(old(store.outbox), store.outbox, created.value)
    ensures created.None? ==>
              && store.jobs == old(store.jobs) && store.outbox == old(store.outbox)
              && store.callers[c] == Caller(workflow, trigger, key, input, Conflicted)
  {
    ghost var s := store.View();
    if FindKey(store.jobs, workflow, key).Some? {
      store.callers := store.callers[c := store.callers[c].(phase := Conflicted)];
      created := None;
    } else {
      var e := |store.jobs|;
      store.jobs := store.jobs + [NewJob(workflow, trigger, key, input)];
      store.outbox := store.outbox + [NewOutboxRow(e)];
      store.callers := store.callers[c := store.callers[c].(phase := Returned(e, false))];
      created := Some(e);
    }
    Took(store.world, before, s, Insert(c), store.View());
  }

  lemma ConflictResolves(w: World, origin: System, s: System, c: nat)
    requires Reachable(w, origin) && Reaches(w, origin, s)
    requires c < |s.callers| && s.callers[c].phase.Conflicted?
    ensures FindKey(s.jobs, s.callers[c].workflow, s.callers[c].key).Some?
  {
    InvNow(w, origin, s);
    RecoveryNeverRaises(w, s, c);
  }

  /** `request_execution`. The execution returned holds the caller's workflow and key; a call
      that reports no replay created it, with its own payload; and the branch that re-raises
      the duplicate-key error is dead. */
  method RequestExecution(store: Store, workflow: Workflow, trigger: Trigger, key: Key, input: Object)
    returns (e: nat, replayed: bool)
    requires Reachable(store.world, store.View()) && !trigger.Schedule?
    modifies store
    ensures store.From(old(store.View()))
    ensures e < |store.jobs|
    ensures store.jobs[e].row.workflow.id == workflow.id && store.jobs[e].row.key == key
    ensures !replayed ==>
              && e >= old(|store.jobs|) && store.jobs[e] == NewJob(workflow, trigger, key, input)
              && CreationColumns(store.jobs[e], workflow, trigger, key, input, ExecutionRequested)
    ensures store.alone ==>
              (replayed <==> exists f :: 0 <= f < |old(store.jobs)| && old(store.jobs)[f].row.workflow.id == workflow.id
                                         && old(store.jobs)[f].row.key == key)
    ensures store.alone && replayed ==> store.jobs == old(store.jobs) && store.outbox == old(store.outbox)
    ensures store.alone && !replayed ==>
              && store.jobs == old(store.jobs) + [NewJob(workflow, trigger, key, input)]
              && store.outbox == old(store.outbox) + [NewOutboxRow(e)]
              && AddsOutboxRow(old(store.outbox), store.outbox, e)
  {
    ghost var before, c := store.View(), |store.callers|;
    ReachesItself(store.world, before);
    var existing := FindKey(store.jobs, workflow, key);
    store.callers := store.callers
      + [Caller(workflow, trigger, key, input, if existing.Some? then Returned(existing.value, true) else Missed)];
    Took(store.world, before, before, LookUp(workflow, trigger, key, input), store.View());
    if existing.Some? {
      return existing.value, true;
    }
    ghost var s := store.View();
    store.Others(CallerOf(c));
    OthersTook(store.world, before, s, store.View());
    var created := TryInsert(store, workflow, trigger, key, input, c, before);
    if created.Some? {
      return created.value, false;
    }
    s := store.View();
    store.Others(CallerOf(c));
    OthersTook(store.world, before, s, store.View());
    s := store.View();
    ConflictResolves(store.world, before, s, c);
    var replay := FindKey(store.jobs, workflow, key);
    store.callers := store.callers[c := store.callers[c].(phase := Returned(replay.value, true))];
    Took(store.world, before, s, Recover(c), store.View());
    return replay.value, true;
  }
}
