/** The platform as a transition system: request callers, any number of workers and
    schedulers, operators, the database and the queue. Every commit is one action. */
module Protocol {
  import opened Json
  import opened Steps
  import opened Backoff
  import opened Models
  import opened Lifecycle

  // ---- State ---------------------------------------------------------------

  /** `sends` is a history variable: how often the row's id was pushed to the queue. */
  datatype OutboxRow = OutboxRow(
    exec: nat, attemptCount: nat, lastError: Option<string>, publishedAt: Option<Time>, sends: nat)

  /** Where a worker stands with the delivery it popped. The phases with a deadline lie
      between a successful renewal and the commit that relies on it. */
  datatype Phase =
    | Popped
    | Claimed
    | AtStep
    | Starting(deadline: Time)
    | Executing
    | Finishing(outcome: Outcome, deadline: Time)
    | Completing(deadline: Time)
    | Stopped
    | Dropped

  /** One delivery in the hands of one `ExecutionService`; its position is the lease token. */
  datatype Worker = Worker(exec: nat, phase: Phase, local: Snapshot)

  /** What a reaper read before its conditional update, and its `now`. */
  datatype Sighting = Sighting(exec: nat, token: nat, attempts: nat, step: nat, at: Time)

  datatype CallerPhase = Missed | Conflicted | Returned(exec: nat, replayed: bool)

  /** One call of `request_execution`. */
  datatype Caller = Caller(workflow: Workflow, trigger: Trigger, key: Key, input: Object, phase: CallerPhase)

  /** `startsAt` and `runs` are history variables: the first due time and the executions created so far. */
  datatype ScheduleRow = ScheduleRow(
    workflow: Workflow, interval: Positive, enabled: bool, nextRunAt: Time, lastRunAt: Option<Time>,
    startsAt: Time, runs: seq<nat>)

  datatype System = System(
    clock: Time,
    jobs: seq<Job>,
    outbox: seq<OutboxRow>,
    queue: seq<nat>,
    schedules: seq<ScheduleRow>,
    workers: seq<Worker>,
    sightings: seq<Sighting>,
    callers: seq<Caller>)

  const EMPTY_SNAPSHOT := Snapshot(0, 0, map[], map[])

  function NewOutboxRow(e: nat): OutboxRow {
    OutboxRow(e, 0, None, None, 0)
  }

  /** The unique key (workflow_id, idempotency_key). */
  predicate HasKey(j: Job, workflow: Workflow, key: Key) {
    j.row.workflow.id == workflow.id && j.row.key == key
  }

  function FindKey(jobs: seq<Job>, workflow: Workflow, key: Key): (found: Option<nat>)
    ensures found.Some? ==> found.value < |jobs| && HasKey(jobs[found.value], workflow, key)
    ensures found.None? ==> forall e | 0 <= e < |jobs| :: !HasKey(jobs[e], workflow, key)
  {
    if jobs == [] then None
    else if HasKey(jobs[|jobs| - 1], workflow, key) then Some(|jobs| - 1)
    else FindKey(jobs[..|jobs| - 1], workflow, key)
  }

  // ---- The worker ----------------------------------------------------------

  /** What one `ExecutionService` does with its delivery, commit by commit. */
  datatype Work =
    | Begin(owner: string)
    | LoadRow
    | RenewAtStep
    | Start
    | RejectDefinition(digest: Digest)
    | RenewAfterRun(result: Outcome)
    | CommitSuccess
    | CommitFailure(digest: Digest)
    | CommitCompletion
    | Crash
    | Drop

  const INVALID_DEFINITION := "invalid_definition"
  const INVALID_DEFINITION_MESSAGE := "Persisted workflow step is invalid"

  /** The condition of a renewal: the row is still running under this token. */
  predicate Owns(j: Job, t: nat) {
    j.row.status.Running? && j.row.leaseToken == Some(t)
  }

  predicate AtDefinition(j: Job, wk: Worker) {
    wk.local.index < |j.row.workflow.steps|
  }

  function CurrentDefinition(j: Job, wk: Worker): Option<Definition>
    requires AtDefinition(j, wk)
  {
    Parse(j.row.workflow.steps[wk.local.index])
  }

  /** The only success the runner may report to this worker now. */
  predicate MayReturn(w: World, j: Job, wk: Worker, o: Outcome)
    requires AtDefinition(j, wk)
  {
    o.Success? ==>
      && CurrentDefinition(j, wk).Some?
      && var d := CurrentDefinition(j, wk).value;
         w.run(d.kind, d.config, j.row.input, wk.local.output) == Some(o.output)
  }

  /** Whether the worker's code gets to this piece of work. Its commits are writes by
      primary key: nothing in them looks at the lease again. */
  predicate CanWork(w: World, j: Job, wk: Worker, x: Work) {
    match x
    case Begin(_) => wk.phase.Popped?
    case LoadRow => wk.phase.Claimed?
    case RenewAtStep => wk.phase.AtStep?
    case Start => wk.phase.Starting? && AtDefinition(j, wk) && CurrentDefinition(j, wk).Some?
    case RejectDefinition(_) => wk.phase.Starting? && AtDefinition(j, wk) && CurrentDefinition(j, wk).None?
    case RenewAfterRun(result) => wk.phase.Executing? && AtDefinition(j, wk) && MayReturn(w, j, wk, result)
    case CommitSuccess => wk.phase.Finishing? && wk.phase.outcome.Success? && wk.local.index in wk.local.steps
    case CommitFailure(_) => wk.phase.Finishing? && wk.phase.outcome.Raised? && wk.local.index in wk.local.steps
    case CommitCompletion => wk.phase.Completing?
    case Crash => !wk.phase.Popped? && !wk.phase.Dropped?
    case Drop => wk.phase.Popped?
  }

  predicate Pending(p: Phase) {
    p.Starting? || p.Finishing? || p.Completing?
  }

  /** A commit by primary key, which trusts an earlier renewal. */
  predicate IsCommit(x: Work) {
    x.Start? || x.RejectDefinition? || x.CommitSuccess? || x.CommitFailure? || x.CommitCompletion?
  }

  /** The timing assumption of the protocol: a commit follows its renewal by less than
      `lease_seconds`. Running the step itself, before that renewal, may take any time. */
  predicate InTime(clock: Time, wk: Worker, x: Work) {
    IsCommit(x) && Pending(wk.phase) ==> clock < wk.phase.deadline
  }

  /** What the work writes to the execution; renewals and claims are conditional updates. */
  function WorkOnJob(w: World, clock: Time, j: Job, t: nat, wk: Worker, x: Work): Job
    requires CanWork(w, j, wk, x)
  {
    var v := wk.local;
    match x
    case Begin(owner) => if j.row.status.Queued? then WriteClaim(w, j, t, owner, clock) else j
    case LoadRow => j
    case RenewAtStep => if Owns(j, t) then WriteRenewal(w, j, clock) else j
    case Start => WriteStepStart(j, v, CurrentDefinition(j, wk).value)
    case RejectDefinition(digest) =>
      var failure := FailureRecord(v.index, false, INVALID_DEFINITION, INVALID_DEFINITION_MESSAGE);
      WriteFailure(j, v, failure, false, digest, clock)
    case RenewAfterRun(_) => if Owns(j, t) then WriteRenewal(w, j, clock) else j
    case CommitSuccess => WriteStepSuccess(j, v, wk.phase.outcome.output)
    case CommitFailure(digest) =>
      var o := wk.phase.outcome;
      WriteFailure(j, v, FailureRecord(v.index, o.transient, o.code, o.message), true, digest, clock)
    case CommitCompletion => WriteSuccess(j, v, clock)
    case Crash => j
    case Drop => j
  }

  /** How the worker moves on; one that lost its lease stops. */
  function WorkOnSelf(w: World, clock: Time, j: Job, t: nat, wk: Worker, x: Work): Worker
    requires CanWork(w, j, wk, x)
  {
    var v := wk.local;
    var deadline := clock + w.leaseSeconds as real;
    match x
    case Begin(_) => wk.(phase := if j.row.status.Queued? then Claimed else Stopped)
    case LoadRow => wk.(phase := AtStep, local := Load(j))
    case RenewAtStep =>
      wk.(phase := if !Owns(j, t) then Stopped
                   else if AtDefinition(j, wk) then Starting(deadline)
                   else Completing(deadline))
    case Start =>
      wk.(phase := Executing, local := v.(steps := v.steps[v.index := StartedRow(v, CurrentDefinition(j, wk).value)]))
    case RejectDefinition(_) => wk.(phase := Stopped)
    case RenewAfterRun(result) => wk.(phase := if Owns(j, t) then Finishing(result, deadline) else Stopped)
    case CommitSuccess =>
      var output := wk.phase.outcome.output;
      var row := v.steps[v.index].(status := StepSucceeded, output := Some(output));
      wk.(phase := AtStep, local := Snapshot(v.attempts, v.index + 1, v.output + output, v.steps[v.index := row]))
    case CommitFailure(_) => wk.(phase := Stopped)
    case CommitCompletion => wk.(phase := Stopped)
    case Crash => wk.(phase := Stopped)
    case Drop => wk.(phase := Dropped)
  }

  // ---- Actions -------------------------------------------------------------

  datatype Action =
    | AdvanceClock(to: Time)
    // request_execution: lookup, insert, and the lookup after a duplicate-key rollback
    | LookUp(workflow: Workflow, trigger: Trigger, key: Key, input: Object)
    | Insert(c: nat)
    | Recover(c: nat)
    // schedules
    | AddSchedule(workflow: Workflow, interval: Positive, startsAt: Time)
    | Tick(schedule: nat)
    // publish_dispatch_outbox: push, then mark, or record the push's error
    | Push(i: nat)
    | Mark(i: nat, attemptCount: nat)
    | RecordError(i: nat, attemptCount: nat, error: string)
    // the worker
    | Pop
    | Works(t: nat, work: Work)
    // the reaper: read, then conditional update
    | Sight(e: nat, at: Time)
    | ReapSighted(k: nat)
    | RequeueDue(e: nat)
    // operators
    | RetryManually(e: nat)
    | CancelExecution(e: nat)

  /** The worker exists and refers to an execution. */
  predicate At(s: System, t: nat) {
    t < |s.workers| && s.workers[t].exec < |s.jobs|
  }

  function JobOf(s: System, t: nat): Job
    requires At(s, t)
  {
    s.jobs[s.workers[t].exec]
  }

  /** The conditional update of the reaper matches. */
  predicate ReapMatches(r: Execution, g: Sighting) {
    r.status.Running? && r.leaseToken == Some(g.token) && r.leaseExpiresAt.Some? && r.leaseExpiresAt.value <= g.at
  }

  predicate TickDue(s: System, i: nat) {
    i < |s.schedules| && s.schedules[i].enabled && s.schedules[i].nextRunAt <= s.clock
  }

  predicate RetryDue(r: Execution, now: Time) {
    r.status.RetryScheduled? && r.nextRetryAt.Some? && r.nextRetryAt.value <= now
  }

  predicate Can(w: World, s: System, a: Action) {
    match a
    case AdvanceClock(to) => s.clock <= to
    case LookUp(_, trigger, _, _) => !trigger.Schedule?
    case Insert(c) => c < |s.callers| && s.callers[c].phase.Missed?
    case Recover(c) =>
      && c < |s.callers| && s.callers[c].phase.Conflicted?
      && FindKey(s.jobs, s.callers[c].workflow, s.callers[c].key).Some?
    case AddSchedule(_, _, _) => true
    case Tick(i) =>
      TickDue(s, i) && FindKey(s.jobs, s.schedules[i].workflow, ForTick(i, s.schedules[i].nextRunAt)).None?
    case Push(i) => i < |s.outbox|
    case Mark(i, _) => i < |s.outbox| && s.outbox[i].sends > 0
    case RecordError(i, _, _) => i < |s.outbox|
    case Pop => s.queue != []
    case Works(t, x) =>
      At(s, t) && CanWork(w, JobOf(s, t), s.workers[t], x) && InTime(s.clock, s.workers[t], x)
    case Sight(e, at) => e < |s.jobs| && s.jobs[e].row.leaseToken.Some? && at <= s.clock
    case ReapSighted(k) =>
      && k < |s.sightings| && s.sightings[k].exec < |s.jobs|
      && ReapMatches(s.jobs[s.sightings[k].exec].row, s.sightings[k])
    case RequeueDue(e) => e < |s.jobs| && RetryDue(s.jobs[e].row, s.clock)
    case RetryManually(e) => e < |s.jobs| && s.jobs[e].row.status.DeadLetter?
    case CancelExecution(e) =>
      e < |s.jobs| && (s.jobs[e].row.status.Queued? || s.jobs[e].row.status.RetryScheduled?)
  }

  /** The new state of a job, with an outbox row in the same transaction. */
  function Dispatch(s: System, e: nat, j: Job): System
    requires e < |s.jobs|
  {
    s.(jobs := s.jobs[e := j], outbox := s.outbox + [NewOutboxRow(e)])
  }

  /** A new execution with its outbox row and its request event. */
  function Create(s: System, workflow: Workflow, trigger: Trigger, key: Key, input: Object): System {
    s.(jobs := s.jobs + [NewJob(workflow, trigger, key, input)],
       outbox := s.outbox + [NewOutboxRow(|s.jobs|)])
  }

  /** The input of a scheduled execution: its schedule and its due time. */
  function TickPayload(schedule: nat, dueAt: Time): Object {
    map["schedule_id" := Num(schedule as real), "scheduled_for" := Num(dueAt)]
  }

  function Do(w: World, s: System, a: Action): System
    requires Can(w, s, a)
  {
    match a
    case AdvanceClock(to) => s.(clock := to)
    case LookUp(workflow, trigger, key, input) =>
      var found := FindKey(s.jobs, workflow, key);
      var phase := if found.Some? then Returned(found.value, true) else Missed;
      s.(callers := s.callers + [Caller(workflow, trigger, key, input, phase)])
    case Insert(c) =>
      var call := s.callers[c];
      if FindKey(s.jobs, call.workflow, call.key).Some?
      then s.(callers := s.callers[c := call.(phase := Conflicted)])
      else Create(s, call.workflow, call.trigger, call.key, call.input)
           .(callers := s.callers[c := call.(phase := Returned(|s.jobs|, false))])
    case Recover(c) =>
      var call := s.callers[c];
      s.(callers := s.callers[c := call.(phase := Returned(FindKey(s.jobs, call.workflow, call.key).value, true))])
    case AddSchedule(workflow, interval, startsAt) =>
      s.(schedules := s.schedules + [ScheduleRow(workflow, interval, true, startsAt, None, startsAt, [])])
    case Tick(i) =>
      var r := s.schedules[i];
      Create(s, r.workflow, Schedule, ForTick(i, r.nextRunAt), TickPayload(i, r.nextRunAt))
      .(schedules := s.schedules[i := r.(lastRunAt := Some(r.nextRunAt),
                                         nextRunAt := r.nextRunAt + r.interval as real,
                                         runs := r.runs + [|s.jobs|])])
    case Push(i) =>
      s.(queue := s.queue + [s.outbox[i].exec], outbox := s.outbox[i := s.outbox[i].(sends := s.outbox[i].sends + 1)])
    case Mark(i, n) =>
      s.(outbox := s.outbox[i := s.outbox[i].(attemptCount := n, lastError := None, publishedAt := Some(s.clock))])
    case RecordError(i, n, error) =>
      s.(outbox := s.outbox[i := s.outbox[i].(attemptCount := n, lastError := Some(error))])
    case Pop => s.(queue := s.queue[1..], workers := s.workers + [Worker(s.queue[0], Popped, EMPTY_SNAPSHOT)])
    case Works(t, x) =>
      var j, wk := JobOf(s, t), s.workers[t];
      s.(jobs := s.jobs[wk.exec := WorkOnJob(w, s.clock, j, t, wk, x)],
         workers := s.workers[t := WorkOnSelf(w, s.clock, j, t, wk, x)])
    case Sight(e, at) =>
      var r := s.jobs[e].row;
      s.(sightings := s.sightings + [Sighting(e, r.leaseToken.value, r.attemptCount, r.currentStep, at)])
    case ReapSighted(k) =>
      var g := s.sightings[k];
      var j := WriteReap(s.jobs[g.exec], g.attempts, g.step, g.at);
      if ReapRequeues(s.jobs[g.exec], g.attempts) then Dispatch(s, g.exec, j) else s.(jobs := s.jobs[g.exec := j])
    case RequeueDue(e) => Dispatch(s, e, WriteRequeue(s.jobs[e]))
    case RetryManually(e) => Dispatch(s, e, WriteManualRetry(s.jobs[e]))
    case CancelExecution(e) => s.(jobs := s.jobs[e := WriteCancel(s.jobs[e], s.clock)])
  }

  // ---- Runs ----------------------------------------------------------------

  ghost predicate Initial(s: System) {
    s.jobs == [] && s.outbox == [] && s.queue == [] && s.schedules == []
    && s.workers == [] && s.sightings == [] && s.callers == []
  }

  ghost predicate Run(w: World, s: System, acts: seq<Action>, s': System)
    decreases |acts|
  {
    if acts == [] then s == s' else Can(w, s, acts[0]) && Run(w, Do(w, s, acts[0]), acts[1..], s')
  }

  ghost predicate Reaches(w: World, s: System, s': System) {
    exists acts :: Run(w, s, acts, s')
  }

  ghost predicate Reachable(w: World, s: System) {
    exists s0 :: Initial(s0) && Reaches(w, s0, s)
  }

  lemma ReachesItself(w: World, s: System)
    ensures Reaches(w, s, s)
  {
    assert Run(w, s, [], s);
  }

  lemma {:induction false} RunThen(w: World, s: System, acts: seq<Action>, m: System, a: Action)
    requires Run(w, s, acts, m) && Can(w, m, a)
    ensures Run(w, s, acts + [a], Do(w, m, a))
    decreases |acts|
  {
    if acts == [] {
      assert [a][1..] == [];
      assert Run(w, Do(w, m, a), [], Do(w, m, a));
    } else {
      RunThen(w, Do(w, s, acts[0]), acts[1..], m, a);
      assert (acts + [a])[1..] == acts[1..] + [a];
    }
  }

  lemma ReachesThen(w: World, s: System, m: System, a: Action)
    requires Reaches(w, s, m) && Can(w, m, a)
    ensures Reaches(w, s, Do(w, m, a))
  {
    var acts :| Run(w, s, acts, m);
    RunThen(w, s, acts, m, a);
  }

  lemma {:induction false} RunsCompose(w: World, s: System, acts: seq<Action>, m: System, more: seq<Action>, s': System)
    requires Run(w, s, acts, m) && Run(w, m, more, s')
    ensures Run(w, s, acts + more, s')
    decreases |acts|
  {
    if acts == [] {
      assert acts + more == more;
    } else {
      RunsCompose(w, Do(w, s, acts[0]), acts[1..], m, more, s');
      assert (acts + more)[1..] == acts[1..] + more;
    }
  }

  lemma ReachesCompose(w: World, s: System, m: System, s': System)
    requires Reaches(w, s, m) && Reaches(w, m, s')
    ensures Reaches(w, s, s')
  {
    var acts :| Run(w, s, acts, m);
    var more :| Run(w, m, more, s');
    RunsCompose(w, s, acts, m, more, s');
  }

  // ---- A first run ---------------------------------------------------------

  lemma RequestArrives(w: World, s0: System, workflow: Workflow, key: Key) returns (s: System)
    requires Initial(s0)
    ensures Reaches(w, s0, s) && s.jobs == [NewJob(workflow, Manual, key, map[])]
    ensures s.outbox == [NewOutboxRow(0)] && s.queue == [] && s.workers == []
  {
    ReachesItself(w, s0);
    var lookUp := LookUp(workflow, Manual, key, map[]);
    ReachesThen(w, s0, s0, lookUp);
    s := Do(w, s0, lookUp);
    ReachesThen(w, s0, s, Insert(0));
    s := Do(w, s, Insert(0));
  }

  lemma RequestIsPublished(w: World, s0: System, s1: System) returns (s: System)
    requires Reaches(w, s0, s1) && |s1.jobs| == 1 && s1.outbox == [NewOutboxRow(0)] && s1.queue == []
    ensures Reaches(w, s0, s) && s.jobs == s1.jobs && s.workers == s1.workers
    ensures s.outbox == [OutboxRow(0, 1, None, Some(s1.clock), 1)] && s.queue == [0]
  {
    ReachesThen(w, s0, s1, Push(0));
    s := Do(w, s1, Push(0));
    ReachesThen(w, s0, s, Mark(0, 1));
    s := Do(w, s, Mark(0, 1));
  }

  lemma FirstDelivery(w: World, s0: System, workflow: Workflow, key: Key) returns (s: System)
    requires Initial(s0)
    ensures Reaches(w, s0, s) && s.jobs == [NewJob(workflow, Manual, key, map[])] && s.queue == []
    ensures |s.outbox| == 1 && s.outbox[0].publishedAt.Some? && s.workers == [Worker(0, Popped, EMPTY_SNAPSHOT)]
  {
    s := RequestArrives(w, s0, workflow, key);
    s := RequestIsPublished(w, s0, s);
    ReachesThen(w, s0, s, Pop);
    s := Do(w, s, Pop);
  }
}
