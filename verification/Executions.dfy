/** The worker side (app/services/executions.py): one `ExecutionService` per delivery, run
    against the shared store with every other process free to act between its commits. */
module Executions {
  import opened Json
  import opened Steps
  import opened Backoff
  import opened Models
  import opened Columns
  import opened Lifecycle
  import opened Protocol
  import opened Fencing
  import opened Stores

  /** A runner that may raise at will, unless it is steady. */
  class StepRunner {
    const run: Runner
    const steady: bool

    constructor (run: Runner, steady: bool)
      ensures this.run == run && this.steady == steady
    {
      this.run, this.steady := run, steady;
    }

    method Run(d: Definition, input: Object, accumulated: Object) returns (o: Outcome)
      ensures o.Success? ==> run(d.kind, d.config, input, accumulated) == Some(o.output)
      ensures steady && run(d.kind, d.config, input, accumulated).Some? ==> o.Success?
    {
      var result := run(d.kind, d.config, input, accumulated);
      var raises: bool := *;
      if result.Some? && (steady || !raises) {
        o := Success(result.value);
      } else {
        var code: string, message: string, transient: bool := *, *, *;
        o := Raised(code, message, transient);
      }
    }
  }

  class ExecutionService {
    const store: Store
    const runner: StepRunner
    const hash: (nat, nat) -> Digest
    const workerId: string
    /** The lease token, fresh for this delivery. */
    const token: nat

    constructor (store: Store, runner: StepRunner, hash: (nat, nat) -> Digest, workerId: string, token: nat)
      ensures this.store == store && this.runner == runner && this.token == token
      ensures this.hash == hash && this.workerId == workerId
    {
      this.store, this.runner, this.hash, this.workerId, this.token := store, runner, hash, workerId, token;
    }

    /** This service is at phase `p` of the delivery of `id`, with `v` loaded. */
    ghost predicate IsAt(id: nat, p: Phase, v: Snapshot)
      reads store
    {
      id < |store.jobs| && token < |store.workers| && store.workers[token] == Worker(id, p, v)
    }

    /** The execution of `id` still asks for what it asked for at `origin`. */
    ghost predicate SameRequest(id: nat, origin: System)
      reads store
    {
      && id < |origin.jobs| && id < |store.jobs|
      && store.jobs[id].row.workflow == origin.jobs[id].row.workflow
      && store.jobs[id].row.input == origin.jobs[id].row.input
    }

    /** What holds between commits: a run of the protocol led here from `origin`. */
    ghost predicate OnTrack(id: nat, p: Phase, v: Snapshot, origin: System)
      reads store
    {
      store.From(origin) && IsAt(id, p, v) && SameRequest(id, origin)
    }

    /** The store moved from `s` by exactly this piece of the worker's work. */
    ghost predicate Did(s: System, x: Work)
      reads store
    {
      Can(store.world, s, Works(token, x)) && store.View() == Do(store.world, s, Works(token, x))
    }

    // ---- Between commits ---------------------------------------------------

    method Yield(id: nat, ghost p: Phase, ghost v: Snapshot, ghost origin: System)
      requires OnTrack(id, p, v, origin)
      modifies store
      ensures OnTrack(id, p, v, origin)
      ensures store.alone ==> store.jobs[id] == old(store.jobs[id])
    {
      ghost var s := store.View();
      store.Others(WorkerOf(token));
      OthersTook(store.world, origin, s, store.View());
    }

    method YieldBefore(id: nat, ghost p: Phase, ghost v: Snapshot, ghost origin: System)
      requires OnTrack(id, p, v, origin) && Pending(p) && store.clock < p.deadline
      modifies store
      ensures OnTrack(id, p, v, origin) && store.clock < p.deadline
      ensures store.alone ==> store.jobs[id] == old(store.jobs[id])
    {
      ghost var s := store.View();
      store.OthersBefore(WorkerOf(token), p.deadline);
      OthersTook(store.world, origin, s, store.View());
    }

    /** A commit in time lands on exactly what its worker loaded. */
    lemma CommitsOnStored(id: nat, p: Phase, v: Snapshot, origin: System)
      requires OnTrack(id, p, v, origin) && Pending(p) && store.clock < p.deadline
      ensures Owns(store.jobs[id], token) && v == Load(store.jobs[id])
    {
      InvNow(store.world, origin, store.View());
      assert WorkerFits(store.world, store.View(), token);
      JobFacts(store.world, store.View(), id);
    }

    // ---- One commit each ---------------------------------------------------

    /** The conditional update that opens `run`. */
    method Claim(id: nat, ghost v: Snapshot, ghost origin: System) returns (claimed: bool)
      requires OnTrack(id, Popped, v, origin)
      modifies store
      ensures OnTrack(id, if claimed then Claimed else Stopped, v, origin)
      ensures Did(old(store.View()), Begin(workerId))
      ensures claimed == old(store.jobs[id]).row.status.Queued?
      ensures claimed ==> Owns(store.jobs[id], token)
      ensures claimed ==>
                && ClaimColumns(old(store.jobs[id]), store.jobs[id], workerId, token,
                                old(store.clock), store.world.leaseSeconds)
                && store.jobs == old(store.jobs)[id := store.jobs[id]]
      ensures !claimed ==> store.jobs == old(store.jobs)
    {
      ghost var before := store.View();
      var now := store.clock;
      var j := store.jobs[id];
      claimed := j.row.status.Queued?;
      if claimed {
        store.jobs := store.jobs[id := j.(
          row := j.row.(status := Running, startedAt := Some(now), attemptCount := j.row.attemptCount + 1,
                        nextRetryAt := None, leaseOwner := Some(workerId), leaseToken := Some(token),
                        heartbeatAt := Some(now), leaseExpiresAt := Some(now + store.world.leaseSeconds as real)),
          claims := j.claims + 1)];
      }
      assert store.jobs == before.jobs[id := store.jobs[id]];
      store.workers := store.workers[token := store.workers[token].(phase := if claimed then Claimed else Stopped)];
      Took(store.world, origin, before, Works(token, Begin(workerId)), store.View());
    }

    /** `_load`: what later writes are based on. */
    method LoadExecution(id: nat, ghost blank: Snapshot, ghost origin: System) returns (v: Snapshot)
      requires OnTrack(id, Claimed, blank, origin)
      modifies store
      ensures OnTrack(id, AtStep, v, origin) && store.jobs == old(store.jobs)
      ensures Did(old(store.View()), LoadRow) && v == Load(store.jobs[id])
      ensures var j := store.jobs[id];
              && v.attempts == j.row.attemptCount && v.index == j.row.currentStep && v.steps == j.steps
              && v.output == if j.row.output.Some? then j.row.output.value else map[]
    {
      ghost var before := store.View();
      var j := store.jobs[id];
      v := Snapshot(j.row.attemptCount, j.row.currentStep, OutputOf(j.row), j.steps);
      assert store.jobs == before.jobs[id := store.jobs[id]];
      store.workers := store.workers[token := store.workers[token].(phase := AtStep, local := v)];
      Took(store.world, origin, before, Works(token, LoadRow), store.View());
    }

    /** The phase that a successful renewal leads to. */
    ghost function Renewed(id: nat, v: Snapshot, x: Work): Phase
      reads store
      requires id < |store.jobs|
    {
      var deadline := store.clock + store.world.leaseSeconds as real;
      if x.RenewAfterRun? then Finishing(x.result, deadline)
      else if v.index < |store.jobs[id].row.workflow.steps| then Starting(deadline)
      else Completing(deadline)
    }

    /** `_renew_lease`: a conditional update on status and token. */
    method RenewLease(id: nat, ghost p: Phase, ghost v: Snapshot, ghost x: Work, ghost origin: System)
      returns (renewed: bool)
      requires OnTrack(id, p, v, origin)
      requires (x.RenewAtStep? || x.RenewAfterRun?) && CanWork(store.world, store.jobs[id], store.workers[token], x)
      modifies store
      ensures renewed == Owns(old(store.jobs[id]), token) && id < |store.jobs|
      ensures Did(old(store.View()), x)
      ensures OnTrack(id, if renewed then Renewed(id, v, x) else Stopped, v, origin)
      ensures store.clock == old(store.clock)
      ensures renewed ==> Owns(store.jobs[id], token)
      ensures store.jobs == old(store.jobs)[id := store.jobs[id]]
      ensures if renewed
              then RenewalColumns(old(store.jobs[id]), store.jobs[id], old(store.clock), store.world.leaseSeconds)
              else store.jobs[id] == old(store.jobs[id])
    {
      ghost var j := store.jobs[id];
      renewed := CommitRenewal(id, p, v, x, origin);
      RenewalLeaves(store.world, j, store.clock);
    }

    method CommitRenewal(id: nat, ghost p: Phase, ghost v: Snapshot, ghost x: Work, ghost origin: System)
      returns (renewed: bool)
      requires OnTrack(id, p, v, origin)
      requires (x.RenewAtStep? || x.RenewAfterRun?) && CanWork(store.world, store.jobs[id], store.workers[token], x)
      modifies store
      ensures renewed == Owns(old(store.jobs[id]), token) && id < |store.jobs|
      ensures Did(old(store.View()), x)
      ensures OnTrack(id, if renewed then Renewed(id, v, x) else Stopped, v, origin)
      ensures store.clock == old(store.clock)
      ensures renewed ==> Owns(store.jobs[id], token)
    {
      ghost var before := store.View();
      var now := store.clock;
      var j := store.jobs[id];
      renewed := j.row.status.Running? && j.row.leaseToken == Some(token);
      if renewed {
        store.jobs := store.jobs[id := j.(row := j.row.(
          heartbeatAt := Some(now), leaseExpiresAt := Some(now + store.world.leaseSeconds as real)))];
      }
      assert store.jobs == before.jobs[id := store.jobs[id]];
      store.workers := store.workers[token := store.workers[token].(
        phase := if renewed then Renewed(id, v, x) else Stopped)];
      Took(store.world, origin, before, Works(token, x), store.View());
    }

    /** The step row is inserted or marked running again. */
    method StartStep(id: nat, ghost p: Phase, v: Snapshot, d: Definition, ghost origin: System)
      returns (v': Snapshot)
      requires OnTrack(id, p, v, origin) && p.Starting? && store.clock < p.deadline
      requires v.index < |store.jobs[id].row.workflow.steps|
      requires Parse(store.jobs[id].row.workflow.steps[v.index]) == Some(d)
      modifies store
      ensures OnTrack(id, Executing, v', origin) && v' == v.(steps := v'.steps) && v.index in v'.steps
      ensures Did(old(store.View()), Start)
      ensures store.jobs == old(store.jobs)[id := WriteStepStart(old(store.jobs[id]), v, d)]
      ensures StartColumns(old(store.jobs[id]), store.jobs[id], v.index, d.name, d.kind)
    {
      CommitsOnStored(id, p, v, origin);
      ghost var before := store.View();
      var row;
      if v.index in v.steps {
        var earlier := v.steps[v.index];
        row := earlier.(status := StepRunning, attemptCount := earlier.attemptCount + 1, error := None);
      } else {
        row := StepRow(d.name, d.kind, StepRunning, 1, None, None);
      }
      v' := v.(steps := v.steps[v.index := row]);
      store.jobs := store.jobs[id := store.jobs[id].(steps := store.jobs[id].steps[v.index := row])];
      store.workers := store.workers[token := store.workers[token].(phase := Executing, local := v')];
      Took(store.world, origin, before, Works(token, Start), store.View());
      StartLeaves(before.jobs[id], d, v.index);
    }

    /** Step row, progress, merged output and audit event in one commit. */
    method FinishStep(id: nat, ghost p: Phase, v: Snapshot, output: Object, ghost origin: System)
      returns (v': Snapshot)
      requires OnTrack(id, p, v, origin) && p.Finishing? && store.clock < p.deadline
      requires p.outcome == Success(output) && v.index in v.steps
      modifies store
      ensures OnTrack(id, AtStep, v', origin) && v'.index == v.index + 1
      ensures Did(old(store.View()), CommitSuccess)
      ensures store.jobs == old(store.jobs)[id := WriteStepSuccess(old(store.jobs[id]), v, output)]
      ensures SuccessColumns(old(store.jobs[id]), store.jobs[id], v.index, output)
      ensures Owns(old(store.jobs[id]), token) ==> Owns(store.jobs[id], token)
    {
      CommitsOnStored(id, p, v, origin);
      ghost var before := store.View();
      var accumulated := v.output + output;
      var row := v.steps[v.index].(status := StepSucceeded, output := Some(output));
      var j := store.jobs[id];
      store.jobs := store.jobs[id := j.(
        row := j.row.(currentStep := v.index + 1, output := Some(accumulated)),
        steps := j.steps[v.index := row],
        audit := j.audit + [StepSucceededEvent(v.index)])];
      v' := Snapshot(v.attempts, v.index + 1, accumulated, v.steps[v.index := row]);
      store.workers := store.workers[token := store.workers[token].(phase := AtStep, local := v')];
      Took(store.world, origin, before, Works(token, CommitSuccess), store.View());
      SuccessLeaves(before.jobs[id], output);
    }

    method CompleteExecution(id: nat, ghost p: Phase, v: Snapshot, ghost origin: System)
      requires OnTrack(id, p, v, origin) && p.Completing? && store.clock < p.deadline
      modifies store
      ensures OnTrack(id, Stopped, v, origin) && store.jobs[id].row.status.Succeeded?
      ensures Did(old(store.View()), CommitCompletion)
      ensures store.jobs == old(store.jobs)[id := WriteSuccess(old(store.jobs[id]), v, old(store.clock))]
      ensures CompletionColumns(old(store.jobs[id]), store.jobs[id], old(store.clock))
    {
      CommitsOnStored(id, p, v, origin);
      ghost var before := store.View();
      var now := store.clock;
      var j := store.jobs[id];
      store.jobs := store.jobs[id := j.(
        row := ClearLease(j.row).(status := Succeeded, finishedAt := Some(now),
                                  lastErrorCode := None, lastErrorMessage := None),
        audit := j.audit + [ExecutionSucceeded(v.attempts)])];
      store.workers := store.workers[token := store.workers[token].(phase := Stopped)];
      Took(store.world, origin, before, Works(token, CommitCompletion), store.View());
    }

    /** `_fail_execution`, with the step row's own write when a step was started. */
    method FailExecution(id: nat, ghost p: Phase, v: Snapshot, code: string, message: string, transient: bool,
                         markStep: bool, ghost origin: System)
      requires OnTrack(id, p, v, origin) && Pending(p) && store.clock < p.deadline
      requires if markStep then p.Finishing? && p.outcome == Raised(code, message, transient) && v.index in v.steps
               else p.Starting? && v.index < |store.jobs[id].row.workflow.steps|
                    && Parse(store.jobs[id].row.workflow.steps[v.index]).None?
                    && code == "invalid_definition" && message == "Persisted workflow step is invalid" && !transient
      modifies store
      ensures OnTrack(id, Stopped, v, origin)
      ensures var digest := hash(id, v.attempts);
              var failure := FailureRecord(v.index, transient, code, message);
              && Did(old(store.View()), if markStep then CommitFailure(digest) else RejectDefinition(digest))
              && store.jobs == old(store.jobs)[id := WriteFailure(
                   old(store.jobs[id]), v, failure, markStep, digest, old(store.clock))]
      ensures var row := store.jobs[id].row;
              if transient && v.attempts < row.workflow.maxAttempts
              then row.status.RetryScheduled? else row.status.DeadLetter?
      ensures var r := old(store.jobs[id]).row;
              var delay := RetryDelay(hash(id, r.attemptCount), r.attemptCount, r.workflow.retryBaseSeconds);
              FailureColumns(old(store.jobs[id]), store.jobs[id], r.currentStep, code, message, transient,
                             markStep, delay, old(store.clock))
    {
      CommitsOnStored(id, p, v, origin);
      ghost var before := store.View();
      var now := store.clock;
      var j := store.jobs[id];
      var retryable := transient && v.attempts < j.row.workflow.maxAttempts;
      var row := ClearLease(j.row.(lastErrorCode := Some(code), lastErrorMessage := Some(message),
                                   currentStep := v.index));
      var event;
      if retryable {
        var delay := RetryDelay(hash(id, v.attempts), v.attempts, j.row.workflow.retryBaseSeconds);
        row := row.(status := RetryScheduled, nextRetryAt := Some(now + delay));
        event := ExecutionRetryScheduled(v.attempts);
      } else {
        row := row.(status := DeadLetter, finishedAt := Some(now));
        event := ExecutionDeadLettered(v.attempts);
      }
      var steps := j.steps;
      if markStep {
        steps := steps[v.index := v.steps[v.index].(status := StepFailed, error := Some(message))];
      }
      store.jobs := store.jobs[id := j.(
        row := row, steps := steps,
        failures := j.failures + [FailureRecord(v.index, transient, code, message)],
        audit := j.audit + [event])];
      store.workers := store.workers[token := store.workers[token].(phase := Stopped)];
      ghost var x := if markStep then CommitFailure(hash(id, v.attempts)) else RejectDefinition(hash(id, v.attempts));
      Took(store.world, origin, before, Works(token, x), store.View());
      FailureLeaves(j, FailureRecord(v.index, transient, code, message), markStep, hash(id, v.attempts), now);
    }

    // ---- Runs of commits ---------------------------------------------------

    /** An undisturbed owner, at the head of step `v.index`, of a workflow that evaluates
        through that step: its runner cannot but succeed. */
    lemma StepEvaluates(id: nat, p: Phase, v: Snapshot, d: Definition, origin: System)
      requires OnTrack(id, p, v, origin) && Loaded(p) && Owns(store.jobs[id], token)
      requires v.index < |store.jobs[id].row.workflow.steps|
      requires Parse(store.jobs[id].row.workflow.steps[v.index]) == Some(d)
      ensures var r := store.jobs[id].row;
              Evaluate(store.world.run, r.workflow.steps, r.input, v.index + 1).Some?
              ==> store.world.run(d.kind, d.config, r.input, v.output).Some?
    {
      InvNow(store.world, origin, store.View());
      assert WorkerFits(store.world, store.View(), token);
      JobFacts(store.world, store.View(), id);
    }

    lemma IndexFits(id: nat, v: Snapshot, origin: System)
      requires OnTrack(id, AtStep, v, origin)
      ensures v.index <= |store.jobs[id].row.workflow.steps|
    {
      InvNow(store.world, origin, store.View());
      assert WorkerFits(store.world, store.View(), token);
    }

    lemma SuccessMeansEvaluated(id: nat, origin: System)
      requires store.From(origin) && id < |store.jobs|
      ensures var r := store.jobs[id].row;
              r.status.Succeeded? ==>
                Evaluate(store.world.run, r.workflow.steps, r.input, |r.workflow.steps|) == Some(OutputOf(r))
    {
      InvNow(store.world, origin, store.View());
      JobFacts(store.world, store.View(), id);
    }

    /** The second half of a turn: run the step, renew, and commit what came of it. */
    method FinishRun(id: nat, v: Snapshot, d: Definition, ghost origin: System) returns (going: bool, v': Snapshot)
      requires OnTrack(id, Executing, v, origin) && runner.run == store.world.run
      requires v.index < |store.jobs[id].row.workflow.steps| && v.index in v.steps
      requires Parse(store.jobs[id].row.workflow.steps[v.index]) == Some(d)
      modifies store
      ensures OnTrack(id, if going then AtStep else Stopped, v', origin)
      ensures going ==> v'.index == v.index + 1
      ensures store.alone && Owns(old(store.jobs[id]), token) ==>
                if going then Owns(store.jobs[id], token) else !store.jobs[id].row.status.Running?
      ensures store.alone && Owns(old(store.jobs[id]), token) && runner.steady
              && store.world.run(d.kind, d.config, origin.jobs[id].row.input, v.output).Some?
              ==> going
    {
      going, v' := false, v;
      var outcome := runner.Run(d, store.jobs[id].row.input, v.output);
      Yield(id, Executing, v, origin);
      var renewed := RenewLease(id, Executing, v, RenewAfterRun(outcome), origin);
      if !renewed {
        return;
      }
      ghost var p := Renewed(id, v, RenewAfterRun(outcome));
      YieldBefore(id, p, v, origin);
      if outcome.Raised? {
        FailExecution(id, p, v, outcome.code, outcome.message, outcome.transient, true, origin);
      } else {
        v' := FinishStep(id, p, v, outcome.output, origin);
        going := true;
      }
    }

    /** One turn of the loop of `_run_steps`: renew, start, run, renew, commit. The worker
        goes on exactly if the step's success was committed; otherwise it has stopped, and
        if nobody interfered the execution has left the running state. */
    method RunOneStep(id: nat, v: Snapshot, ghost origin: System) returns (going: bool, v': Snapshot)
      requires OnTrack(id, AtStep, v, origin) && runner.run == store.world.run
      requires v.index < |store.jobs[id].row.workflow.steps|
      modifies store
      ensures OnTrack(id, if going then AtStep else Stopped, v', origin)
      ensures going ==> v'.index == v.index + 1
      ensures store.alone && Owns(old(store.jobs[id]), token) ==>
                if going then Owns(store.jobs[id], token) else !store.jobs[id].row.status.Running?
      ensures var r := origin.jobs[id].row;
              store.alone && Owns(old(store.jobs[id]), token) && runner.steady
              && Evaluate(store.world.run, r.workflow.steps, r.input, v.index + 1).Some?
              ==> going
    {
      going, v' := false, v;
      Yield(id, AtStep, v, origin);
      var renewed := RenewLease(id, AtStep, v, RenewAtStep, origin);
      if !renewed {
        return;
      }
      ghost var p := Renewed(id, v, RenewAtStep);
      YieldBefore(id, p, v, origin);
      var d := Parse(store.jobs[id].row.workflow.steps[v.index]);
      if d.None? {
        FailExecution(id, p, v, INVALID_DEFINITION, INVALID_DEFINITION_MESSAGE, false, false, origin);
        return;
      }
      if store.jobs[id].row.status.Running? && store.jobs[id].row.leaseToken == Some(token) {
        StepEvaluates(id, p, v, d.value, origin);
      }
      var started := StartStep(id, p, v, d.value, origin);
      Yield(id, Executing, started, origin);
      going, v' := FinishRun(id, started, d.value, origin);
    }

    /** `_run_steps`. */
    method RunSteps(id: nat, v0: Snapshot, ghost origin: System)
      requires OnTrack(id, AtStep, v0, origin) && runner.run == store.world.run
      modifies store
      ensures exists v :: OnTrack(id, Stopped, v, origin)
      ensures store.alone && Owns(old(store.jobs[id]), token) ==> !store.jobs[id].row.status.Running?
      ensures store.alone && Owns(old(store.jobs[id]), token) && runner.steady ==>
                var r := origin.jobs[id].row;
                store.jobs[id].row.status.Succeeded?
                <==> Evaluate(store.world.run, r.workflow.steps, r.input, |r.workflow.steps|).Some?
    {
      var v := v0;
      var steps := store.jobs[id].row.workflow.steps;
      ghost var input := store.jobs[id].row.input;
      ghost var undisturbed := store.alone && Owns(store.jobs[id], token);
      IndexFits(id, v, origin);
      while v.index < |steps|
        invariant OnTrack(id, AtStep, v, origin) && v.index <= |steps|
        invariant undisturbed ==> Owns(store.jobs[id], token)
        decreases |steps| - v.index
      {
        if Evaluate(runner.run, steps, input, |steps|).Some? {
          EvaluationIsPrefixClosed(runner.run, steps, input, v.index + 1, |steps|);
        }
        var going;
        going, v := RunOneStep(id, v, origin);
        if !going {
          SuccessMeansEvaluated(id, origin);
          return;
        }
      }
      Yield(id, AtStep, v, origin);
      var renewed := RenewLease(id, AtStep, v, RenewAtStep, origin);
      if renewed {
        ghost var p := Renewed(id, v, RenewAtStep);
        YieldBefore(id, p, v, origin);
        CompleteExecution(id, p, v, origin);
        SuccessMeansEvaluated(id, origin);
      }
    }

    /** `run`: claim, load, run the steps. A delivery whose execution is not queued is a
        no-op. Left alone, a claimed execution never stays running; with a runner that does
        not raise on its own, it succeeds exactly if the straight-line evaluation of the
        whole workflow exists, and it then holds that evaluation's output. */
    method Run(id: nat, ghost origin: System) returns (claimed: bool)
      requires OnTrack(id, Popped, EMPTY_SNAPSHOT, origin) && runner.run == store.world.run
      modifies store
      ensures exists v :: OnTrack(id, Stopped, v, origin)
      ensures store.alone ==> claimed == old(store.jobs[id]).row.status.Queued?
      ensures store.alone && !claimed ==> store.jobs[id] == old(store.jobs[id])
      ensures store.alone && claimed ==> !store.jobs[id].row.status.Running?
      ensures store.alone && claimed && runner.steady ==>
                var r := store.jobs[id].row;
                var full := Evaluate(store.world.run, r.workflow.steps, r.input, |r.workflow.steps|);
                && (r.status.Succeeded? <==> full.Some?)
                && (r.status.Succeeded? ==> full == Some(OutputOf(r)))
    {
      Yield(id, Popped, EMPTY_SNAPSHOT, origin);
      claimed := Claim(id, EMPTY_SNAPSHOT, origin);
      if claimed {
        Yield(id, Claimed, EMPTY_SNAPSHOT, origin);
        var v := LoadExecution(id, EMPTY_SNAPSHOT, origin);
        RunSteps(id, v, origin);
        SuccessMeansEvaluated(id, origin);
      }
    }
  }

  lemma QueueNamesExecutions(w: World, s: System)
    requires Reachable(w, s)
    ensures forall i | 0 <= i < |s.queue| :: s.queue[i] < |s.jobs|
  {
    InvReachable(w, s);
  }

  /** One turn of the worker process (app/worker.py): pop a message, hand it to a service
      with the token it drew, which no earlier delivery has. */
  method HandleDelivery(store: Store, runner: StepRunner, hash: (nat, nat) -> Digest, workerId: string, token: nat)
    returns (processed: bool)
    requires Reachable(store.world, store.View()) && runner.run == store.world.run
    requires token == |store.workers|
    modifies store
    ensures store.From(old(store.View()))
    ensures old(store.queue) == [] ==> !processed && store.View() == old(store.View())
    ensures old(store.queue) != [] ==>
              && token < |store.workers| && store.workers[token].exec == old(store.queue)[0]
              && store.workers[token].phase.Stopped?
    ensures store.alone && old(store.queue) != [] ==>
              && var id := old(store.queue)[0];
                 && id < |old(store.jobs)| && id < |store.jobs|
                 && processed == old(store.jobs)[id].row.status.Queued?
                 && (if processed then !store.jobs[id].row.status.Running?
                     else store.jobs[id] == old(store.jobs)[id])
                 && (processed && runner.steady ==>
                       var r := store.jobs[id].row;
                       var full := Evaluate(store.world.run, r.workflow.steps, r.input, |r.workflow.steps|);
                       && (r.status.Succeeded? <==> full.Some?)
                       && (r.status.Succeeded? ==> full == Some(OutputOf(r))))
  {
    ghost var origin := store.View();
    processed := false;
    ReachesItself(store.world, origin);
    if store.queue == [] {
      return;
    }
    QueueNamesExecutions(store.world, origin);
    var id := store.queue[0];
    store.queue := store.queue[1..];
    store.workers := store.workers + [Worker(id, Popped, EMPTY_SNAPSHOT)];
    Took(store.world, origin, origin, Pop, store.View());
    var service := new ExecutionService(store, runner, hash, workerId, token);
    processed := service.Run(id, origin);
  }
}
