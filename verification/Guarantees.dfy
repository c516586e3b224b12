/** What holds in every reachable state and along every run of the platform, whatever the
    interleaving of callers, workers, schedulers, operators, crashes and duplicates. */
module Guarantees {
  import opened Json
  import opened Steps
  import opened Models
  import opened Columns
  import opened Lifecycle
  import opened Protocol
  import opened Fencing
  import opened Stores

  // ---- States --------------------------------------------------------------

  /** Crash-tolerant refinement: the stored output is that of an uninterrupted run of the
      first `current_step` steps, and a success holds the output of the whole workflow. */
  lemma OutputIsStraightLine(w: World, s: System, e: nat)
    requires Reachable(w, s) && e < |s.jobs|
    ensures var r := s.jobs[e].row;
            && r.currentStep <= |r.workflow.steps|
            && Evaluate(w.run, r.workflow.steps, r.input, r.currentStep) == Some(OutputOf(r))
            && (r.status.Succeeded? ==>
                  Evaluate(w.run, r.workflow.steps, r.input, |r.workflow.steps|) == Some(OutputOf(r)))
  {
    InvReachable(w, s);
    JobFacts(w, s, e);
  }

  /** The step rows below `current_step` succeeded, at most one more exists, none beyond; and
      merging the recorded outputs in index order gives the execution's output. */
  lemma StepRowsExplainOutput(w: World, s: System, e: nat)
    requires Reachable(w, s) && e < |s.jobs|
    ensures StepRowsShape(s.jobs[e])
    ensures MergeAll(RowOutputs(s.jobs[e], s.jobs[e].row.currentStep)) == OutputOf(s.jobs[e].row)
  {
    InvReachable(w, s);
    JobFacts(w, s, e);
    var r := s.jobs[e].row;
    EvaluationMergesResults(w.run, r.workflow.steps, r.input, r.currentStep);
  }

  /** Columns follow the status, and no status is ever reached outside the attempt budget. */
  lemma RowsAreWellShaped(w: World, s: System, e: nat)
    requires Reachable(w, s) && e < |s.jobs|
    ensures RowShape(s.jobs[e].row) && WithinBudget(s.jobs[e].row)
  {
    InvReachable(w, s);
    JobFacts(w, s, e);
  }

  /** Over the whole history every attempt is accounted for, and the audit log replays to
      the status, the attempt count and the current step of the row. */
  lemma HistoryExplainsRow(w: World, s: System, e: nat)
    requires Reachable(w, s) && e < |s.jobs|
    ensures var j := s.jobs[e];
            && j.row.attemptCount + SumPrior(j.audit)
               == |j.failures| + CountLeaseRequeues(j.audit)
                  + (if j.row.status.Running? || j.row.status.Succeeded? then 1 else 0)
            && Progress(j.audit) == UpTo(j.row.currentStep)
            && LogFaithful(j)
  {
    InvReachable(w, s);
    JobFacts(w, s, e);
  }

  /** An execution that waits for a retry shows which step failed, how, and that attempts are
      left; its step row has failed with the same message. A dead letter shows a failure that
      was permanent or came with the last attempt. A step row has an error exactly if it failed
      and an output exactly if it succeeded. */
  lemma FailuresAreShown(w: World, s: System, e: nat)
    requires Reachable(w, s) && e < |s.jobs|
    ensures var j, r := s.jobs[e], s.jobs[e].row;
            && (r.status.RetryScheduled? || r.status.DeadLetter? ==>
                  && j.failures != []
                  && var f := j.failures[|j.failures| - 1];
                     && f.step == r.currentStep
                     && r.lastErrorCode == Some(f.code) && r.lastErrorMessage == Some(f.message)
                     && (f.transient && r.attemptCount < r.workflow.maxAttempts <==> r.status.RetryScheduled?))
            && (r.status.RetryScheduled? ==>
                  && r.currentStep in j.steps && j.steps[r.currentStep].status.StepFailed?
                  && j.steps[r.currentStep].error == r.lastErrorMessage)
            && forall i | i in j.steps ::
                 && (j.steps[i].error.Some? <==> j.steps[i].status.StepFailed?)
                 && (j.steps[i].output.Some? <==> j.steps[i].status.StepSucceeded?)
                 && j.steps[i].attemptCount >= 1
  {
    InvReachable(w, s);
    JobFacts(w, s, e);
    assert forall i | i in s.jobs[e].steps :: StepRowTells(s.jobs[e].steps[i]);
  }

  /** A running execution's lease ends exactly `lease_seconds` after its last heartbeat. */
  lemma LeaseFollowsHeartbeat(w: World, s: System, e: nat)
    requires Reachable(w, s) && e < |s.jobs| && s.jobs[e].row.status.Running?
    ensures var r := s.jobs[e].row;
            && r.heartbeatAt.Some? && r.heartbeatAt.value <= s.clock
            && r.leaseExpiresAt == Some(r.heartbeatAt.value + w.leaseSeconds as real)
  {
    InvReachable(w, s);
    JobFacts(w, s, e);
    LeaseFacts(w, s, e);
  }

  // ---- Actions -------------------------------------------------------------

  /** No step, failure or success commit lands for a worker that lost its lease: whoever
      commits in time holds it, and writes from exactly what the database stores. */
  lemma OnlyTheHolderCommits(w: World, s: System, t: nat, x: Work)
    requires Reachable(w, s) && Can(w, s, Works(t, x)) && IsCommit(x)
    ensures Owns(JobOf(s, t), t) && s.workers[t].local == Load(JobOf(s, t))
  {
    InvReachable(w, s);
    JobFacts(w, s, s.workers[t].exec);
    assert WorkerFits(w, s, t);
    CommitFenced(w, s.clock, JobOf(s, t), t, s.workers[t], x);
  }

  /** A late renewal, which may revive an expired lease, and a reaper that has read that lease
      have exactly one winner: whichever update commits first makes the other miss. */
  lemma RenewalAndReapExclude(w: World, s: System, t: nat, x: Work, k: nat)
    requires Reachable(w, s) && (x.RenewAtStep? || x.RenewAfterRun?)
    requires Can(w, s, Works(t, x)) && Owns(JobOf(s, t), t)
    requires k < |s.sightings| && s.sightings[k].exec == s.workers[t].exec
    ensures !Can(w, Do(w, s, Works(t, x)), ReapSighted(k))
    ensures Can(w, s, ReapSighted(k)) ==>
              var reaped := Do(w, s, ReapSighted(k));
              && Can(w, reaped, Works(t, x))
              && var after := Do(w, reaped, Works(t, x));
                 after.workers[t].phase.Stopped? && after.jobs == reaped.jobs
  {
    InvReachable(w, s);
    assert SightingFits(s, k);
    var e := s.workers[t].exec;
    if Can(w, s, ReapSighted(k)) {
      var reaped := Do(w, s, ReapSighted(k));
      assert reaped.jobs[e := reaped.jobs[e]] == reaped.jobs;
    }
  }

  /** When a reaper's conditional update matches, what it read earlier is still what the row
      shows, so its choice between requeue and dead letter is right at commit time, and a
      failure record names the step the execution is at. */
  lemma ReaperDecidesOnCurrentRow(w: World, s: System, k: nat)
    requires Reachable(w, s) && Can(w, s, ReapSighted(k))
    ensures var g, j := s.sightings[k], s.jobs[s.sightings[k].exec];
            && g.attempts == j.row.attemptCount && g.step == j.row.currentStep
            && var j' := Do(w, s, ReapSighted(k)).jobs[g.exec];
               && (j'.row.status.Queued? <==> j.row.attemptCount < j.row.workflow.maxAttempts)
               && (j'.row.status.DeadLetter? <==> j.row.attemptCount == j.row.workflow.maxAttempts)
               && ReapColumns(j, j', g.at)
  {
    InvReachable(w, s);
    assert SightingFits(s, k);
    ReaperDecisionStable(s.clock, s.jobs[s.sightings[k].exec], s.sightings[k]);
    ReapLeaves(s.jobs[s.sightings[k].exec], s.sightings[k].at);
    RowsAreWellShaped(w, s, s.sightings[k].exec);
  }

  // ---- Runs ----------------------------------------------------------------

  /** The lifecycle changes that a run makes to one execution. */
  ghost function ChangesTo(w: World, s: System, acts: seq<Action>, s': System, e: nat): seq<Change>
    requires Run(w, s, acts, s')
    decreases |acts|
  {
    if acts == [] then [] else
    var change := ChangeOf(w, s, acts[0]);
    (if change.Some? && change.value.0 == e then [change.value.1] else [])
    + ChangesTo(w, Do(w, s, acts[0]), acts[1..], s', e)
  }

  lemma LegalCons(w: World, j: Job, c: Change, cs: seq<Change>)
    requires Enabled(w, j, c) && Legal(w, Apply(w, j, c), cs)
    ensures Legal(w, j, [c] + cs) && After(w, j, [c] + cs) == After(w, Apply(w, j, c), cs)
  {
    assert ([c] + cs)[1..] == cs;
  }

  /** Trace refinement: seen from one execution, any run of the whole platform is a legal
      history of its lifecycle. */
  lemma {:induction false} RunsRefineHistories(w: World, s: System, acts: seq<Action>, s': System, e: nat)
    requires Inv(w, s) && Run(w, s, acts, s') && e < |s.jobs|
    ensures e < |s'.jobs|
    ensures Legal(w, s.jobs[e], ChangesTo(w, s, acts, s', e))
    ensures After(w, s.jobs[e], ChangesTo(w, s, acts, s', e)) == s'.jobs[e]
    decreases |acts|
  {
    if acts != [] {
      var next := Do(w, s, acts[0]);
      var rest := ChangesTo(w, next, acts[1..], s', e);
      ActionsRefineLifecycle(w, s, acts[0]);
      InvKept(w, s, acts[0]);
      RunsRefineHistories(w, next, acts[1..], s', e);
      var change := ChangeOf(w, s, acts[0]);
      if change.Some? && change.value.0 == e {
        LegalCons(w, s.jobs[e], change.value.1, rest);
      } else {
        assert next.jobs[e] == s.jobs[e];
        assert ChangesTo(w, s, acts, s', e) == [] + rest == rest;
      }
    }
  }

  lemma ReachableRunsRefine(w: World, s: System, acts: seq<Action>, s': System, e: nat)
    requires Reachable(w, s) && Run(w, s, acts, s') && e < |s.jobs|
    ensures Bounded(s.jobs[e]) && e < |s'.jobs|
    ensures Legal(w, s.jobs[e], ChangesTo(w, s, acts, s', e))
    ensures After(w, s.jobs[e], ChangesTo(w, s, acts, s', e)) == s'.jobs[e]
  {
    InvReachable(w, s);
    JobFacts(w, s, e);
    RunsRefineHistories(w, s, acts, s', e);
  }

  /** Along any run, the lifecycle transitions of one execution that are not manual retries
      number at most what it had left, plus one budget per manual retry. */
  lemma TransitionsBoundedInRuns(w: World, s: System, acts: seq<Action>, s': System, e: nat, cs: seq<Change>)
    requires Reachable(w, s) && Run(w, s, acts, s') && e < |s.jobs| && cs == ChangesTo(w, s, acts, s', e)
    ensures Bounded(s.jobs[e])
    ensures CountTransitions(cs)
            <= Remaining(s.jobs[e]) + Times(CountManualRetries(cs), 3 * s.jobs[e].row.workflow.maxAttempts + 1)
  {
    ReachableRunsRefine(w, s, acts, s', e);
    TransitionsBounded(w, s.jobs[e], cs);
  }

  lemma ChangeKeepsHistory(w: World, j: Job, c: Change)
    requires Enabled(w, j, c)
    ensures j.audit <= Apply(w, j, c).audit && j.failures <= Apply(w, j, c).failures
    ensures j.row.currentStep <= Apply(w, j, c).row.currentStep
  {}

  lemma {:induction false} HistoryKept(w: World, j: Job, cs: seq<Change>)
    requires Legal(w, j, cs)
    ensures var j' := After(w, j, cs);
            j.audit <= j'.audit && j.failures <= j'.failures && j.row.currentStep <= j'.row.currentStep
    decreases |cs|
  {
    if cs != [] {
      ChangeKeepsHistory(w, j, cs[0]);
      HistoryKept(w, Apply(w, j, cs[0]), cs[1..]);
    }
  }

  /** Progress is never lost, and the audit log and the failure records only grow, through
      failures, reaps, cancellations and manual retries. */
  lemma ProgressNeverLost(w: World, s: System, s': System, e: nat)
    requires Reachable(w, s) && Reaches(w, s, s') && e < |s.jobs|
    ensures e < |s'.jobs|
    ensures s.jobs[e].row.currentStep <= s'.jobs[e].row.currentStep
    ensures s.jobs[e].audit <= s'.jobs[e].audit && s.jobs[e].failures <= s'.jobs[e].failures
  {
    var acts :| Run(w, s, acts, s');
    ReachableRunsRefine(w, s, acts, s', e);
    HistoryKept(w, s.jobs[e], ChangesTo(w, s, acts, s', e));
  }

  lemma {:induction false} FinalStays(w: World, j: Job, cs: seq<Change>)
    requires Legal(w, j, cs) && (j.row.status.Succeeded? || j.row.status.Cancelled?)
    ensures cs == [] && After(w, j, cs) == j
  {
  }

  /** Success and cancellation are final: nothing is ever written to such an execution again. */
  lemma FinalMeansFinal(w: World, s: System, s': System, e: nat)
    requires Reachable(w, s) && Reaches(w, s, s') && e < |s.jobs|
    requires s.jobs[e].row.status.Succeeded? || s.jobs[e].row.status.Cancelled?
    ensures e < |s'.jobs| && s'.jobs[e] == s.jobs[e]
  {
    var acts :| Run(w, s, acts, s');
    ReachableRunsRefine(w, s, acts, s', e);
    FinalStays(w, s.jobs[e], ChangesTo(w, s, acts, s', e));
  }

  // ---- Leases --------------------------------------------------------------

  /** The worker holds a lease that runs at least until `expiry`, or it has stopped by itself. */
  predicate KeepsLease(s: System, t: nat, expiry: Time) {
    && At(s, t)
    && (s.workers[t].phase.Stopped?
        || (Owns(JobOf(s, t), t) && JobOf(s, t).row.leaseExpiresAt.Some?
            && JobOf(s, t).row.leaseExpiresAt.value >= expiry))
  }

  lemma OwnWorkKeepsLease(w: World, clock: Time, j: Job, t: nat, wk: Worker, x: Work, expiry: Time)
    requires Bounded(j) && WorkerOk(w, clock, j, t, wk) && CanWork(w, j, wk, x) && InTime(clock, wk, x)
    requires Owns(j, t) && expiry <= j.row.leaseExpiresAt.value && LeaseInWindow(w, clock, j)
    ensures var j' := WorkOnJob(w, clock, j, t, wk, x);
            WorkOnSelf(w, clock, j, t, wk, x).phase.Stopped?
            || (Owns(j', t) && j'.row.leaseExpiresAt.Some? && j'.row.leaseExpiresAt.value >= expiry)
  {}

  /** While an execution is running, all that others can do to it is reap an expired lease. */
  lemma OnlyHolderOrReaper(w: World, j: Job, c: Change)
    requires Bounded(j) && Enabled(w, j, c) && j.row.status.Running?
    ensures HolderMakes(c) || (c.Reap? && j.row.leaseExpiresAt.value <= c.at)
  {}

  lemma HolderKeepsLease(w: World, s: System, t: nat, x: Work, expiry: Time)
    requires Inv(w, s) && Can(w, s, Works(t, x)) && KeepsLease(s, t, expiry)
    ensures KeepsLease(Do(w, s, Works(t, x)), t, expiry)
  {
    JobFacts(w, s, s.workers[t].exec);
    LeaseFacts(w, s, s.workers[t].exec);
    assert WorkerFits(w, s, t);
    if !s.workers[t].phase.Stopped? {
      OwnWorkKeepsLease(w, s.clock, JobOf(s, t), t, s.workers[t], x, expiry);
    }
  }

  lemma BystandersKeepLease(w: World, s: System, a: Action, t: nat, expiry: Time)
    requires Inv(w, s) && Can(w, s, a) && KeepsLease(s, t, expiry) && s.clock < expiry
    requires !(a.Works? && a.t == t)
    ensures KeepsLease(Do(w, s, a), t, expiry)
  {
    var e := s.workers[t].exec;
    JobFacts(w, s, e);
    var c := JobMoves(w, s, a, e);
    assert Do(w, s, a).workers[t] == s.workers[t];
    if c.Some? && !s.workers[t].phase.Stopped? {
      OnlyHolderOrReaper(w, s.jobs[e], c.value);
    }
  }

  lemma ActionKeepsLease(w: World, s: System, a: Action, t: nat, expiry: Time)
    requires Inv(w, s) && Can(w, s, a) && KeepsLease(s, t, expiry) && s.clock < expiry
    ensures KeepsLease(Do(w, s, a), t, expiry)
  {
    if a.Works? && a.t == t {
      HolderKeepsLease(w, s, t, a.work, expiry);
    } else {
      BystandersKeepLease(w, s, a, t, expiry);
    }
  }

  /** No run takes an unexpired lease away: until the expiry it shows now, an execution stays
      with its worker, unless that worker finishes, fails or crashes first. */
  lemma {:induction false} LeaseHoldsUntilExpiry(w: World, s: System, acts: seq<Action>, s': System,
                                                 t: nat, expiry: Time)
    requires Inv(w, s) && Run(w, s, acts, s') && KeepsLease(s, t, expiry) && s'.clock < expiry
    ensures KeepsLease(s', t, expiry)
    decreases |acts|
  {
    if acts != [] {
      var next := Do(w, s, acts[0]);
      InvKept(w, s, acts[0]);
      RunIsLater(w, s, acts, s');
      RunIsLater(w, next, acts[1..], s');
      ActionKeepsLease(w, s, acts[0], t, expiry);
      LeaseHoldsUntilExpiry(w, next, acts[1..], s', t, expiry);
    }
  }

  /** No running execution is stuck, whatever its worker does or does not do: from every
      reachable state a run without any worker's help puts it back into the queue, or
      dead-letters it if its attempts are used up. */
  lemma RunningIsRecoverable(w: World, s: System, e: nat) returns (s': System)
    requires Reachable(w, s) && e < |s.jobs| && s.jobs[e].row.status.Running?
    ensures Reaches(w, s, s') && s'.workers == s.workers && |s'.jobs| == |s.jobs|
    ensures var r, r' := s.jobs[e].row, s'.jobs[e].row;
            if r.attemptCount < r.workflow.maxAttempts then r'.status.Queued? else r'.status.DeadLetter?
  {
    InvReachable(w, s);
    JobFacts(w, s, e);
    var expiry := s.jobs[e].row.leaseExpiresAt.value;
    var wait := AdvanceClock(if expiry > s.clock then expiry else s.clock);
    ReachesItself(w, s);
    ReachesThen(w, s, s, wait);
    var late := Do(w, s, wait);
    s' := ExpiredIsReaped(w, late, e);
    ReachesCompose(w, s, late, s');
  }

  // ---- What has happened since ---------------------------------------------

  /** The log of execution `e` has gained an event of this kind since `s`. */
  ghost predicate LoggedSince(s: System, s': System, e: nat, kind: Event -> bool) {
    && e < |s.jobs| && e < |s'.jobs|
    && exists k :: |s.jobs[e].audit| <= k < |s'.jobs[e].audit| && kind(s'.jobs[e].audit[k])
  }

  lemma StillLogged(w: World, s: System, m: System, s': System, e: nat, kind: Event -> bool)
    requires Reachable(w, m) && Reaches(w, m, s') && LoggedSince(s, m, e, kind)
    ensures LoggedSince(s, s', e, kind)
  {
    ProgressNeverLost(w, m, s', e);
    var k :| |s.jobs[e].audit| <= k < |m.jobs[e].audit| && kind(m.jobs[e].audit[k]);
    assert s'.jobs[e].audit[k] == m.jobs[e].audit[k];
  }

  predicate LeavesWaiting(e: Event) {
    e.ExecutionRequeued? || e.ExecutionCancelled?
  }

  lemma ActionLeavesWaiting(w: World, s: System, a: Action, e: nat)
    requires Inv(w, s) && Can(w, s, a) && e < |s.jobs| && s.jobs[e].row.status.RetryScheduled?
    ensures e < |Do(w, s, a).jobs|
    ensures Do(w, s, a).jobs[e] == s.jobs[e] || LoggedSince(s, Do(w, s, a), e, LeavesWaiting)
  {
    JobFacts(w, s, e);
    var c := JobMoves(w, s, a, e);
    if c.Some? {
      assert LeavesWaiting(Do(w, s, a).jobs[e].audit[|s.jobs[e].audit|]);
    }
  }

  /** An execution that waits for its retry stays as it is until its log says that it was
      requeued or cancelled. */
  lemma {:induction false} WaitsUntilLogged(w: World, s: System, acts: seq<Action>, s': System, e: nat)
    requires Reachable(w, s) && Run(w, s, acts, s') && e < |s.jobs| && s.jobs[e].row.status.RetryScheduled?
    ensures e < |s'.jobs| && (s'.jobs[e] == s.jobs[e] || LoggedSince(s, s', e, LeavesWaiting))
    decreases |acts|
  {
    if acts != [] {
      var next := Do(w, s, acts[0]);
      InvReachable(w, s);
      ActionLeavesWaiting(w, s, acts[0], e);
      ReachableThen(w, s, acts[0]);
      if next.jobs[e] == s.jobs[e] {
        WaitsUntilLogged(w, next, acts[1..], s', e);
      } else {
        assert Reaches(w, next, s');
        StillLogged(w, s, next, s', e, LeavesWaiting);
      }
    }
  }

  lemma ReachableThen(w: World, s: System, a: Action)
    requires Reachable(w, s) && Can(w, s, a)
    ensures Reachable(w, Do(w, s, a))
  {
    var s0 :| Initial(s0) && Reaches(w, s0, s);
    ReachesThen(w, s0, s, a);
  }

  /** Once the conditional update of a reaper misses, it never matches again: a lease that is
      gone does not come back, and a renewed one expires after the reaper's `now`. */
  lemma MissStays(w: World, s: System, a: Action, g: Sighting)
    requires Inv(w, s) && Can(w, s, a)
    requires g in s.sightings && g.exec < |s.jobs| && !ReapMatches(s.jobs[g.exec].row, g)
    ensures var s' := Do(w, s, a);
            g in s'.sightings && g.exec < |s'.jobs| && !ReapMatches(s'.jobs[g.exec].row, g)
  {
    var k :| 0 <= k < |s.sightings| && s.sightings[k] == g;
    assert SightingFits(s, k);
    assert Do(w, s, a).sightings[k] == g;
    JobFacts(w, s, g.exec);
    var c := JobMoves(w, s, a, g.exec);
  }

  lemma {:induction false} MissedForGood(w: World, s: System, acts: seq<Action>, s': System, g: Sighting)
    requires Inv(w, s) && Run(w, s, acts, s')
    requires g in s.sightings && g.exec < |s.jobs| && !ReapMatches(s.jobs[g.exec].row, g)
    ensures g.exec < |s'.jobs| && !ReapMatches(s'.jobs[g.exec].row, g)
    decreases |acts|
  {
    if acts != [] {
      MissStays(w, s, acts[0], g);
      InvKept(w, s, acts[0]);
      MissedForGood(w, Do(w, s, acts[0]), acts[1..], s', g);
    }
  }

  // ---- A lease once granted ------------------------------------------------

  lemma GrantLasts(w: World, s: System, t: nat, x: Work, acts: seq<Action>, s': System)
    requires Reachable(w, s) && Can(w, s, Works(t, x))
    requires KeepsLease(Do(w, s, Works(t, x)), t, s.clock + w.leaseSeconds as real)
    requires Run(w, Do(w, s, Works(t, x)), acts, s') && s'.clock < s.clock + w.leaseSeconds as real
    ensures At(s', t) && (s'.workers[t].phase.Stopped? || Owns(JobOf(s', t), t))
  {
    InvReachable(w, s);
    InvKept(w, s, Works(t, x));
    LeaseHoldsUntilExpiry(w, Do(w, s, Works(t, x)), acts, s', t, s.clock + w.leaseSeconds as real);
  }

  /** From a granted claim on, no run takes the execution from a worker that has not stopped by
      itself, as long as the clock stays within `lease_seconds` of the claim. */
  lemma ClaimLasts(w: World, s: System, t: nat, owner: string, acts: seq<Action>, s': System)
    requires Reachable(w, s) && Can(w, s, Works(t, Begin(owner))) && JobOf(s, t).row.status.Queued?
    requires Run(w, Do(w, s, Works(t, Begin(owner))), acts, s') && s'.clock < s.clock + w.leaseSeconds as real
    ensures At(s', t) && (s'.workers[t].phase.Stopped? || Owns(JobOf(s', t), t))
  {
    GrantLasts(w, s, t, Begin(owner), acts, s');
  }

  /** The same from a renewal on. */
  lemma RenewalLasts(w: World, s: System, t: nat, x: Work, acts: seq<Action>, s': System)
    requires Reachable(w, s) && Can(w, s, Works(t, x)) && (x.RenewAtStep? || x.RenewAfterRun?)
    requires Owns(JobOf(s, t), t)
    requires Run(w, Do(w, s, Works(t, x)), acts, s') && s'.clock < s.clock + w.leaseSeconds as real
    ensures At(s', t) && (s'.workers[t].phase.Stopped? || Owns(JobOf(s', t), t))
  {
    GrantLasts(w, s, t, x, acts, s');
  }
}
