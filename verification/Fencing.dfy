/** Timed fencing: what ties a worker's private snapshot to the row it writes, and
    why every action of the protocol is a lifecycle change of an undisturbed owner. */
module Fencing {
  import opened Json
  import opened Models
  import opened Lifecycle
  import opened Protocol

  // ---- One worker and one execution ----------------------------------------

  predicate Loaded(p: Phase) {
    p.AtStep? || p.Executing? || Pending(p)
  }

  predicate Unclaimed(p: Phase) {
    p.Popped? || p.Dropped?
  }

  /** Facts about the snapshot alone, whoever holds the lease. */
  predicate SnapshotFits(w: World, j: Job, wk: Worker) {
    var v, n := wk.local, |j.row.workflow.steps|;
    && (Loaded(wk.phase) ==> v.index <= n)
    && (wk.phase.Starting? ==> v.index < n)
    && (wk.phase.Completing? ==> v.index == n)
    && (wk.phase.Executing? || wk.phase.Finishing? ==>
          AtDefinition(j, wk) && CurrentDefinition(j, wk).Some? && v.index in v.steps
          && v.steps[v.index].status.StepRunning?)
    && (wk.phase.Finishing? ==> MayReturn(w, j, wk, wk.phase.outcome))
  }

  predicate Holds(j: Job, t: nat) {
    j.row.leaseToken == Some(t)
  }

  /** The holder of the lease has claimed, and what it loaded is still what is stored. */
  predicate HolderCoherent(j: Job, t: nat, wk: Worker) {
    Holds(j, t) ==> !Unclaimed(wk.phase) && (Loaded(wk.phase) ==> wk.local == Load(j))
  }

  /** Until its deadline a renewed worker holds the lease, and the row expires at that deadline. */
  predicate DeadlineFences(clock: Time, j: Job, t: nat, wk: Worker) {
    Pending(wk.phase) ==>
      && (clock < wk.phase.deadline ==> Holds(j, t))
      && (Holds(j, t) ==> j.row.leaseExpiresAt == Some(wk.phase.deadline))
  }

  predicate WorkerOk(w: World, clock: Time, j: Job, t: nat, wk: Worker) {
    SnapshotFits(w, j, wk) && HolderCoherent(j, t, wk) && DeadlineFences(clock, j, t, wk)
  }

  /** No stale commit lands: whoever commits in time still holds the lease of a running
      row, and writes from exactly what is stored. */
  lemma CommitFenced(w: World, clock: Time, j: Job, t: nat, wk: Worker, x: Work)
    requires Bounded(j) && WorkerOk(w, clock, j, t, wk) && CanWork(w, j, wk, x)
    requires IsCommit(x) && InTime(clock, wk, x)
    ensures Owns(j, t) && wk.local == Load(j)
  {}

  /** The lifecycle change that the work amounts to. */
  function WorkChange(w: World, clock: Time, j: Job, t: nat, wk: Worker, x: Work): Option<Change>
    requires CanWork(w, j, wk, x)
  {
    var v := wk.local;
    match x
    case Begin(owner) => if j.row.status.Queued? then Some(Change.Claim(t, owner, clock)) else None
    case LoadRow => None
    case RenewAtStep => if Owns(j, t) then Some(Change.Renew(clock)) else None
    case Start => Some(Change.StartStep)
    case RejectDefinition(digest) =>
      Some(Change.Reject(FailureRecord(v.index, false, INVALID_DEFINITION, INVALID_DEFINITION_MESSAGE), digest, clock))
    case RenewAfterRun(_) => if Owns(j, t) then Some(Change.Renew(clock)) else None
    case CommitSuccess => Some(Change.FinishStep(wk.phase.outcome.output))
    case CommitFailure(digest) =>
      var o := wk.phase.outcome;
      Some(Change.FailStep(FailureRecord(v.index, o.transient, o.code, o.message), digest, clock))
    case CommitCompletion => Some(Change.Complete(clock))
    case Crash => None
    case Drop => None
  }

  lemma WorkRefinesLifecycle(w: World, clock: Time, j: Job, t: nat, wk: Worker, x: Work)
    requires Bounded(j) && WorkerOk(w, clock, j, t, wk) && CanWork(w, j, wk, x) && InTime(clock, wk, x)
    ensures match WorkChange(w, clock, j, t, wk, x)
            case None => WorkOnJob(w, clock, j, t, wk, x) == j
            case Some(c) => Enabled(w, j, c) && WorkOnJob(w, clock, j, t, wk, x) == Apply(w, j, c)
  {
    if IsCommit(x) {
      CommitFenced(w, clock, j, t, wk, x);
    }
  }

  lemma WorkKeepsSelf(w: World, clock: Time, j: Job, t: nat, wk: Worker, x: Work)
    requires Bounded(j) && WorkerOk(w, clock, j, t, wk) && CanWork(w, j, wk, x) && InTime(clock, wk, x)
    ensures WorkerOk(w, clock, WorkOnJob(w, clock, j, t, wk, x), t, WorkOnSelf(w, clock, j, t, wk, x))
  {
    if IsCommit(x) {
      CommitFenced(w, clock, j, t, wk, x);
    }
  }

  /** Changes that leave the lease to whoever holds it. */
  predicate HolderMakes(c: Change) {
    c.Renew? || c.StartStep? || c.FinishStep? || c.Complete? || c.Reject? || c.FailStep?
  }

  /** A change by somebody else keeps a worker's side of the bargain. */
  lemma BystanderKept(w: World, clock: Time, j: Job, c: Change, t: nat, wk: Worker)
    requires Bounded(j) && WorkerOk(w, clock, j, t, wk) && Enabled(w, j, c)
    requires HolderMakes(c) ==> !Holds(j, t)
    requires c.Claim? ==> c.token != t
    requires c.Reap? ==> c.at <= clock
    ensures WorkerOk(w, clock, Apply(w, j, c), t, wk)
  {
    RequestImmutable(w, j, c);
  }

  // ---- The reaper ----------------------------------------------------------

  /** A reaper's earlier reading: while the token stands, the attempt count is still right,
      and the step is too unless the lease has been renewed past the reaper's `now`. */
  predicate SightingOk(clock: Time, j: Job, g: Sighting) {
    && g.at <= clock
    && (Holds(j, g.token) ==>
          && g.attempts == j.row.attemptCount
          && (g.step == j.row.currentStep || (j.row.leaseExpiresAt.Some? && g.at < j.row.leaseExpiresAt.value)))
  }

  /** When the reaper's conditional update matches, its earlier reading still holds. */
  lemma ReaperDecisionStable(clock: Time, j: Job, g: Sighting)
    requires SightingOk(clock, j, g) && ReapMatches(j.row, g)
    ensures g.attempts == j.row.attemptCount && g.step == j.row.currentStep
  {}

  /** The renewals of a live lease push its expiry past every earlier `now`; the commits
      that follow happen before that expiry. */
  lemma SightingKept(w: World, clock: Time, j: Job, c: Change, g: Sighting)
    requires Bounded(j) && SightingOk(clock, j, g) && Enabled(w, j, c)
    requires c.Renew? ==> c.at == clock
    requires c.FinishStep? ==> j.row.leaseExpiresAt.Some? && clock < j.row.leaseExpiresAt.value
    requires c.Claim? ==> c.token != g.token
    ensures SightingOk(clock, Apply(w, j, c), g)
  {}

  // ---- The whole system ----------------------------------------------------

  /** A token names the delivery that drew it. */
  predicate TokenKnown(s: System, e: nat, token: nat) {
    token < |s.workers| && s.workers[token].exec == e && !Unclaimed(s.workers[token].phase)
  }

  predicate LeaseKnown(s: System, e: nat)
    requires e < |s.jobs|
  {
    s.jobs[e].row.leaseToken.Some? ==> TokenKnown(s, e, s.jobs[e].row.leaseToken.value)
  }

  /** A lease runs for exactly `lease_seconds` from its last heartbeat, which is past. */
  predicate LeaseInWindow(w: World, clock: Time, j: Job) {
    j.row.leaseExpiresAt.Some? ==>
      && j.row.heartbeatAt.Some? && j.row.heartbeatAt.value <= clock
      && j.row.leaseExpiresAt == Some(j.row.heartbeatAt.value + w.leaseSeconds as real)
  }

  ghost predicate JobOk(w: World, s: System, e: nat)
    requires e < |s.jobs|
  {
    Sound(w, s.jobs[e]) && LeaseInWindow(w, s.clock, s.jobs[e]) && LeaseKnown(s, e)
  }

  predicate WorkerFits(w: World, s: System, t: nat) {
    At(s, t) && WorkerOk(w, s.clock, JobOf(s, t), t, s.workers[t])
  }

  predicate SightingFits(s: System, k: nat)
    requires k < |s.sightings|
  {
    var g := s.sightings[k];
    g.exec < |s.jobs| && TokenKnown(s, g.exec, g.token) && SightingOk(s.clock, s.jobs[g.exec], g)
  }

  ghost predicate Inv(w: World, s: System) {
    && (forall e | 0 <= e < |s.jobs| :: JobOk(w, s, e))
    && (forall t | 0 <= t < |s.workers| :: WorkerFits(w, s, t))
    && (forall k | 0 <= k < |s.sightings| :: SightingFits(s, k))
    && (forall i | 0 <= i < |s.queue| :: s.queue[i] < |s.jobs|)
    && (forall i | 0 <= i < |s.outbox| :: s.outbox[i].exec < |s.jobs|)
  }

  lemma JobFacts(w: World, s: System, e: nat)
    requires Inv(w, s) && e < |s.jobs|
    ensures Sound(w, s.jobs[e]) && Bounded(s.jobs[e])
  {
    assert JobOk(w, s, e);
  }

  /** Which execution an action writes, and as which lifecycle change. */
  function ChangeOf(w: World, s: System, a: Action): Option<(nat, Change)>
    requires Can(w, s, a)
  {
    if a.Works? then
      match WorkChange(w, s.clock, JobOf(s, a.t), a.t, s.workers[a.t], a.work)
      case None => None
      case Some(c) => Some((s.workers[a.t].exec, c))
    else if a.ReapSighted? then Some((s.sightings[a.k].exec, Change.Reap(s.sightings[a.k].at)))
    else if a.RequeueDue? then Some((a.e, Change.Requeue(s.clock)))
    else if a.RetryManually? then Some((a.e, Change.ManualRetry))
    else if a.CancelExecution? then Some((a.e, Change.Cancel(s.clock)))
    else None
  }

  /** The fresh execution an action adds, if any. */
  function Addition(w: World, s: System, a: Action): seq<Job>
    requires Can(w, s, a)
  {
    if a.Insert? then
      var c := s.callers[a.c];
      if FindKey(s.jobs, c.workflow, c.key).Some? then [] else [NewJob(c.workflow, c.trigger, c.key, c.input)]
    else if a.Tick? then
      var r := s.schedules[a.schedule];
      [NewJob(r.workflow, Schedule, ForTick(a.schedule, r.nextRunAt), TickPayload(a.schedule, r.nextRunAt))]
    else []
  }

  /** The action leaves the executions alone, adds a fresh one, or makes one enabled change. */
  ghost predicate Refines(w: World, s: System, a: Action)
    requires Can(w, s, a)
  {
    match ChangeOf(w, s, a)
    case None => Do(w, s, a).jobs == s.jobs + Addition(w, s, a)
    case Some((e, c)) =>
      e < |s.jobs| && Enabled(w, s.jobs[e], c) && Do(w, s, a).jobs == s.jobs[e := Apply(w, s.jobs[e], c)]
  }

  lemma WorksRefine(w: World, s: System, t: nat, x: Work)
    requires Inv(w, s) && Can(w, s, Works(t, x))
    ensures Refines(w, s, Works(t, x))
  {
    JobFacts(w, s, s.workers[t].exec);
    assert WorkerFits(w, s, t);
    WorkRefinesLifecycle(w, s.clock, JobOf(s, t), t, s.workers[t], x);
  }

  lemma ReapRefines(w: World, s: System, k: nat)
    requires Inv(w, s) && Can(w, s, ReapSighted(k))
    ensures Refines(w, s, ReapSighted(k))
  {
    assert SightingFits(s, k);
    ReaperDecisionStable(s.clock, s.jobs[s.sightings[k].exec], s.sightings[k]);
  }

  lemma OthersRefine(w: World, s: System, a: Action)
    requires Can(w, s, a) && !a.Works? && !a.ReapSighted?
    ensures Refines(w, s, a)
  {}

  /** The protocol refines the lifecycle: every action leaves the executions alone, adds a
      fresh one, or makes one enabled lifecycle change to one of them. */
  lemma ActionsRefineLifecycle(w: World, s: System, a: Action)
    requires Inv(w, s) && Can(w, s, a)
    ensures Refines(w, s, a)
  {
    if a.Works? {
      WorksRefine(w, s, a.t, a.work);
    } else if a.ReapSighted? {
      ReapRefines(w, s, a.k);
    } else {
      OthersRefine(w, s, a);
    }
  }

  /** Who may make a change: the lease holder its own, a claim only by a delivery still
      unclaimed, a reap only with a reading of the past. */
  predicate Authored(s: System, a: Action, e: nat, c: Change)
    requires e < |s.jobs|
  {
    && (HolderMakes(c) ==> a.Works? && Holds(s.jobs[e], a.t) && a.t < |s.workers| && s.workers[a.t].exec == e)
    && (c.Claim? ==>
          && a.Works? && c.token == a.t && a.t < |s.workers|
          && s.workers[a.t].exec == e && s.workers[a.t].phase.Popped? && a.work.Begin?)
    && (c.Renew? || c.Claim? ==> c.at == s.clock)
    && (c.FinishStep? ==>
          s.jobs[e].row.leaseExpiresAt.Some? && s.clock < s.jobs[e].row.leaseExpiresAt.value)
    && (c.Reap? ==> c.at <= s.clock)
    && (c.Cancel? ==> a.CancelExecution? && a.e == e)
  }

  lemma WorkAuthored(w: World, s: System, t: nat, x: Work)
    requires Inv(w, s) && Can(w, s, Works(t, x)) && ChangeOf(w, s, Works(t, x)).Some?
    ensures var (e, c) := ChangeOf(w, s, Works(t, x)).value; e < |s.jobs| && Authored(s, Works(t, x), e, c)
  {
    var e := s.workers[t].exec;
    JobFacts(w, s, e);
    assert WorkerFits(w, s, t);
    if IsCommit(x) {
      CommitFenced(w, s.clock, JobOf(s, t), t, s.workers[t], x);
      assert s.jobs[e].row.leaseExpiresAt == Some(s.workers[t].phase.deadline);
    }
  }

  lemma AuthorOf(w: World, s: System, a: Action)
    requires Inv(w, s) && Can(w, s, a) && ChangeOf(w, s, a).Some?
    ensures var (e, c) := ChangeOf(w, s, a).value; e < |s.jobs| && Authored(s, a, e, c)
  {
    if a.Works? {
      WorkAuthored(w, s, a.t, a.work);
    } else if a.ReapSighted? {
      assert SightingFits(s, a.k);
    }
  }

  /** What an action does to one execution: nothing, or one authored change. */
  lemma JobMoves(w: World, s: System, a: Action, e: nat) returns (c: Option<Change>)
    requires Inv(w, s) && Can(w, s, a) && e < |s.jobs|
    ensures var s' := Do(w, s, a);
            && e < |s'.jobs|
            && (c.None? ==> s'.jobs[e] == s.jobs[e])
            && (c.Some? ==>
                  && Authored(s, a, e, c.value) && Enabled(w, s.jobs[e], c.value)
                  && s'.jobs[e] == Apply(w, s.jobs[e], c.value))
  {
    ActionsRefineLifecycle(w, s, a);
    var change := ChangeOf(w, s, a);
    if change.Some? && change.value.0 == e {
      AuthorOf(w, s, a);
      c := Some(change.value.1);
    } else {
      c := None;
    }
  }

  lemma JobsOnlyGrow(w: World, s: System, a: Action)
    requires Inv(w, s) && Can(w, s, a)
    ensures |s.jobs| <= |Do(w, s, a).jobs| && Do(w, s, a).jobs[|s.jobs|..] == Addition(w, s, a)
  {
    ActionsRefineLifecycle(w, s, a);
  }

  /** What an execution was asked to do never changes, and executions never disappear. */
  lemma RequestsStand(w: World, s: System, a: Action)
    requires Inv(w, s) && Can(w, s, a)
    ensures var s' := Do(w, s, a);
            && |s.jobs| <= |s'.jobs| && s'.jobs[|s.jobs|..] == Addition(w, s, a)
            && forall e | 0 <= e < |s.jobs| ::
                 var r, r' := s.jobs[e].row, s'.jobs[e].row;
                 r'.workflow == r.workflow && r'.trigger == r.trigger && r'.key == r.key && r'.input == r.input
  {
    JobsOnlyGrow(w, s, a);
    forall e | 0 <= e < |s.jobs|
      ensures var r, r' := s.jobs[e].row, Do(w, s, a).jobs[e].row;
              r'.workflow == r.workflow && r'.trigger == r.trigger && r'.key == r.key && r'.input == r.input
    {
      var c := JobMoves(w, s, a, e);
      if c.Some? {
        RequestImmutable(w, s.jobs[e], c.value);
      }
    }
  }

  // ---- Preservation --------------------------------------------------------

  lemma TokensStayKnown(w: World, s: System, a: Action, e: nat, token: nat)
    requires Can(w, s, a) && TokenKnown(s, e, token)
    ensures TokenKnown(Do(w, s, a), e, token)
  {}

  lemma NewJobOk(w: World, s: System, a: Action)
    requires Can(w, s, a) && |Addition(w, s, a)| == 1
    ensures Sound(w, Addition(w, s, a)[0])
    ensures Addition(w, s, a)[0].row.leaseToken.None? && Addition(w, s, a)[0].row.leaseExpiresAt.None?
  {
    var r := Addition(w, s, a)[0].row;
    NewJobSound(w, r.workflow, r.trigger, r.key, r.input);
  }

  lemma TokenAfter(w: World, j: Job, c: Change)
    requires Enabled(w, j, c)
    ensures var token := Apply(w, j, c).row.leaseToken;
            token.None? || token == j.row.leaseToken || (c.Claim? && token == Some(c.token))
  {}

  lemma JobSoundKept(w: World, s: System, a: Action, e: nat)
    requires Inv(w, s) && Can(w, s, a) && e < |s.jobs| <= |Do(w, s, a).jobs|
    ensures Sound(w, Do(w, s, a).jobs[e])
  {
    var c := JobMoves(w, s, a, e);
    assert JobOk(w, s, e);
    if c.Some? {
      SoundKept(w, s.jobs[e], c.value);
    }
  }

  lemma WindowAfter(w: World, clock: Time, j: Job, c: Change)
    requires Enabled(w, j, c) && LeaseInWindow(w, clock, j) && (c.Renew? || c.Claim? ==> c.at == clock)
    ensures LeaseInWindow(w, clock, Apply(w, j, c))
  {}

  lemma WindowKept(w: World, s: System, a: Action, e: nat)
    requires Inv(w, s) && Can(w, s, a) && e < |s.jobs| <= |Do(w, s, a).jobs| && LeaseInWindow(w, s.clock, s.jobs[e])
    ensures LeaseInWindow(w, Do(w, s, a).clock, Do(w, s, a).jobs[e])
  {
    var c := JobMoves(w, s, a, e);
    if c.Some? {
      WindowAfter(w, s.clock, s.jobs[e], c.value);
    }
    assert s.clock <= Do(w, s, a).clock;
  }

  lemma LeaseStaysKnown(w: World, s: System, a: Action, e: nat)
    requires Inv(w, s) && Can(w, s, a) && e < |s.jobs| <= |Do(w, s, a).jobs| && LeaseKnown(s, e)
    ensures LeaseKnown(Do(w, s, a), e)
  {
    var c := JobMoves(w, s, a, e);
    if c.Some? {
      TokenAfter(w, s.jobs[e], c.value);
    }
    var held := s.jobs[e].row.leaseToken;
    if held.Some? {
      TokensStayKnown(w, s, a, e, held.value);
    }
  }

  lemma JobKept(w: World, s: System, a: Action, e: nat)
    requires Inv(w, s) && Can(w, s, a) && e < |Do(w, s, a).jobs|
    ensures JobOk(w, Do(w, s, a), e)
  {
    JobsOnlyGrow(w, s, a);
    if e < |s.jobs| {
      assert JobOk(w, s, e);
      JobSoundKept(w, s, a, e);
      WindowKept(w, s, a, e);
      LeaseStaysKnown(w, s, a, e);
    } else {
      NewJobOk(w, s, a);
      assert Do(w, s, a).jobs[e] == Addition(w, s, a)[0];
    }
  }

  lemma WorkerKept(w: World, s: System, a: Action, t: nat)
    requires Inv(w, s) && Can(w, s, a) && t < |Do(w, s, a).workers|
    ensures WorkerFits(w, Do(w, s, a), t)
  {
    if t >= |s.workers| {
      LeaseFacts(w, s, s.queue[0]);
      PoppedFits(w, s, t);
    } else if a.Works? && a.t == t {
      assert WorkerFits(w, s, t);
      JobFacts(w, s, s.workers[t].exec);
      WorkKeepsSelf(w, s.clock, JobOf(s, t), t, s.workers[t], a.work);
    } else {
      BystanderFits(w, s, a, t);
    }
  }

  lemma LeaseFacts(w: World, s: System, e: nat)
    requires Inv(w, s) && e < |s.jobs|
    ensures LeaseKnown(s, e) && LeaseInWindow(w, s.clock, s.jobs[e])
  {
    assert JobOk(w, s, e);
  }

  lemma TimePasses(w: World, clock: Time, clock': Time, j: Job, t: nat, wk: Worker)
    requires WorkerOk(w, clock, j, t, wk) && clock <= clock'
    ensures WorkerOk(w, clock', j, t, wk)
  {}

  lemma BystanderFits(w: World, s: System, a: Action, t: nat)
    requires Inv(w, s) && Can(w, s, a) && t < |s.workers| && !(a.Works? && a.t == t)
    ensures WorkerFits(w, Do(w, s, a), t)
  {
    assert WorkerFits(w, s, t);
    var s', e, wk := Do(w, s, a), s.workers[t].exec, s.workers[t];
    var c := JobMoves(w, s, a, e);
    if c.Some? {
      JobFacts(w, s, e);
      BystanderKept(w, s.clock, s.jobs[e], c.value, t, wk);
    }
    assert s'.workers[t] == wk && s.clock <= s'.clock;
    TimePasses(w, s.clock, s'.clock, s'.jobs[e], t, wk);
  }

  lemma PoppedFits(w: World, s: System, t: nat)
    requires s.queue != [] && t == |s.workers| && s.queue[0] < |s.jobs| && LeaseKnown(s, s.queue[0])
    ensures WorkerFits(w, Do(w, s, Pop), t)
  {}

  lemma SightingStays(w: World, s: System, a: Action, k: nat)
    requires Inv(w, s) && Can(w, s, a) && k < |Do(w, s, a).sightings|
    ensures SightingFits(Do(w, s, a), k)
  {
    if k >= |s.sightings| {
      LeaseFacts(w, s, a.e);
    } else {
      var g := s.sightings[k];
      assert SightingFits(s, k);
      TokensStayKnown(w, s, a, g.exec, g.token);
      var c := JobMoves(w, s, a, g.exec);
      if c.Some? {
        JobFacts(w, s, g.exec);
        SightingKept(w, s.clock, s.jobs[g.exec], c.value, g);
      }
      assert Do(w, s, a).sightings[k] == g && s.clock <= Do(w, s, a).clock;
    }
  }

  lemma ReferencesKept(w: World, s: System, a: Action)
    requires Inv(w, s) && Can(w, s, a)
    ensures var s' := Do(w, s, a);
            && (forall i | 0 <= i < |s'.queue| :: s'.queue[i] < |s'.jobs|)
            && (forall i | 0 <= i < |s'.outbox| :: s'.outbox[i].exec < |s'.jobs|)
  {
    JobsOnlyGrow(w, s, a);
  }

  lemma InvKept(w: World, s: System, a: Action)
    requires Inv(w, s) && Can(w, s, a)
    ensures Inv(w, Do(w, s, a))
  {
    var s' := Do(w, s, a);
    forall e | 0 <= e < |s'.jobs| ensures JobOk(w, s', e) { JobKept(w, s, a, e); }
    forall t | 0 <= t < |s'.workers| ensures WorkerFits(w, s', t) { WorkerKept(w, s, a, t); }
    forall k | 0 <= k < |s'.sightings| ensures SightingFits(s', k) { SightingStays(w, s, a, k); }
    ReferencesKept(w, s, a);
  }

  lemma {:induction false} InvAlongRun(w: World, s: System, acts: seq<Action>, s': System)
    requires Inv(w, s) && Run(w, s, acts, s')
    ensures Inv(w, s')
    decreases |acts|
  {
    if acts != [] {
      InvKept(w, s, acts[0]);
      InvAlongRun(w, Do(w, s, acts[0]), acts[1..], s');
    }
  }

  lemma InvReached(w: World, s: System, s': System)
    requires Inv(w, s) && Reaches(w, s, s')
    ensures Inv(w, s')
  {
    var acts :| Run(w, s, acts, s');
    InvAlongRun(w, s, acts, s');
  }

  lemma InvReachable(w: World, s: System)
    requires Reachable(w, s)
    ensures Inv(w, s)
  {
    var s0 :| Initial(s0) && Reaches(w, s0, s);
    InvReached(w, s0, s);
  }

  // ---- The timing assumption is exactly what fencing needs -----------------

  /** While the clock stands still, no behaviour of the others can take the row away
      from under the commit that the worker has in hand. */
  ghost predicate CommitStaysFenced(w: World, s: System, t: nat)
    requires At(s, t)
  {
    forall s' | Reaches(w, s, s') && s'.clock == s.clock && At(s', t) && s'.workers[t] == s.workers[t] ::
      Owns(JobOf(s', t), t)
  }

  /** A pending commit is fenced if and only if its deadline has not passed. */
  lemma FencingIsExact(w: World, s: System, t: nat)
    requires Reachable(w, s) && At(s, t) && Pending(s.workers[t].phase)
    ensures s.clock < s.workers[t].phase.deadline <==> CommitStaysFenced(w, s, t)
  {
    InvReachable(w, s);
    if s.clock < s.workers[t].phase.deadline {
      forall s' | Reaches(w, s, s') && s'.clock == s.clock && At(s', t) && s'.workers[t] == s.workers[t]
        ensures Owns(JobOf(s', t), t)
      {
        InvReached(w, s, s');
        assert WorkerFits(w, s', t);
        JobFacts(w, s', s'.workers[t].exec);
      }
    } else if Owns(JobOf(s, t), t) {
      var _ := ReapPastDeadline(w, s, t);
    } else {
      ReachesItself(w, s);
    }
  }

  /** A reaper that reads an expired lease now takes the row: its update matches. */
  lemma ExpiredIsReaped(w: World, s: System, e: nat) returns (s': System)
    requires e < |s.jobs| && s.jobs[e].row.status.Running? && s.jobs[e].row.leaseToken.Some?
    requires s.jobs[e].row.leaseExpiresAt.Some? && s.jobs[e].row.leaseExpiresAt.value <= s.clock
    ensures Reaches(w, s, s') && s'.clock == s.clock && s'.workers == s.workers
    ensures s'.jobs == s.jobs[e := WriteReap(s.jobs[e], s.jobs[e].row.attemptCount, s.jobs[e].row.currentStep, s.clock)]
  {
    var read := Sight(e, s.clock);
    ReachesItself(w, s);
    ReachesThen(w, s, s, read);
    var seen := Do(w, s, read);
    ReachesThen(w, s, seen, ReapSighted(|s.sightings|));
    s' := Do(w, seen, ReapSighted(|s.sightings|));
  }

  /** Past the deadline the reaper takes the row from under the commit. */
  lemma ReapPastDeadline(w: World, s: System, t: nat) returns (s': System)
    requires Inv(w, s) && At(s, t) && Pending(s.workers[t].phase)
    requires Owns(JobOf(s, t), t) && s.workers[t].phase.deadline <= s.clock
    ensures Reaches(w, s, s') && s'.clock == s.clock && At(s', t) && s'.workers == s.workers
    ensures var j := JobOf(s, t); JobOf(s', t) == WriteReap(j, j.row.attemptCount, j.row.currentStep, s.clock)
    ensures !Owns(JobOf(s', t), t)
  {
    assert WorkerFits(w, s, t);
    s' := ExpiredIsReaped(w, s, s.workers[t].exec);
  }

  lemma ReapedLog(j: Job, now: Time)
    requires LogFaithful(j) && j.row.status.Running?
    ensures var attempts := j.row.attemptCount;
            var reaped := WriteReap(j, attempts, j.row.currentStep, now);
            && Replay(reaped.audit).Some?
            && (Replay(reaped.audit).value.mode == Ready(attempts) || Replay(reaped.audit).value.mode == Dead(attempts))
  {
    var reaped := WriteReap(j, j.row.attemptCount, j.row.currentStep, now);
    Append(j.audit, reaped.audit[|j.audit|]);
  }

  lemma StaleEventUnexplained(audit: seq<Event>, e: Event, attempts: nat)
    requires audit != [] && Replay(audit).Some?
    requires Replay(audit).value.mode == Ready(attempts) || Replay(audit).value.mode == Dead(attempts)
    requires e.StepSucceededEvent? || e == ExecutionSucceeded(attempts)
             || e == ExecutionRetryScheduled(attempts) || e == ExecutionDeadLettered(attempts)
    ensures var r := Replay(audit + [e]);
            r.None? || (e.StepSucceededEvent? && r.value.mode.Busy?)
  {
    Append(audit, e);
  }

  lemma LateEvent(w: World, now: Time, r: Job, t: nat, wk: Worker, x: Work)
    requires CanWork(w, r, wk, x) && IsCommit(x) && !x.Start?
    ensures var late, a := WorkOnJob(w, now, r, t, wk, x), wk.local.attempts;
            && (x.CommitSuccess? ==> late.row.status == r.row.status)
            && |late.audit| == |r.audit| + 1 && late.audit == r.audit + [late.audit[|r.audit|]]
            && var e := late.audit[|r.audit|];
               && (e.StepSucceededEvent? <==> x.CommitSuccess?)
               && (e.StepSucceededEvent? || e == ExecutionSucceeded(a)
                   || e == ExecutionRetryScheduled(a) || e == ExecutionDeadLettered(a))
  {}

  lemma LateCommitUnexplained(w: World, now: Time, j: Job, t: nat, wk: Worker, x: Work)
    requires LogFaithful(j) && Bounded(j) && Owns(j, t)
    requires j.row.leaseExpiresAt.Some? && j.row.leaseExpiresAt.value <= now
    requires wk.local.attempts == j.row.attemptCount
    requires CanWork(w, j, wk, x) && IsCommit(x)
    ensures var reaped := WriteReap(j, j.row.attemptCount, j.row.currentStep, now);
            && CanWork(w, reaped, wk, x)
            && (LogFaithful(WorkOnJob(w, now, reaped, t, wk, x)) <==> x.Start?)
  {
    var reaped := WriteReap(j, j.row.attemptCount, j.row.currentStep, now);
    if x.Start? {
      FaithfulKept(w, j, Change.Reap(now));
    } else {
      ReapedLog(j, now);
      LateEvent(w, now, reaped, t, wk, x);
      StaleEventUnexplained(reaped.audit, WorkOnJob(w, now, reaped, t, wk, x).audit[|reaped.audit|], wk.local.attempts);
    }
  }

  /** What goes wrong otherwise: from every reachable state with an overdue commit, a run leads
      to one where the worker still goes through with it, and where it leaves an audit log that
      does not explain the row. Only the start of a step, which logs nothing, spares the log. */
  lemma LateCommitCorruptsHistory(w: World, s: System, t: nat, x: Work) returns (s': System)
    requires Reachable(w, s) && At(s, t) && Pending(s.workers[t].phase)
    requires Owns(JobOf(s, t), t) && s.workers[t].phase.deadline <= s.clock
    requires CanWork(w, JobOf(s, t), s.workers[t], x) && IsCommit(x)
    ensures Reaches(w, s, s') && s'.clock == s.clock && At(s', t) && s'.workers == s.workers
    ensures CanWork(w, JobOf(s', t), s'.workers[t], x)
    ensures LogFaithful(WorkOnJob(w, s'.clock, JobOf(s', t), t, s'.workers[t], x)) <==> x.Start?
  {
    InvReachable(w, s);
    JobFacts(w, s, s.workers[t].exec);
    assert WorkerFits(w, s, t);
    s' := ReapPastDeadline(w, s, t);
    LateCommitUnexplained(w, s.clock, JobOf(s, t), t, s.workers[t], x);
  }

  lemma WorkerLoads(w: World, s0: System, workflow: Workflow, key: Key) returns (s: System)
    requires Initial(s0)
    ensures Reaches(w, s0, s) && At(s, 0) && Owns(JobOf(s, 0), 0) && JobOf(s, 0).row.workflow == workflow
    ensures s.workers[0].phase.AtStep? && s.workers[0].local.index == 0
  {
    s := FirstDelivery(w, s0, workflow, key);
    ReachesThen(w, s0, s, Works(0, Begin("")));
    s := Do(w, s, Works(0, Begin("")));
    ReachesThen(w, s0, s, Works(0, LoadRow));
    s := Do(w, s, Works(0, LoadRow));
  }

  /** Overdue commits are real: nothing but time has to pass after a renewal. */
  lemma OverdueCommitIsReachable(w: World, s0: System, workflow: Workflow, key: Key) returns (s: System)
    requires Initial(s0)
    ensures Reaches(w, s0, s) && At(s, 0) && Owns(JobOf(s, 0), 0) && JobOf(s, 0).row.workflow == workflow
    ensures Pending(s.workers[0].phase) && s.workers[0].phase.deadline <= s.clock
    ensures workflow.steps == [] ==> s.workers[0].phase.Completing?
  {
    s := WorkerLoads(w, s0, workflow, key);
    ReachesThen(w, s0, s, Works(0, RenewAtStep));
    s := Do(w, s, Works(0, RenewAtStep));
    var wait := AdvanceClock(s.clock + w.leaseSeconds as real);
    ReachesThen(w, s0, s, wait);
    s := Do(w, s, wait);
  }

  /** The failure model document's promise fails on the smallest workflow: one request, one
      worker that commits its success too late, and one reaper. */
  lemma LateSuccessHappens(w: World, s0: System, workflow: Workflow, key: Key)
    requires Initial(s0) && workflow.steps == []
    ensures exists s :: Reaches(w, s0, s) && At(s, 0) && CanWork(w, JobOf(s, 0), s.workers[0], CommitCompletion)
                        && !LogFaithful(WorkOnJob(w, s.clock, JobOf(s, 0), 0, s.workers[0], CommitCompletion))
  {
    var s := OverdueCommitIsReachable(w, s0, workflow, key);
    var s' := LateCommitCorruptsHistory(w, s, 0, CommitCompletion);
    ReachesCompose(w, s0, s, s');
  }
}
