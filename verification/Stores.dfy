/** The database and the queue as one mutable store, shared by every process. */
module Stores {
  import opened Models
  import opened Lifecycle
  import opened Protocol
  import opened Fencing

  // ---- What every run keeps ------------------------------------------------

  /** Facts about an earlier state that no later action of anybody undoes. */
  ghost predicate Later(s: System, s': System) {
    && s.clock <= s'.clock
    && |s.jobs| <= |s'.jobs|
    && (forall e | 0 <= e < |s.jobs| ::
          && s'.jobs[e].row.workflow == s.jobs[e].row.workflow && s'.jobs[e].row.key == s.jobs[e].row.key
          && s'.jobs[e].row.input == s.jobs[e].row.input)
    && |s.outbox| <= |s'.outbox|
    && (forall i | 0 <= i < |s.outbox| ::
          s'.outbox[i].exec == s.outbox[i].exec && s'.outbox[i].sends >= s.outbox[i].sends)
    && |s.schedules| <= |s'.schedules|
    && (forall i | 0 <= i < |s.schedules| ::
          s'.schedules[i].enabled == s.schedules[i].enabled && s'.schedules[i].nextRunAt >= s.schedules[i].nextRunAt)
    && s.sightings <= s'.sightings
    && |s.workers| <= |s'.workers| && |s.callers| <= |s'.callers|
  }

  lemma ActionIsLater(w: World, s: System, a: Action)
    requires Inv(w, s) && Can(w, s, a)
    ensures Later(s, Do(w, s, a))
  {
    RequestsStand(w, s, a);
  }

  lemma {:induction false} RunIsLater(w: World, s: System, acts: seq<Action>, s': System)
    requires Inv(w, s) && Run(w, s, acts, s')
    ensures Later(s, s')
    decreases |acts|
  {
    if acts != [] {
      ActionIsLater(w, s, acts[0]);
      InvKept(w, s, acts[0]);
      RunIsLater(w, Do(w, s, acts[0]), acts[1..], s');
    }
  }

  /** What a run of other processes gives: the invariant, and nothing undone. */
  lemma AfterOthers(w: World, s: System, s': System)
    requires Inv(w, s) && Reaches(w, s, s')
    ensures Inv(w, s') && Later(s, s')
  {
    InvReached(w, s, s');
    var acts :| Run(w, s, acts, s');
    RunIsLater(w, s, acts, s');
  }

  // ---- Who is running ------------------------------------------------------

  /** The process a method stands for; a scheduler or an operator has no place in the state. */
  datatype Process = Someone | WorkerOf(t: nat) | CallerOf(c: nat)

  predicate Moves(p: Process, a: Action) {
    match p
    case Someone => false
    case WorkerOf(t) => a.Works? && a.t == t
    case CallerOf(c) => (a.Insert? || a.Recover?) && a.c == c
  }

  predicate LocalStateKept(p: Process, s: System, s': System) {
    match p
    case Someone => true
    case WorkerOf(t) => t < |s.workers| ==> t < |s'.workers| && s'.workers[t] == s.workers[t]
    case CallerOf(c) => c < |s.callers| ==> c < |s'.callers| && s'.callers[c] == s.callers[c]
  }

  lemma ActionKeepsLocalState(w: World, p: Process, s: System, a: Action)
    requires Can(w, s, a) && !Moves(p, a)
    ensures LocalStateKept(p, s, Do(w, s, a))
    ensures |s.workers| <= |Do(w, s, a).workers| && |s.callers| <= |Do(w, s, a).callers|
  {}

  /** The rely condition of `Store.Others` is what the others guarantee: no run in which the
      process itself does not move touches its private state. */
  lemma {:induction false} OthersKeepLocalState(w: World, p: Process, s: System, acts: seq<Action>, s': System)
    requires Run(w, s, acts, s') && forall i | 0 <= i < |acts| :: !Moves(p, acts[i])
    ensures LocalStateKept(p, s, s')
    decreases |acts|
  {
    if acts != [] {
      ActionKeepsLocalState(w, p, s, acts[0]);
      OthersKeepLocalState(w, p, Do(w, s, acts[0]), acts[1..], s');
    }
  }

  class Store {
    const world: World
    /** True when no other process runs: then a method's effect is stated exactly. */
    ghost const alone: bool

    var clock: Time
    var jobs: seq<Job>
    var outbox: seq<OutboxRow>
    var queue: seq<nat>
    var schedules: seq<ScheduleRow>
    // Private state of the other processes, and of the running one as they see it.
    ghost var workers: seq<Worker>
    ghost var sightings: seq<Sighting>
    ghost var callers: seq<Caller>

    constructor (world: World, ghost alone: bool)
      ensures this.world == world && this.alone == alone
      ensures Initial(View()) && Reachable(world, View())
    {
      this.world, this.alone := world, alone;
      clock := 0.0;
      jobs, outbox, queue, schedules := [], [], [], [];
      workers, sightings, callers := [], [], [];
      new;
      ReachesItself(world, View());
    }

    ghost function View(): System
      reads this
    {
      System(clock, jobs, outbox, queue, schedules, workers, sightings, callers)
    }

    /** A run of the protocol led here from the reachable state `s`. */
    ghost predicate From(s: System)
      reads this
    {
      Reachable(world, s) && Reaches(world, s, View())
    }

    /** Between two commits every other process may take any number of actions and time
        passes. Callers learn only this contract; standing still is one way to meet it. */
    method Others(ghost p: Process)
      modifies this
      ensures Reaches(world, old(View()), View())
      ensures LocalStateKept(p, old(View()), View())
      ensures alone ==> View() == old(View())
    {
      ReachesItself(world, View());
    }

    /** The same between a renewal and the commit that relies on it: by the timing
        assumption the clock does not reach the deadline there. */
    method OthersBefore(ghost p: Process, ghost deadline: Time)
      requires clock < deadline
      modifies this
      ensures Reaches(world, old(View()), View())
      ensures LocalStateKept(p, old(View()), View())
      ensures clock < deadline
      ensures alone ==> View() == old(View())
    {
      ReachesItself(world, View());
    }
  }

  /** What is reached from a reachable state is reachable, so the invariant holds there. */
  lemma InvNow(w: World, origin: System, s: System)
    requires Reachable(w, origin) && Reaches(w, origin, s)
    ensures Reachable(w, s) && Inv(w, s)
  {
    var s0 :| Initial(s0) && Reaches(w, s0, origin);
    ReachesCompose(w, s0, origin, s);
    InvReachable(w, s);
  }

  /** One more action of the running method. */
  lemma Took(w: World, origin: System, s: System, a: Action, s': System)
    requires Reaches(w, origin, s) && Can(w, s, a) && s' == Do(w, s, a)
    ensures Reaches(w, origin, s')
  {
    ReachesThen(w, origin, s, a);
  }

  /** The actions of the others. */
  lemma OthersTook(w: World, origin: System, s: System, s': System)
    requires Reachable(w, origin) && Reaches(w, origin, s) && Reaches(w, s, s')
    ensures Reaches(w, origin, s') && Later(s, s')
  {
    ReachesCompose(w, origin, s, s');
    InvNow(w, origin, s);
    AfterOthers(w, s, s');
  }
}
