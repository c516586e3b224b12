/** The scheduler side (app/services/scheduling.py): four loops over fetched rows, one
    commit per row, racing the workers and each other. The rows a SELECT returned are a
    parameter, described by what the query asks for. */
module Scheduling {
  import opened Json
  import opened Models
  import opened Columns
  import opened Lifecycle
  import opened Protocol
  import opened Fencing
  import opened Guarantees
  import opened Stores
  import opened Schedules

  predicate Distinct(rows: seq<nat>) {
    forall i, k | 0 <= i < k < |rows| :: rows[i] != rows[k]
  }

  // ---- What a pass does while others run -----------------------------------

  /** The rows a pass took itself: distinct ones of those it has handled, each with its event
      in the log. */
  ghost predicate TookRows(before: System, now: System, handled: seq<nat>, taken: seq<nat>, kind: Event -> bool) {
    && Distinct(taken)
    && forall m | 0 <= m < |taken| :: taken[m] in handled && LoggedSince(before, now, taken[m], kind)
  }

  lemma TookMore(w: World, before: System, s: System, now: System, rows: seq<nat>, n: nat, taken: seq<nat>,
                 kind: Event -> bool, done: bool)
    requires Reachable(w, s) && Reaches(w, s, now)
    requires n < |rows| && Distinct(rows) && TookRows(before, s, rows[..n], taken, kind)
    requires done ==> LoggedSince(before, now, rows[n], kind)
    ensures TookRows(before, now, rows[..n + 1], if done then taken + [rows[n]] else taken, kind)
  {
    assert rows[..n + 1] == rows[..n] + [rows[n]];
    forall m | 0 <= m < |taken| ensures LoggedSince(before, now, taken[m], kind) {
      StillLogged(w, before, s, now, taken[m], kind);
    }
  }

  // ---- reap_expired_executions ---------------------------------------------

  predicate Expired(r: Execution, now: Time) {
    r.status.Running? && r.leaseExpiresAt.Some? && r.leaseExpiresAt.value <= now
  }

  /** The first `n` of the given rows rewritten by `f`. */
  function Rewritten(jobs: seq<Job>, rows: seq<nat>, n: nat, f: Job -> Job): (jobs': seq<Job>)
    requires n <= |rows| && forall i | 0 <= i < |rows| :: rows[i] < |jobs|
    ensures |jobs'| == |jobs|
  {
    if n == 0 then jobs else Rewritten(jobs, rows, n - 1, f)[rows[n - 1] := f(jobs[rows[n - 1]])]
  }

  /** One new outbox row for each of the first `n` rows that `p` asks for. */
  function NewRows(jobs: seq<Job>, rows: seq<nat>, n: nat, p: Job -> bool): seq<OutboxRow>
    requires n <= |rows| && forall i | 0 <= i < |rows| :: rows[i] < |jobs|
  {
    if n == 0 then [] else
    NewRows(jobs, rows, n - 1, p) + if p(jobs[rows[n - 1]]) then [NewOutboxRow(rows[n - 1])] else []
  }

  /** Rewriting distinct rows touches each once, from its original, and nothing else. */
  lemma {:induction false} RewrittenAt(jobs: seq<Job>, rows: seq<nat>, n: nat, f: Job -> Job, e: nat)
    requires n <= |rows| && Distinct(rows) && forall i | 0 <= i < |rows| :: rows[i] < |jobs|
    requires e < |jobs|
    ensures Rewritten(jobs, rows, n, f)[e] == if e in rows[..n] then f(jobs[e]) else jobs[e]
  {
    if n > 0 {
      RewrittenAt(jobs, rows, n - 1, f, e);
      assert rows[..n] == rows[..n - 1] + [rows[n - 1]];
    }
  }

  function ReapBy(now: Time): Job -> Job {
    (j: Job) => WriteReap(j, j.row.attemptCount, j.row.currentStep, now)
  }

  function RequeuedByReap(): Job -> bool {
    (j: Job) => ReapRequeues(j, j.row.attemptCount)
  }

  /** Nothing shared has changed. */
  predicate OnlyRead(s: System, s': System) {
    && s'.clock == s.clock && s'.jobs == s.jobs && s'.outbox == s.outbox
    && s'.queue == s.queue && s'.schedules == s.schedules
  }

  /** Reading rows: the ORM objects of one SELECT, or one refreshed row. */
  method ReadRow(store: Store, e: nat, now: Time, ghost origin: System) returns (seen: Option<Sighting>)
    requires store.From(origin) && e < |store.jobs| && now <= store.clock
    modifies store
    ensures store.From(origin)
    ensures OnlyRead(old(store.View()), store.View())
    ensures seen.Some? <==> store.jobs[e].row.leaseToken.Some?
    ensures seen.Some? ==> seen.value in store.sightings
    ensures seen.Some? ==> var r := store.jobs[e].row;
                           seen.value == Sighting(e, r.leaseToken.value, r.attemptCount, r.currentStep, now)
    ensures old(store.sightings) <= store.sightings
  {
    ghost var before := store.View();
    var r := store.jobs[e].row;
    if r.leaseToken.None? {
      return None;
    }
    seen := Some(Sighting(e, r.leaseToken.value, r.attemptCount, r.currentStep, now));
    store.sightings := store.sightings + [seen.value];
    assert store.sightings[|before.sightings|] == seen.value;
    Took(store.world, origin, before, Sight(e, now), store.View());
  }

  lemma SightingNow(w: World, origin: System, s: System, k: nat)
    requires Reachable(w, origin) && Reaches(w, origin, s) && k < |s.sightings|
    ensures var g := s.sightings[k];
            && g.exec < |s.jobs|
            && (ReapMatches(s.jobs[g.exec].row, g) ==>
                  g.attempts == s.jobs[g.exec].row.attemptCount && g.step == s.jobs[g.exec].row.currentStep)
  {
    InvNow(w, origin, s);
    assert SightingFits(s, k);
  }

  /** The reaper's conditional update with its outbox row or failure record, in one commit. */
  method ReapOne(store: Store, g: Sighting, ghost origin: System) returns (reaped: bool)
    requires store.From(origin) && g in store.sightings
    modifies store
    ensures store.From(origin) && g.exec < |store.jobs| && |store.jobs| == old(|store.jobs|)
    ensures reaped == ReapMatches(old(store.jobs[g.exec]).row, g)
    ensures !reaped ==> store.View() == old(store.View())
    ensures reaped ==>
              var j := old(store.jobs[g.exec]);
              && g.attempts == j.row.attemptCount && g.step == j.row.currentStep
              && store.jobs == old(store.jobs)[g.exec := ReapBy(g.at)(j)]
              && store.outbox == old(store.outbox) + if RequeuedByReap()(j) then [NewOutboxRow(g.exec)] else []
    ensures reaped ==>
              && ReapColumns(old(store.jobs[g.exec]), store.jobs[g.exec], g.at)
              && if store.jobs[g.exec].row.status.Queued? then AddsOutboxRow(old(store.outbox), store.outbox, g.exec)
                 else store.outbox == old(store.outbox)
    ensures store.clock == old(store.clock) && store.sightings == old(store.sightings)
    ensures store.queue == old(store.queue) && store.schedules == old(store.schedules)
  {
    ghost var before := store.View();
    ghost var k :| 0 <= k < |store.sightings| && store.sightings[k] == g;
    SightingNow(store.world, origin, before, k);
    var j := store.jobs[g.exec];
    var retryable := g.attempts < j.row.workflow.maxAttempts;
    reaped := j.row.status.Running? && j.row.leaseToken == Some(g.token)
              && j.row.leaseExpiresAt.Some? && j.row.leaseExpiresAt.value <= g.at;
    if !reaped {
      return;
    }
    var row := ClearLease(j.row).(status := if retryable then Queued else DeadLetter,
                                  finishedAt := if retryable then None else Some(g.at),
                                  lastErrorCode := Some(LEASE_EXPIRED),
                                  lastErrorMessage := Some(LEASE_EXPIRED_MESSAGE));
    if retryable {
      store.jobs := store.jobs[g.exec := j.(row := row, audit := j.audit + [LeaseRequeued(g.attempts)],
                                            dispatches := j.dispatches + 1)];
      store.outbox := store.outbox + [NewOutboxRow(g.exec)];
    } else {
      var failure := FailureRecord(g.step, true, LEASE_EXPIRED, LEASE_EXPIRED_MESSAGE);
      store.jobs := store.jobs[g.exec := j.(row := row, audit := j.audit + [LeaseDeadLettered(g.attempts)],
                                            failures := j.failures + [failure])];
    }
    Took(store.world, origin, before, ReapSighted(k), store.View());
    assert store.jobs[g.exec] == WriteReap(j, g.attempts, g.step, g.at);
    ReapLeaves(j, g.at);
  }

  /** `g` is what the row of execution `e` shows. */
  predicate ReadsAs(jobs: seq<Job>, e: nat, now: Time, g: Sighting) {
    && e < |jobs| && jobs[e].row.leaseToken.Some?
    && g == Sighting(e, jobs[e].row.leaseToken.value, jobs[e].row.attemptCount, jobs[e].row.currentStep, now)
  }

  /** The executions a query returned, as loaded objects. */
  method ReadBatch(store: Store, fetched: seq<nat>, now: Time, ghost origin: System) returns (seen: seq<Sighting>)
    requires store.From(origin) && now == store.clock
    requires forall i | 0 <= i < |fetched| :: fetched[i] < |store.jobs| && Expired(store.jobs[fetched[i]].row, now)
    modifies store
    ensures store.From(origin)
    ensures OnlyRead(old(store.View()), store.View())
    ensures |seen| == |fetched|
    ensures forall i | 0 <= i < |seen| :: seen[i] in store.sightings && ReadsAs(store.jobs, fetched[i], now, seen[i])
  {
    seen := [];
    for i := 0 to |fetched|
      invariant store.From(origin)
      invariant OnlyRead(old(store.View()), store.View())
      invariant |seen| == i
      invariant forall m | 0 <= m < i :: seen[m] in store.sightings && ReadsAs(store.jobs, fetched[m], now, seen[m])
    {
      RunningHasToken(store.world, origin, store.View(), fetched[i]);
      var row := ReadRow(store, fetched[i], now, origin);
      seen := seen + [row.value];
    }
  }

  lemma RunningHasToken(w: World, origin: System, s: System, e: nat)
    requires Reachable(w, origin) && Reaches(w, origin, s)
    requires e < |s.jobs| && s.jobs[e].row.status.Running?
    ensures s.jobs[e].row.leaseToken.Some?
  {
    InvNow(w, origin, s);
    JobFacts(w, s, e);
  }

  predicate IsLeaseEvent(e: Event) {
    e.LeaseRequeued? || e.LeaseDeadLettered?
  }

  lemma ReapIsLogged(w: World, origin: System, s: System, s': System, e: nat, now: Time)
    requires Reachable(w, origin) && Reaches(w, origin, s) && e < |origin.jobs| && e < |s.jobs|
    requires s'.jobs == s.jobs[e := ReapBy(now)(s.jobs[e])]
    ensures LoggedSince(origin, s', e, IsLeaseEvent)
  {
    ProgressNeverLost(w, origin, s, e);
    assert IsLeaseEvent(s'.jobs[e].audit[|s.jobs[e].audit|]);
  }

  /** One turn of the reaping loop. Whoever else runs, the lease that was loaded is settled
      afterwards: it is gone, or it has been renewed beyond the pass's `now`. */
  method ReapNext(store: Store, e: nat, loaded: Sighting, stale: bool, now: Time, ghost origin: System)
    returns (done: bool, stale': bool)
    requires store.From(origin) && e < |origin.jobs| && e < |store.jobs| && now <= store.clock
    requires loaded in store.sightings && loaded.exec == e && loaded.at == now
    modifies store
    ensures store.From(origin) && store.From(old(store.View()))
    ensures e < |store.jobs| && now <= store.clock && |store.jobs| >= old(|store.jobs|)
    ensures old(store.sightings) <= store.sightings
    ensures stale' ==> stale || !done
    ensures !ReapMatches(store.jobs[e].row, loaded)
    ensures done ==> LoggedSince(origin, store.View(), e, IsLeaseEvent)
    ensures store.alone && !stale && ReadsAs(old(store.jobs), e, now, loaded)
            && Expired(old(store.jobs[e]).row, now) ==>
              && done && !stale' && store.clock == old(store.clock)
              && store.queue == old(store.queue) && store.schedules == old(store.schedules)
              && store.jobs == old(store.jobs)[e := ReapBy(now)(old(store.jobs[e]))]
              && store.outbox == old(store.outbox)
                                 + if RequeuedByReap()(old(store.jobs[e])) then [NewOutboxRow(e)] else []
  {
    ghost var s := store.View();
    InvNow(store.world, origin, s);
    store.Others(Someone);
    AfterOthers(store.world, s, store.View());
    done, stale' := false, stale;
    var g := Some(loaded);
    if stale {
      g := ReadRow(store, e, now, s);
    }
    if g.Some? {
      ghost var m := store.View();
      ReachesCompose(store.world, origin, s, m);
      done := ReapOne(store, g.value, s);
      stale' := stale || !done;
      if done {
        ReapIsLogged(store.world, origin, m, store.View(), e, now);
      }
    }
    ReachesCompose(store.world, origin, s, store.View());
  }

  /** The first `n` fetched executions reaped by the rows of `before`, and nothing else done. */
  ghost predicate ReapedFirst(before: System, now: System, fetched: seq<nat>, n: nat)
    requires n <= |fetched| && forall i | 0 <= i < |fetched| :: fetched[i] < |before.jobs|
  {
    && now.clock == before.clock && now.queue == before.queue && now.schedules == before.schedules
    && now.jobs == Rewritten(before.jobs, fetched, n, ReapBy(before.clock))
    && now.outbox == before.outbox + NewRows(before.jobs, fetched, n, RequeuedByReap())
  }

  lemma ReapedOneMore(before: System, s: System, now: System, fetched: seq<nat>, n: nat)
    requires n < |fetched| && Distinct(fetched) && forall i | 0 <= i < |fetched| :: fetched[i] < |before.jobs|
    requires ReapedFirst(before, s, fetched, n)
    ensures |s.jobs| == |before.jobs| && s.jobs[fetched[n]] == before.jobs[fetched[n]]
    ensures var e := fetched[n];
            now.jobs == s.jobs[e := ReapBy(before.clock)(s.jobs[e])]
            && now.outbox == s.outbox + (if RequeuedByReap()(s.jobs[e]) then [NewOutboxRow(e)] else [])
            && now.clock == s.clock && now.queue == s.queue && now.schedules == s.schedules
            ==> ReapedFirst(before, now, fetched, n + 1)
  {
    RewrittenAt(before.jobs, fetched, n, ReapBy(before.clock), fetched[n]);
  }

  /** The first `n` of the leases read have been settled. */
  ghost predicate Settled(now: System, seen: seq<Sighting>, n: nat)
    requires n <= |seen|
  {
    forall m | 0 <= m < n :: seen[m].exec < |now.jobs| && !ReapMatches(now.jobs[seen[m].exec].row, seen[m])
  }

  lemma StillSettled(w: World, s: System, s': System, seen: seq<Sighting>, n: nat)
    requires Reachable(w, s) && Reaches(w, s, s') && n <= |seen| && Settled(s, seen, n)
    requires forall m | 0 <= m < n :: seen[m] in s.sightings
    ensures Settled(s', seen, n)
  {
    InvReachable(w, s);
    var acts :| Run(w, s, acts, s');
    forall m | 0 <= m < n
      ensures seen[m].exec < |s'.jobs| && !ReapMatches(s'.jobs[seen[m].exec].row, seen[m])
    {
      MissedForGood(w, s, acts, s', seen[m]);
    }
  }

  /** The lease that execution `e` showed in `before` has not outlived the pass unrenewed. */
  ghost predicate LeaseSettled(before: System, now: System, e: nat) {
    && e < |now.jobs|
    && forall g | ReadsAs(before.jobs, e, before.clock, g) :: !ReapMatches(now.jobs[e].row, g)
  }

  /** Where a pass of the reaper stands after `n` rows. */
  ghost predicate ReapPass(before: System, now: System, fetched: seq<nat>, seen: seq<Sighting>, n: nat,
                           taken: seq<nat>)
    requires n <= |fetched| == |seen|
  {
    TookRows(before, now, fetched[..n], taken, IsLeaseEvent) && Settled(now, seen, n)
  }

  lemma ReapPassGoesOn(w: World, before: System, s: System, now: System, fetched: seq<nat>, seen: seq<Sighting>,
                       n: nat, taken: seq<nat>, done: bool)
    requires Reachable(w, s) && Reaches(w, s, now) && Distinct(fetched) && n < |fetched| == |seen|
    requires ReapPass(before, s, fetched, seen, n, taken)
    requires forall m | 0 <= m < n :: seen[m] in s.sightings
    requires seen[n].exec < |now.jobs| && !ReapMatches(now.jobs[seen[n].exec].row, seen[n])
    requires done ==> LoggedSince(before, now, fetched[n], IsLeaseEvent)
    ensures ReapPass(before, now, fetched, seen, n + 1, if done then taken + [fetched[n]] else taken)
  {
    TookMore(w, before, s, now, fetched, n, taken, IsLeaseEvent, done);
    StillSettled(w, s, now, seen, n);
  }

  /** The objects read, one per fetched row, as long as no miss has expired them. */
  ghost predicate ReadOf(before: System, sightings: seq<Sighting>, fetched: seq<nat>, seen: seq<Sighting>) {
    && |seen| == |fetched|
    && forall i | 0 <= i < |fetched| ::
         && fetched[i] < |before.jobs| && Expired(before.jobs[fetched[i]].row, before.clock)
         && seen[i] in sightings && ReadsAs(before.jobs, fetched[i], before.clock, seen[i])
  }

  /** `reap_expired_executions`. After a conditional update that missed, the session is rolled
      back, which expires the loaded objects: later rows are read afresh when touched. Whoever
      else runs, no fetched lease is left expired, and the count is that of the executions the
      pass reaped itself. */
  method ReapExpiredExecutions(store: Store, fetched: seq<nat>) returns (reaped: nat, ghost taken: seq<nat>)
    requires Reachable(store.world, store.View()) && Distinct(fetched)
    requires forall i | 0 <= i < |fetched| ::
               fetched[i] < |store.jobs| && Expired(store.jobs[fetched[i]].row, store.clock)
    modifies store
    ensures store.From(old(store.View()))
    ensures reaped == |taken| && TookRows(old(store.View()), store.View(), fetched, taken, IsLeaseEvent)
    ensures forall i | 0 <= i < |fetched| :: LeaseSettled(old(store.View()), store.View(), fetched[i])
    ensures store.alone ==> reaped == |fetched| && ReapedFirst(old(store.View()), store.View(), fetched, |fetched|)
  {
    ghost var before := store.View();
    ReachesItself(store.world, before);
    var now := store.clock;
    var seen := ReadBatch(store, fetched, now, before);
    reaped, taken := ReapLoaded(store, fetched, seen, now, before);
    forall i | 0 <= i < |fetched| ensures LeaseSettled(before, store.View(), fetched[i]) {
      assert ReadsAs(before.jobs, fetched[i], now, seen[i]);
    }
    assert fetched[..|fetched|] == fetched;
  }

  method ReapLoaded(store: Store, fetched: seq<nat>, seen: seq<Sighting>, now: Time, ghost before: System)
    returns (reaped: nat, ghost taken: seq<nat>)
    requires store.From(before) && Distinct(fetched) && now == store.clock == before.clock
    requires OnlyRead(before, store.View())
    requires ReadOf(before, store.sightings, fetched, seen)
    modifies store
    ensures store.From(before)
    ensures reaped == |taken| && ReapPass(before, store.View(), fetched, seen, |fetched|, taken)
    ensures store.alone ==> reaped == |fetched| && ReapedFirst(before, store.View(), fetched, |fetched|)
  {
    reaped, taken := 0, [];
    var stale := false;
    for i := 0 to |fetched|
      invariant store.From(before) && now <= store.clock && |store.jobs| >= |before.jobs|
      invariant reaped == |taken| && ReapPass(before, store.View(), fetched, seen, i, taken)
      invariant old(store.sightings) <= store.sightings
      invariant store.alone ==> !stale && reaped == i && ReapedFirst(before, store.View(), fetched, i)
    {
      var done;
      done, stale, taken := ReapTurn(store, fetched, seen, i, stale, now, taken, before);
      if done {
        reaped := reaped + 1;
      }
    }
  }

  method ReapTurn(store: Store, fetched: seq<nat>, seen: seq<Sighting>, i: nat, stale: bool, now: Time,
                  ghost taken: seq<nat>, ghost before: System)
    returns (done: bool, stale': bool, ghost taken': seq<nat>)
    requires store.From(before) && now == before.clock <= store.clock && |store.jobs| >= |before.jobs|
    requires i < |fetched| && Distinct(fetched) && ReadOf(before, store.sightings, fetched, seen)
    requires ReapPass(before, store.View(), fetched, seen, i, taken)
    requires store.alone ==> !stale && ReapedFirst(before, store.View(), fetched, i)
    modifies store
    ensures store.From(before) && now <= store.clock && |store.jobs| >= |before.jobs|
    ensures old(store.sightings) <= store.sightings
    ensures |taken'| == |taken| + if done then 1 else 0
    ensures ReapPass(before, store.View(), fetched, seen, i + 1, taken')
    ensures store.alone ==> done && !stale' && ReapedFirst(before, store.View(), fetched, i + 1)
  {
    ghost var s := store.View();
    InvNow(store.world, before, s);
    if store.alone {
      ReapedOneMore(before, s, s, fetched, i);
    }
    done, stale' := ReapNext(store, fetched[i], seen[i], stale, now, before);
    if store.alone {
      ReapedOneMore(before, s, store.View(), fetched, i);
    }
    ReapPassGoesOn(store.world, before, s, store.View(), fetched, seen, i, taken, done);
    taken' := if done then taken + [fetched[i]] else taken;
  }

  // ---- prepare_due_retries -------------------------------------------------

  function RequeueBy(): Job -> Job {
    (j: Job) => WriteRequeue(j)
  }

  function Always(): Job -> bool {
    (j: Job) => true
  }

  ghost predicate RequeuedFirst(before: System, now: System, fetched: seq<nat>, n: nat)
    requires n <= |fetched| && forall i | 0 <= i < |fetched| :: fetched[i] < |before.jobs|
  {
    && now.clock == before.clock && now.queue == before.queue && now.schedules == before.schedules
    && now.jobs == Rewritten(before.jobs, fetched, n, RequeueBy())
    && now.outbox == before.outbox + NewRows(before.jobs, fetched, n, Always())
  }

  lemma RequeuedOneMore(before: System, s: System, now: System, fetched: seq<nat>, n: nat)
    requires n < |fetched| && Distinct(fetched) && forall i | 0 <= i < |fetched| :: fetched[i] < |before.jobs|
    requires RequeuedFirst(before, s, fetched, n)
    ensures |s.jobs| == |before.jobs| && s.jobs[fetched[n]] == before.jobs[fetched[n]]
    ensures now.jobs == s.jobs[fetched[n] := RequeueBy()(s.jobs[fetched[n]])]
            && now.outbox == s.outbox + [NewOutboxRow(fetched[n])]
            && now.clock == s.clock && now.queue == s.queue && now.schedules == s.schedules
            ==> RequeuedFirst(before, now, fetched, n + 1)
  {
    RewrittenAt(before.jobs, fetched, n, RequeueBy(), fetched[n]);
  }

  /** The conditional update of one due retry, its audit event and its outbox row. */
  method CommitRequeue(store: Store, e: nat, now: Time, ghost before: System) returns (done: bool)
    requires store.From(before) && e < |store.jobs| && now <= store.clock
    modifies store
    ensures store.From(before) && store.clock == old(store.clock)
    ensures store.queue == old(store.queue) && store.schedules == old(store.schedules)
    ensures done == RetryDue(old(store.jobs)[e].row, now)
    ensures if done
            then && store.jobs == old(store.jobs)[e := WriteRequeue(old(store.jobs)[e])]
                 && store.outbox == old(store.outbox) + [NewOutboxRow(e)]
            else store.View() == old(store.View())
    ensures done ==>
              && RequeueColumns(old(store.jobs)[e], store.jobs[e])
              && AddsOutboxRow(old(store.outbox), store.outbox, e)
  {
    ghost var s := store.View();
    var j := store.jobs[e];
    done := j.row.status.RetryScheduled? && j.row.nextRetryAt.Some? && j.row.nextRetryAt.value <= now;
    if done {
      store.jobs := store.jobs[e := j.(row := j.row.(status := Queued, nextRetryAt := None),
                                       audit := j.audit + [ExecutionRequeued(j.row.attemptCount)],
                                       dispatches := j.dispatches + 1)];
      store.outbox := store.outbox + [NewOutboxRow(e)];
      Took(store.world, before, s, RequeueDue(e), store.View());
    }
  }

  predicate IsRequeue(e: Event) {
    e.ExecutionRequeued?
  }

  /** A retry that was due and is not any more has been requeued or cancelled since. */
  lemma WaitIsOver(w: World, before: System, s: System, e: nat)
    requires Reachable(w, before) && Reaches(w, before, s) && e < |before.jobs| && e < |s.jobs|
    requires RetryDue(before.jobs[e].row, before.clock) && !RetryDue(s.jobs[e].row, before.clock)
    ensures LoggedSince(before, s, e, LeavesWaiting)
  {
    var acts :| Run(w, before, acts, s);
    WaitsUntilLogged(w, before, acts, s, e);
  }

  lemma RequeueIsLogged(w: World, before: System, s: System, e: nat)
    requires Reachable(w, before) && Reaches(w, before, s) && e < |before.jobs| && e < |s.jobs|
    requires RetryDue(before.jobs[e].row, before.clock) && !RetryDue(s.jobs[e].row, before.clock)
    requires s.jobs[e].audit != [] && IsRequeue(s.jobs[e].audit[|s.jobs[e].audit| - 1])
    ensures LoggedSince(before, s, e, IsRequeue)
  {
    WaitIsOver(w, before, s, e);
  }

  /** One turn of the loop, with time for everybody else before its commit. */
  method RequeueNext(store: Store, e: nat, now: Time) returns (done: bool)
    requires Reachable(store.world, store.View()) && e < |store.jobs| && now <= store.clock
    modifies store
    ensures store.From(old(store.View()))
    ensures now <= store.clock && |store.jobs| >= old(|store.jobs|)
    ensures done ==>
              var j := store.jobs[e];
              && j.row.status.Queued? && j.row.nextRetryAt.None?
              && j.audit != [] && j.audit[|j.audit| - 1] == ExecutionRequeued(j.row.attemptCount)
              && store.outbox != [] && store.outbox[|store.outbox| - 1] == NewOutboxRow(e)
    ensures !RetryDue(store.jobs[e].row, now)
    ensures store.alone ==>
              && done == RetryDue(old(store.jobs)[e].row, now)
              && store.clock == old(store.clock) && store.queue == old(store.queue)
              && store.schedules == old(store.schedules)
              && (done ==> && store.jobs == old(store.jobs)[e := RequeueBy()(old(store.jobs)[e])]
                           && store.outbox == old(store.outbox) + [NewOutboxRow(e)]
                           && RequeueColumns(old(store.jobs)[e], store.jobs[e]))
  {
    ghost var s := store.View();
    InvReachable(store.world, s);
    store.Others(Someone);
    AfterOthers(store.world, s, store.View());
    done := CommitRequeue(store, e, now, s);
  }

  /** Each of these rows has left its wait since `before`. */
  ghost predicate AllLeft(before: System, now: System, rows: seq<nat>, n: nat)
    requires n <= |rows|
  {
    forall m | 0 <= m < n :: LoggedSince(before, now, rows[m], LeavesWaiting)
  }

  lemma OneMoreLeft(w: World, before: System, s: System, now: System, rows: seq<nat>, n: nat)
    requires Reachable(w, s) && Reaches(w, s, now) && n < |rows| && AllLeft(before, s, rows, n)
    requires LoggedSince(before, now, rows[n], LeavesWaiting)
    ensures AllLeft(before, now, rows, n + 1)
  {
    forall m | 0 <= m < n ensures LoggedSince(before, now, rows[m], LeavesWaiting) {
      StillLogged(w, before, s, now, rows[m], LeavesWaiting);
    }
  }

  /** Where a pass over the due retries stands after `n` rows. */
  ghost predicate RetryPass(before: System, now: System, fetched: seq<nat>, n: nat, taken: seq<nat>)
    requires n <= |fetched|
  {
    TookRows(before, now, fetched[..n], taken, IsRequeue) && AllLeft(before, now, fetched, n)
  }

  lemma RetryPassGoesOn(w: World, before: System, s: System, now: System, fetched: seq<nat>, n: nat,
                        taken: seq<nat>, done: bool)
    requires Reachable(w, before) && Reaches(w, before, now) && Reachable(w, s) && Reaches(w, s, now)
    requires n < |fetched| && Distinct(fetched) && forall i | 0 <= i < |fetched| :: fetched[i] < |before.jobs|
    requires fetched[n] < |now.jobs| && RetryDue(before.jobs[fetched[n]].row, before.clock)
    requires RetryPass(before, s, fetched, n, taken)
    requires !RetryDue(now.jobs[fetched[n]].row, before.clock)
    requires done ==> var audit := now.jobs[fetched[n]].audit; audit != [] && IsRequeue(audit[|audit| - 1])
    ensures RetryPass(before, now, fetched, n + 1, if done then taken + [fetched[n]] else taken)
  {
    WaitIsOver(w, before, now, fetched[n]);
    OneMoreLeft(w, before, s, now, fetched, n);
    if done {
      RequeueIsLogged(w, before, now, fetched[n]);
    }
    TookMore(w, before, s, now, fetched, n, taken, IsRequeue, done);
  }

  method RetryTurn(store: Store, fetched: seq<nat>, i: nat, now: Time, ghost taken: seq<nat>, ghost before: System)
    returns (done: bool, ghost taken': seq<nat>)
    requires store.From(before) && now == before.clock <= store.clock && |store.jobs| >= |before.jobs|
    requires i < |fetched| && Distinct(fetched)
    requires forall m | 0 <= m < |fetched| ::
               fetched[m] < |before.jobs| && RetryDue(before.jobs[fetched[m]].row, before.clock)
    requires RetryPass(before, store.View(), fetched, i, taken)
    requires store.alone ==> RequeuedFirst(before, store.View(), fetched, i)
    modifies store
    ensures store.From(before) && now <= store.clock && |store.jobs| >= |before.jobs|
    ensures |taken'| == |taken| + if done then 1 else 0
    ensures RetryPass(before, store.View(), fetched, i + 1, taken')
    ensures store.alone ==> done && RequeuedFirst(before, store.View(), fetched, i + 1)
  {
    ghost var s := store.View();
    InvNow(store.world, before, s);
    if store.alone {
      RequeuedOneMore(before, s, s, fetched, i);
    }
    done := RequeueNext(store, fetched[i], now);
    ReachesCompose(store.world, before, s, store.View());
    if store.alone {
      RequeuedOneMore(before, s, store.View(), fetched, i);
    }
    RetryPassGoesOn(store.world, before, s, store.View(), fetched, i, taken, done);
    taken' := if done then taken + [fetched[i]] else taken;
  }

  /** `prepare_due_retries`. Whoever else runs, every fetched retry has afterwards been requeued
      or cancelled, and the count is that of the retries the pass requeued itself. */
  method PrepareDueRetries(store: Store, fetched: seq<nat>) returns (prepared: nat, ghost taken: seq<nat>)
    requires Reachable(store.world, store.View()) && Distinct(fetched)
    requires forall i | 0 <= i < |fetched| ::
               fetched[i] < |store.jobs| && RetryDue(store.jobs[fetched[i]].row, store.clock)
    modifies store
    ensures store.From(old(store.View()))
    ensures prepared == |taken| && TookRows(old(store.View()), store.View(), fetched, taken, IsRequeue)
    ensures AllLeft(old(store.View()), store.View(), fetched, |fetched|)
    ensures store.alone ==> prepared == |fetched| && RequeuedFirst(old(store.View()), store.View(), fetched, |fetched|)
  {
    ghost var before := store.View();
    ReachesItself(store.world, before);
    var now := store.clock;
    prepared, taken := 0, [];
    for i := 0 to |fetched|
      invariant store.From(before) && now <= store.clock && |store.jobs| >= |before.jobs|
      invariant prepared == |taken| && RetryPass(before, store.View(), fetched, i, taken)
      invariant store.alone ==> prepared == i && RequeuedFirst(before, store.View(), fetched, i)
    {
      var done;
      done, taken := RetryTurn(store, fetched, i, now, taken, before);
      if done {
        prepared := prepared + 1;
      }
    }
    assert fetched[..|fetched|] == fetched;
  }

  // ---- prepare_due_schedules -----------------------------------------------

  datatype TickResult = Ticked | Overtaken | KeyTaken

  function AdvancedRow(r: ScheduleRow, e: nat): ScheduleRow {
    r.(lastRunAt := Some(r.nextRunAt), nextRunAt := r.nextRunAt + r.interval as real, runs := r.runs + [e])
  }

  function TickJob(r: ScheduleRow, i: nat, dueAt: Time): Job {
    NewJob(r.workflow, Schedule, ForTick(i, dueAt), TickPayload(i, dueAt))
  }

  /** The input of a scheduled execution: its schedule and its due time, and nothing else. */
  predicate TickInput(input: Object, i: nat, dueAt: Time) {
    && input.Keys == {"schedule_id", "scheduled_for"}
    && input["schedule_id"] == Num(i as real) && input["scheduled_for"] == Num(dueAt)
  }

  /** The schedule has moved on by one interval from `dueAt`. */
  predicate TickColumns(r: ScheduleRow, r': ScheduleRow, dueAt: Time) {
    && r'.lastRunAt == Some(dueAt) && r'.nextRunAt == dueAt + r.interval as real
    && r'.workflow == r.workflow && r'.interval == r.interval && r'.enabled == r.enabled
  }

  /** The conditional update and the insert are one transaction: when the insert hits the
      unique key, the update is rolled back and the error propagates. */
  method CommitTick(store: Store, i: nat, dueAt: Time, ghost before: System) returns (r: TickResult)
    requires store.From(before) && i < |store.schedules| && dueAt <= store.clock
    modifies store
    ensures store.From(before) && store.clock == old(store.clock) && store.queue == old(store.queue)
    ensures var row := old(store.schedules)[i];
            if !row.enabled || row.nextRunAt != dueAt then r.Overtaken? && store.View() == old(store.View())
            else if FindKey(old(store.jobs), row.workflow, ForTick(i, dueAt)).Some?
            then r.KeyTaken? && store.View() == old(store.View())
            else && r.Ticked?
                 && store.jobs == old(store.jobs) + [TickJob(row, i, dueAt)]
                 && store.outbox == old(store.outbox) + [NewOutboxRow(old(|store.jobs|))]
                 && store.schedules == old(store.schedules)[i := AdvancedRow(row, old(|store.jobs|))]
    ensures r.Ticked? ==>
              var row, n := old(store.schedules)[i], old(|store.jobs|);
              && |store.jobs| == n + 1
              && var j := store.jobs[n];
                 && CreationColumns(j, row.workflow, Schedule, ForTick(i, dueAt), j.row.input,
                                    ScheduledExecutionRequested)
                 && TickInput(j.row.input, i, dueAt)
                 && TickColumns(row, store.schedules[i], dueAt)
                 && AddsOutboxRow(old(store.outbox), store.outbox, n)
  {
    ghost var s := store.View();
    var row := store.schedules[i];
    if !row.enabled || row.nextRunAt != dueAt {
      return Overtaken;
    }
    var key := ForTick(i, dueAt);
    if FindKey(store.jobs, row.workflow, key).Some? {
      return KeyTaken;
    }
    var e := |store.jobs|;
    store.schedules := store.schedules[i := row.(
      lastRunAt := Some(dueAt), nextRunAt := dueAt + row.interval as real, runs := row.runs + [e])];
    store.jobs := store.jobs + [NewJob(row.workflow, Schedule, key, TickPayload(i, dueAt))];
    store.outbox := store.outbox + [NewOutboxRow(e)];
    Took(store.world, before, s, Tick(i), store.View());
    r := Ticked;
  }

  /** Schedule `i` has ticked, and nothing else has happened. */
  ghost predicate TickTaken(s: System, s': System, i: nat)
    requires i < |s.schedules|
  {
    var r := s.schedules[i];
    && s'.clock == s.clock && s'.queue == s.queue
    && s'.jobs == s.jobs + [TickJob(r, i, r.nextRunAt)]
    && s'.outbox == s.outbox + [NewOutboxRow(|s.jobs|)]
    && s'.schedules == s.schedules[i := AdvancedRow(r, |s.jobs|)]
  }

  /** The update and the insert, with time for everybody else before their commit. */
  method TickNext(store: Store, i: nat, dueAt: Time) returns (r: TickResult)
    requires Reachable(store.world, store.View()) && i < |store.schedules| && dueAt <= store.clock
    modifies store
    ensures store.From(old(store.View())) && i < |store.schedules|
    ensures |store.jobs| >= old(|store.jobs|) + if r.Ticked? then 1 else 0
    ensures var row := store.schedules[i];
            match r
            case Ticked =>
              && row.lastRunAt == Some(dueAt) && row.nextRunAt == dueAt + row.interval as real
              && store.jobs != [] && store.jobs[|store.jobs| - 1] == TickJob(row, i, dueAt)
              && store.outbox != [] && store.outbox[|store.outbox| - 1] == NewOutboxRow(|store.jobs| - 1)
              && TickInput(store.jobs[|store.jobs| - 1].row.input, i, dueAt)
            case Overtaken => !row.enabled || row.nextRunAt != dueAt
            case KeyTaken =>
              && row.enabled && row.nextRunAt == dueAt
              && FindKey(store.jobs, row.workflow, ForTick(i, dueAt)).Some?
    ensures store.alone && old(store.schedules)[i].enabled && old(store.schedules)[i].nextRunAt == dueAt ==>
              var row := old(store.schedules)[i];
              if FindKey(old(store.jobs), row.workflow, ForTick(i, dueAt)).Some?
              then r.KeyTaken? && store.View() == old(store.View())
              else r.Ticked? && TickTaken(old(store.View()), store.View(), i)
  {
    ghost var s := store.View();
    InvReachable(store.world, s);
    store.Others(Someone);
    AfterOthers(store.world, s, store.View());
    r := CommitTick(store, i, dueAt, s);
  }

  /** The executions since `s` all come from ticks. */
  ghost predicate OnlyTicksAdded(s: System, s': System) {
    && s.jobs <= s'.jobs && s.outbox <= s'.outbox
    && forall e | |s.jobs| <= e < |s'.jobs| :: s'.jobs[e].row.trigger.Schedule? && s'.jobs[e].row.status.Queued?
  }

  /** The first `n` fetched schedules advanced by one tick each, and no other touched. */
  ghost predicate TickedFirst(s: System, s': System, fetched: seq<nat>, n: nat)
    requires n <= |fetched| && forall i | 0 <= i < |fetched| :: fetched[i] < |s.schedules|
  {
    && s'.clock == s.clock && s'.queue == s.queue && |s'.schedules| == |s.schedules|
    && |s'.jobs| == |s.jobs| + n && OnlyTicksAdded(s, s')
    && (forall m | 0 <= m < n ::
          s'.schedules[fetched[m]] == AdvancedRow(s.schedules[fetched[m]], |s.jobs| + m))
    && (forall i | 0 <= i < |s.schedules| && i !in fetched[..n] :: s'.schedules[i] == s.schedules[i])
  }

  /** In the middle of a pass on its own, a schedule's insert conflicts exactly if it was
      blocked when the pass began. */
  lemma ConflictsIfBlocked(w: World, before: System, s: System, i: nat)
    requires Reachable(w, before) && Reaches(w, before, s) && i < |before.schedules| && TickDue(s, i)
    requires s.schedules[i] == before.schedules[i] && OnlyTicksAdded(before, s)
    ensures FindKey(s.jobs, s.schedules[i].workflow, ForTick(i, s.schedules[i].nextRunAt)).Some?
            <==> Blocked(before, i)
  {
    InvNow(w, before, s);
    TickBlockedExactlyByRequest(w, s, i);
    SameRequestKeys(before, s, i, |before.schedules[i].runs|);
  }

  /** One outbox row for each of `n` executions from `first` on. */
  function TickRows(first: nat, n: nat): (rows: seq<OutboxRow>)
    ensures |rows| == n && forall m | 0 <= m < n :: rows[m] == NewOutboxRow(first + m)
  {
    if n == 0 then [] else TickRows(first, n - 1) + [NewOutboxRow(first + n - 1)]
  }

  lemma TickedOneMore(before: System, s: System, s': System, fetched: seq<nat>, n: nat)
    requires n < |fetched| && Distinct(fetched) && forall i | 0 <= i < |fetched| :: fetched[i] < |before.schedules|
    requires TickedFirst(before, s, fetched, n) && TickDue(s, fetched[n]) && TickTaken(s, s', fetched[n])
    ensures TickedFirst(before, s', fetched, n + 1)
    ensures TotalOwed(s', |s'.schedules|) == TotalOwed(s, |s.schedules|) - 1
  {
    assert fetched[..n + 1] == fetched[..n] + [fetched[n]];
    forall e | |before.jobs| <= e < |s'.jobs|
      ensures s'.jobs[e].row.trigger.Schedule? && s'.jobs[e].row.status.Queued?
    {
      assert e < |s.jobs| ==> s'.jobs[e] == s.jobs[e];
    }
    var r := s.schedules[fetched[n]];
    TickCatchesUpOne(s.clock, r.nextRunAt, r.interval);
    TotalOneLess(s, s', fetched[n], |s.schedules|);
  }

  /** Where a pass over the due schedules stands after `n` rows. */
  ghost predicate SchedulePass(before: System, now: System, fetched: seq<nat>, n: nat, prepared: nat)
    requires n <= |fetched| && forall i | 0 <= i < |fetched| :: fetched[i] < |before.schedules|
  {
    && |before.schedules| <= |now.schedules| && |now.jobs| >= |before.jobs| + prepared
    && (forall m | 0 <= m < n :: now.schedules[fetched[m]].nextRunAt > before.schedules[fetched[m]].nextRunAt)
  }

  /** Ticked by this pass or by another, a schedule whose due time went by has moved on. */
  lemma SchedulePassGoesOn(before: System, s: System, now: System, fetched: seq<nat>, n: nat,
                           prepared: nat, prepared': nat)
    requires n < |fetched| && forall i | 0 <= i < |fetched| :: fetched[i] < |before.schedules|
    requires Later(s, now) && SchedulePass(before, s, fetched, n, prepared)
    requires now.schedules[fetched[n]].nextRunAt > before.schedules[fetched[n]].nextRunAt
    requires |now.jobs| >= |before.jobs| + prepared'
    ensures SchedulePass(before, now, fetched, n + 1, prepared')
  {}

  /** The same for a pass on its own. */
  ghost predicate AlonePass(before: System, now: System, fetched: seq<nat>, n: nat)
    requires n <= |fetched| && forall i | 0 <= i < |fetched| :: fetched[i] < |before.schedules|
  {
    && TickedFirst(before, now, fetched, n)
    && now.outbox == before.outbox + TickRows(|before.jobs|, n)
    && TotalOwed(now, |now.schedules|) + n == TotalOwed(before, |before.schedules|)
    && forall m | 0 <= m < n :: !Blocked(before, fetched[m])
  }

  lemma AlonePassGoesOn(before: System, s: System, now: System, fetched: seq<nat>, n: nat)
    requires n < |fetched| && Distinct(fetched) && forall i | 0 <= i < |fetched| :: fetched[i] < |before.schedules|
    requires AlonePass(before, s, fetched, n) && TickDue(s, fetched[n]) && TickTaken(s, now, fetched[n])
    requires !Blocked(before, fetched[n])
    ensures AlonePass(before, now, fetched, n + 1)
  {
    TickedOneMore(before, s, now, fetched, n);
  }

  lemma TakenMeansBlocked(w: World, before: System, s: System, i: nat)
    requires Reachable(w, before) && Reaches(w, before, s) && TickDue(s, i)
    requires FindKey(s.jobs, s.schedules[i].workflow, ForTick(i, s.schedules[i].nextRunAt)).Some?
    ensures Blocked(s, i)
  {
    InvNow(w, before, s);
    TickBlockedExactlyByRequest(w, s, i);
  }

  /** One turn of the loop. */
  method ScheduleTurn(store: Store, fetched: seq<nat>, i: nat, dueAt: Time, ghost prepared: nat, ghost before: System)
    returns (r: TickResult)
    requires store.From(before) && before.clock <= store.clock
    requires i < |fetched| && Distinct(fetched)
    requires forall m | 0 <= m < |fetched| :: fetched[m] < |before.schedules| && TickDue(before, fetched[m])
    requires dueAt == before.schedules[fetched[i]].nextRunAt
    requires SchedulePass(before, store.View(), fetched, i, prepared)
    requires store.alone ==> AlonePass(before, store.View(), fetched, i)
    modifies store
    ensures store.From(before) && store.From(old(store.View())) && before.clock <= store.clock
    ensures r.KeyTaken? ==> TickDue(store.View(), fetched[i]) && Blocked(store.View(), fetched[i])
    ensures r.KeyTaken? && store.alone ==> store.View() == old(store.View()) && Blocked(before, fetched[i])
    ensures !r.KeyTaken? ==>
              && SchedulePass(before, store.View(), fetched, i + 1, prepared + (if r.Ticked? then 1 else 0))
              && (store.alone ==> r.Ticked? && AlonePass(before, store.View(), fetched, i + 1))
  {
    ghost var s := store.View();
    InvNow(store.world, before, s);
    InvLater(store.world, before, s);
    if store.alone {
      assert fetched[i] !in fetched[..i];
      ConflictsIfBlocked(store.world, before, s, fetched[i]);
    }
    r := TickNext(store, fetched[i], dueAt);
    AfterOthers(store.world, s, store.View());
    ReachesCompose(store.world, before, s, store.View());
    if r.KeyTaken? {
      TakenMeansBlocked(store.world, before, store.View(), fetched[i]);
    } else {
      if store.alone {
        AlonePassGoesOn(before, s, store.View(), fetched, i);
      }
      SchedulePassGoesOn(before, s, store.View(), fetched, i, prepared, prepared + (if r.Ticked? then 1 else 0));
    }
  }

  lemma InvLater(w: World, before: System, s: System)
    requires Reachable(w, before) && Reaches(w, before, s)
    ensures Later(before, s)
  {
    InvReachable(w, before);
    AfterOthers(w, before, s);
  }

  /** A pass that does not raise has got every fetched schedule past its key. */
  lemma BlockedRaises(w: World, before: System, now: System, fetched: seq<nat>, m: nat)
    requires Reachable(w, before) && Reaches(w, before, now) && m < |fetched|
    requires fetched[m] < |before.schedules| && TickDue(before, fetched[m]) && fetched[m] < |now.schedules|
    requires now.schedules[fetched[m]].nextRunAt > before.schedules[fetched[m]].nextRunAt
    ensures !Blocked(before, fetched[m])
  {
    if Blocked(before, fetched[m]) {
      BlockedForever(w, before, now, fetched[m]);
    }
  }

  lemma NoneTicked(before: System, fetched: seq<nat>)
    requires forall i | 0 <= i < |fetched| :: fetched[i] < |before.schedules|
    ensures SchedulePass(before, before, fetched, 0, 0) && AlonePass(before, before, fetched, 0)
  {}

  /** The loop of the pass; `at` is where it ended. */
  method TickRowsInOrder(store: Store, fetched: seq<nat>, ghost before: System)
    returns (prepared: nat, raised: bool, ghost at: nat)
    requires Reachable(store.world, before) && store.View() == before && Distinct(fetched)
    requires forall i | 0 <= i < |fetched| :: fetched[i] < |before.schedules| && TickDue(before, fetched[i])
    modifies store
    ensures store.From(before) && prepared <= at <= |fetched| && (raised <==> at < |fetched|)
    ensures |store.schedules| >= |before.schedules| && |store.jobs| >= |before.jobs| + prepared
    ensures !raised ==> SchedulePass(before, store.View(), fetched, |fetched|, prepared)
    ensures raised ==> TickDue(store.View(), fetched[at]) && Blocked(store.View(), fetched[at])
    ensures store.alone ==>
              && prepared == at && AlonePass(before, store.View(), fetched, at)
              && (raised ==> Blocked(before, fetched[at]))
  {
    ReachesItself(store.world, before);
    var dues: seq<Time> := seq(|fetched|, i requires 0 <= i < |fetched| && fetched[i] < |store.schedules| reads store =>
                                          store.schedules[fetched[i]].nextRunAt);
    prepared, raised, at := 0, false, |fetched|;
    NoneTicked(before, fetched);
    for i := 0 to |fetched|
      invariant store.From(before) && before.clock <= store.clock
      invariant prepared <= i && SchedulePass(before, store.View(), fetched, i, prepared)
      invariant store.alone ==> prepared == i && AlonePass(before, store.View(), fetched, i)
    {
      ghost var s := store.View();
      var r := ScheduleTurn(store, fetched, i, dues[i], prepared, before);
      if r.KeyTaken? {
        raised, at := true, i;
        InvLater(store.world, s, store.View());
        return;
      }
      if r.Ticked? {
        prepared := prepared + 1;
      }
    }
  }

  /** `prepare_due_schedules`. Whoever else runs: without an error every fetched schedule has
      moved on; an error means that a request holds the key of a due tick; and if one did so
      from the start, there is an error. A pass on its own advances every fetched schedule by
      exactly one tick, up to the first one whose key is held; there, and only there, it raises. */
  method PrepareDueSchedules(store: Store, fetched: seq<nat>) returns (prepared: nat, raised: bool)
    requires Reachable(store.world, store.View()) && Distinct(fetched)
    requires forall i | 0 <= i < |fetched| :: fetched[i] < |store.schedules| && TickDue(store.View(), fetched[i])
    modifies store
    ensures store.From(old(store.View())) && |store.schedules| >= |old(store.schedules)|
    ensures prepared <= |fetched| && |store.jobs| >= |old(store.jobs)| + prepared
    ensures !raised ==> forall m | 0 <= m < |fetched| ::
              store.schedules[fetched[m]].nextRunAt > old(store.schedules)[fetched[m]].nextRunAt
    ensures raised ==> exists m :: 0 <= m < |fetched| && TickDue(store.View(), fetched[m])
                                   && Blocked(store.View(), fetched[m])
    ensures (exists m :: 0 <= m < |fetched| && Blocked(old(store.View()), fetched[m])) ==> raised
    ensures store.alone ==>
              && TickedFirst(old(store.View()), store.View(), fetched, prepared)
              && store.outbox == old(store.outbox) + TickRows(|old(store.jobs)|, prepared)
              && TotalOwed(store.View(), |store.schedules|) + prepared
                 == TotalOwed(old(store.View()), |old(store.schedules)|)
              && (forall m | 0 <= m < prepared :: !Blocked(old(store.View()), fetched[m]))
              && (raised <==> prepared < |fetched|)
              && (raised ==> Blocked(old(store.View()), fetched[prepared]))
  {
    ghost var before := store.View();
    ghost var at;
    prepared, raised, at := TickRowsInOrder(store, fetched, before);
    if !raised {
      forall m | 0 <= m < |fetched| ensures !Blocked(before, fetched[m]) {
        BlockedRaises(store.world, before, store.View(), fetched, m);
      }
    }
  }
}
