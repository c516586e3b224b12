/** One cycle of the scheduler process (app/scheduler.py): four passes in one order, with nothing
    to catch an error of the second. */
module Scheduler {
  import opened Json
  import opened Models
  import opened Lifecycle
  import opened Protocol
  import opened Stores
  import opened Schedules
  import opened Scheduling
  import opened CatchingUp
  import opened Publishing
  import opened Columns

  // ---- The queries ---------------------------------------------------------

  /** The executions that a query asks for, in creation order. */
  function Matching(jobs: seq<Job>, p: Job -> bool): (rows: seq<nat>)
    ensures forall i | 0 <= i < |rows| :: rows[i] < |jobs| && p(jobs[rows[i]])
  {
    if jobs == [] then [] else
    var n := |jobs| - 1;
    Matching(jobs[..n], p) + if p(jobs[n]) then [n] else []
  }

  lemma {:induction false} MatchingComplete(jobs: seq<Job>, p: Job -> bool)
    ensures Distinct(Matching(jobs, p))
    ensures forall e | 0 <= e < |jobs| :: e in Matching(jobs, p) <==> p(jobs[e])
    decreases |jobs|
  {
    if jobs != [] {
      MatchingComplete(jobs[..|jobs| - 1], p);
    }
  }

  /** A batch of what a query asks for; which ones, when there are more, is left open here. */
  method Select(store: Store, p: Job -> bool, batchSize: nat) returns (fetched: seq<nat>)
    ensures Distinct(fetched) && |fetched| <= batchSize
    ensures forall i | 0 <= i < |fetched| :: fetched[i] < |store.jobs| && p(store.jobs[fetched[i]])
    ensures |Matching(store.jobs, p)| <= batchSize ==>
              |fetched| == |Matching(store.jobs, p)|
              && forall e | 0 <= e < |store.jobs| && p(store.jobs[e]) :: e in fetched
  {
    fetched := Matching(store.jobs, p);
    MatchingComplete(store.jobs, p);
    if |fetched| > batchSize {
      fetched := fetched[..batchSize];
    }
  }

  // ---- A blocked schedule --------------------------------------------------

  ghost predicate SomeBlocked(s: System) {
    exists i: nat :: i < |s.schedules| && TickDue(s, i) && Blocked(s, i)
  }

  /** Nothing published, no retry requeued, no row marked: only new outbox rows. */
  ghost predicate Starved(s: System, s': System) {
    && s'.queue == s.queue && s.outbox <= s'.outbox && |s.jobs| <= |s'.jobs|
    && forall e | 0 <= e < |s.jobs| && s.jobs[e].row.status.RetryScheduled? :: s'.jobs[e] == s.jobs[e]
  }

  lemma StillBlocked(w: World, s: System, s': System)
    requires Reachable(w, s) && Reaches(w, s, s') && SomeBlocked(s)
    ensures SomeBlocked(s')
  {
    var i: nat :| i < |s.schedules| && TickDue(s, i) && Blocked(s, i);
    BlockedForever(w, s, s', i);
  }

  lemma ReapKeepsKeys(before: System, now: System, fetched: seq<nat>, i: nat, k: nat)
    requires Distinct(fetched) && forall m | 0 <= m < |fetched| :: fetched[m] < |before.jobs|
    requires ReapedFirst(before, now, fetched, |fetched|) && i < |before.schedules| && RequestHoldsTick(now, i, k)
    ensures RequestHoldsTick(before, i, k)
  {
    var r := before.schedules[i];
    var e: nat :| e < |now.jobs| && TakesTick(now.jobs[e].row, r, i, k);
    RewrittenAt(before.jobs, fetched, |fetched|, ReapBy(before.clock), e);
    assert TakesTick(before.jobs[e].row, r, i, k);
  }

  lemma ReapStarves(before: System, now: System, fetched: seq<nat>)
    requires Distinct(fetched)
    requires forall m | 0 <= m < |fetched| ::
               fetched[m] < |before.jobs| && Expired(before.jobs[fetched[m]].row, before.clock)
    requires ReapedFirst(before, now, fetched, |fetched|)
    ensures Starved(before, now)
  {
    forall e | 0 <= e < |before.jobs| && before.jobs[e].row.status.RetryScheduled?
      ensures now.jobs[e] == before.jobs[e]
    {
      RewrittenAt(before.jobs, fetched, |fetched|, ReapBy(before.clock), e);
    }
  }

  lemma ReapBlocksNothing(before: System, now: System, fetched: seq<nat>)
    requires Distinct(fetched) && forall m | 0 <= m < |fetched| :: fetched[m] < |before.jobs|
    requires ReapedFirst(before, now, fetched, |fetched|)
    ensures SomeBlocked(now) ==> SomeBlocked(before)
  {
    if SomeBlocked(now) {
      var i: nat :| i < |now.schedules| && TickDue(now, i) && Blocked(now, i);
      ReapKeepsKeys(before, now, fetched, i, |now.schedules[i].runs|);
      assert TickDue(before, i) && Blocked(before, i);
    }
  }

  // ---- What the passes of a cycle do ---------------------------------------

  function ExpiredAt(now: Time): Job -> bool {
    (j: Job) => Expired(j.row, now)
  }

  function RetryDueAt(now: Time): Job -> bool {
    (j: Job) => RetryDue(j.row, now)
  }

  /** The new rows of the outbox: unpublished, and at most `n`. */
  ghost predicate Adds(outbox: seq<OutboxRow>, outbox': seq<OutboxRow>, n: nat) {
    && outbox <= outbox' && |outbox'| <= |outbox| + n
    && forall r | |outbox| <= r < |outbox'| :: outbox'[r].publishedAt.None?
  }

  /** There is a new outbox row for execution `e`. */
  ghost predicate Dispatched(before: nat, outbox: seq<OutboxRow>, e: nat) {
    exists r :: before <= r < |outbox| && outbox[r].exec == e
  }

  lemma {:induction false} NewRowsAre(jobs: seq<Job>, rows: seq<nat>, n: nat, p: Job -> bool)
    requires n <= |rows| && forall i | 0 <= i < |rows| :: rows[i] < |jobs|
    ensures var added := NewRows(jobs, rows, n, p);
            && |added| <= n
            && (forall k | 0 <= k < |added| :: added[k].publishedAt.None?)
            && (forall m | 0 <= m < n && p(jobs[rows[m]]) :: NewOutboxRow(rows[m]) in added)
    decreases n
  {
    if n > 0 {
      NewRowsAre(jobs, rows, n - 1, p);
    }
  }

  lemma AddedRows(outbox: seq<OutboxRow>, outbox': seq<OutboxRow>, added: seq<OutboxRow>, n: nat)
    requires outbox' == outbox + added && |added| <= n
    requires forall k | 0 <= k < |added| :: added[k].publishedAt.None?
    ensures Adds(outbox, outbox', n)
    ensures forall e: nat | NewOutboxRow(e) in added :: Dispatched(|outbox|, outbox', e)
  {
    forall e: nat | NewOutboxRow(e) in added ensures Dispatched(|outbox|, outbox', e) {
      var k :| 0 <= k < |added| && added[k] == NewOutboxRow(e);
      assert outbox'[|outbox| + k].exec == e;
    }
  }

  /** Every expired execution reaped by its attempt count, and no other touched. */
  ghost predicate ReapDone(s: System, s': System) {
    && s'.clock == s.clock && s'.queue == s.queue && s'.schedules == s.schedules && |s'.jobs| == |s.jobs|
    && (forall e | 0 <= e < |s.jobs| ::
          if Expired(s.jobs[e].row, s.clock)
          then && ReapColumns(s.jobs[e], s'.jobs[e], s.clock)
               && (s'.jobs[e].row.status.Queued? ==> Dispatched(|s.outbox|, s'.outbox, e))
          else s'.jobs[e] == s.jobs[e])
    && Adds(s.outbox, s'.outbox, |Matching(s.jobs, ExpiredAt(s.clock))|)
  }

  lemma ReapedAll(s: System, s': System, fetched: seq<nat>)
    requires Distinct(fetched) && |fetched| == |Matching(s.jobs, ExpiredAt(s.clock))|
    requires forall m | 0 <= m < |fetched| :: fetched[m] < |s.jobs| && Expired(s.jobs[fetched[m]].row, s.clock)
    requires forall e | 0 <= e < |s.jobs| && Expired(s.jobs[e].row, s.clock) :: e in fetched
    requires ReapedFirst(s, s', fetched, |fetched|)
    ensures ReapDone(s, s')
  {
    NewRowsAre(s.jobs, fetched, |fetched|, RequeuedByReap());
    AddedRows(s.outbox, s'.outbox, NewRows(s.jobs, fetched, |fetched|, RequeuedByReap()), |fetched|);
    assert fetched[..|fetched|] == fetched;
    forall e | 0 <= e < |s.jobs|
      ensures if Expired(s.jobs[e].row, s.clock)
              then && ReapColumns(s.jobs[e], s'.jobs[e], s.clock)
                   && (s'.jobs[e].row.status.Queued? ==> Dispatched(|s.outbox|, s'.outbox, e))
              else s'.jobs[e] == s.jobs[e]
    {
      RewrittenAt(s.jobs, fetched, |fetched|, ReapBy(s.clock), e);
      if Expired(s.jobs[e].row, s.clock) {
        ReapLeaves(s.jobs[e], s.clock);
        var m :| 0 <= m < |fetched| && fetched[m] == e;
        assert ReapRequeues(s.jobs[e], s.jobs[e].row.attemptCount) ==> RequeuedByReap()(s.jobs[fetched[m]]);
      }
    }
  }

  /** Every due retry requeued, and no other execution touched. */
  ghost predicate RequeueDone(s: System, s': System) {
    && s'.clock == s.clock && s'.queue == s.queue && s'.schedules == s.schedules && |s'.jobs| == |s.jobs|
    && (forall e | 0 <= e < |s.jobs| ::
          if RetryDue(s.jobs[e].row, s.clock)
          then RequeueColumns(s.jobs[e], s'.jobs[e]) && Dispatched(|s.outbox|, s'.outbox, e)
          else s'.jobs[e] == s.jobs[e])
    && Adds(s.outbox, s'.outbox, |Matching(s.jobs, RetryDueAt(s.clock))|)
  }

  lemma RequeuedAll(s: System, s': System, fetched: seq<nat>)
    requires Distinct(fetched) && |fetched| == |Matching(s.jobs, RetryDueAt(s.clock))|
    requires forall m | 0 <= m < |fetched| :: fetched[m] < |s.jobs| && RetryDue(s.jobs[fetched[m]].row, s.clock)
    requires forall e | 0 <= e < |s.jobs| && RetryDue(s.jobs[e].row, s.clock) :: e in fetched
    requires RequeuedFirst(s, s', fetched, |fetched|)
    ensures RequeueDone(s, s')
  {
    NewRowsAre(s.jobs, fetched, |fetched|, Always());
    AddedRows(s.outbox, s'.outbox, NewRows(s.jobs, fetched, |fetched|, Always()), |fetched|);
    assert fetched[..|fetched|] == fetched;
    forall e | 0 <= e < |s.jobs|
      ensures if RetryDue(s.jobs[e].row, s.clock)
              then RequeueColumns(s.jobs[e], s'.jobs[e]) && Dispatched(|s.outbox|, s'.outbox, e)
              else s'.jobs[e] == s.jobs[e]
    {
      RewrittenAt(s.jobs, fetched, |fetched|, RequeueBy(), e);
      if RetryDue(s.jobs[e].row, s.clock) {
        var m :| 0 <= m < |fetched| && fetched[m] == e;
        assert Always()(s.jobs[fetched[m]]);
      }
    }
  }

  /** The due schedule `i` has taken one tick, whose new execution has an outbox row. */
  ghost predicate TickedOnce(s: System, s': System, i: nat)
    requires i < |s.schedules| && i < |s'.schedules|
  {
    var r, r' := s.schedules[i], s'.schedules[i];
    && TickColumns(r, r', r.nextRunAt)
    && |r'.runs| == |r.runs| + 1 && r.runs <= r'.runs
    && |s.jobs| <= r'.runs[|r.runs|] < |s'.jobs| && Dispatched(|s.outbox|, s'.outbox, r'.runs[|r.runs|])
  }

  /** Every due schedule advanced by one tick, and nothing else touched. */
  ghost predicate TicksDone(s: System, s': System) {
    && s'.clock == s.clock && s'.queue == s.queue && |s'.schedules| == |s.schedules| && OnlyTicksAdded(s, s')
    && (forall i | 0 <= i < |s.schedules| ::
          if TickDue(s, i) then TickedOnce(s, s', i) else s'.schedules[i] == s.schedules[i])
    && Adds(s.outbox, s'.outbox, |DueSchedules(s.schedules, s.clock)|)
  }

  lemma TickedOne(s: System, s': System, fetched: seq<nat>, m: nat)
    requires m < |fetched| && forall k | 0 <= k < |fetched| :: fetched[k] < |s.schedules|
    requires TickedFirst(s, s', fetched, |fetched|) && s'.outbox == s.outbox + TickRows(|s.jobs|, |fetched|)
    ensures TickedOnce(s, s', fetched[m])
  {
    assert s'.outbox[|s.outbox| + m] == TickRows(|s.jobs|, |fetched|)[m];
  }

  lemma ScheduleTicked(s: System, s': System, fetched: seq<nat>, i: nat)
    requires i < |s.schedules| && forall m | 0 <= m < |fetched| :: fetched[m] < |s.schedules| && TickDue(s, fetched[m])
    requires TickDue(s, i) ==> i in fetched
    requires TickedFirst(s, s', fetched, |fetched|) && s'.outbox == s.outbox + TickRows(|s.jobs|, |fetched|)
    ensures if TickDue(s, i) then TickedOnce(s, s', i) else s'.schedules[i] == s.schedules[i]
  {
    if TickDue(s, i) {
      var m :| 0 <= m < |fetched| && fetched[m] == i;
      TickedOne(s, s', fetched, m);
    } else {
      assert i !in fetched[..|fetched|];
    }
  }

  lemma TickedAll(s: System, s': System, fetched: seq<nat>)
    requires Distinct(fetched) && |fetched| == |DueSchedules(s.schedules, s.clock)|
    requires forall m | 0 <= m < |fetched| :: fetched[m] < |s.schedules| && TickDue(s, fetched[m])
    requires forall i | 0 <= i < |s.schedules| && TickDue(s, i) :: i in fetched
    requires TickedFirst(s, s', fetched, |fetched|) && s'.outbox == s.outbox + TickRows(|s.jobs|, |fetched|)
    ensures TicksDone(s, s')
  {
    forall i | 0 <= i < |s.schedules|
      ensures if TickDue(s, i) then TickedOnce(s, s', i) else s'.schedules[i] == s.schedules[i]
    {
      ScheduleTicked(s, s', fetched, i);
    }
    AddedRows(s.outbox, s'.outbox, TickRows(|s.jobs|, |fetched|), |fetched|);
  }

  /** `rows` are the rows that were unpublished in the earlier `outbox`, and those added since;
      the queue has gained exactly their ids, in order. */
  ghost predicate PushedRows(outbox: seq<OutboxRow>, queue: seq<nat>, outbox': seq<OutboxRow>, queue': seq<nat>,
                             rows: seq<nat>)
  {
    && Increasing(rows)
    && (forall i | 0 <= i < |rows| :: rows[i] < |outbox'|)
    && (forall r: nat | r < |outbox'| :: r in rows <==> r >= |outbox| || outbox[r].publishedAt.None?)
    && |queue'| == |queue| + |rows| && queue <= queue'
    && forall k | 0 <= k < |rows| :: queue'[|queue| + k] == outbox'[rows[k]].exec
  }

  /** No row is left unpublished. */
  ghost predicate AllPublished(outbox: seq<OutboxRow>, queue: seq<nat>, outbox': seq<OutboxRow>, queue': seq<nat>) {
    && (forall r | 0 <= r < |outbox'| :: outbox'[r].publishedAt.Some?)
    && exists rows :: PushedRows(outbox, queue, outbox', queue', rows)
  }

  lemma {:induction false} UnpublishedGrows(outbox: seq<OutboxRow>, outbox': seq<OutboxRow>)
    requires outbox <= outbox'
    ensures |Unpublished(outbox')| <= |Unpublished(outbox)| + |outbox'| - |outbox|
    decreases |outbox'|
  {
    if |outbox'| > |outbox| {
      UnpublishedGrows(outbox, outbox'[..|outbox'| - 1]);
    } else {
      assert outbox' == outbox;
    }
  }

  lemma RowPublished(s: System, outbox': seq<OutboxRow>, queue': seq<nat>, rows: seq<nat>,
                     failures: seq<Option<string>>, r: nat)
    requires rows == Unpublished(s.outbox) && |rows| <= |failures| && r < |s.outbox|
    requires forall i | 0 <= i < |failures| :: failures[i].None?
    requires PassColumns(s, outbox', queue', rows, failures)
    ensures outbox'[r].publishedAt.Some? && outbox'[r].exec == s.outbox[r].exec
    ensures r in rows <==> s.outbox[r].publishedAt.None?
  {
    UnpublishedIsComplete(s.outbox, r);
    if r in rows {
      var m :| 0 <= m < |rows| && rows[m] == r;
      assert RowTried(s.outbox[rows[m]], outbox'[rows[m]], failures[m], s.clock);
    }
  }

  lemma QueueGrown(s: System, outbox': seq<OutboxRow>, queue': seq<nat>, rows: seq<nat>,
                   failures: seq<Option<string>>)
    requires |rows| <= |failures| && forall i | 0 <= i < |failures| :: failures[i].None?
    requires forall i | 0 <= i < |rows| :: rows[i] < |s.outbox|
    requires PassColumns(s, outbox', queue', rows, failures)
    ensures |queue'| == |s.queue| + |rows| && s.queue <= queue'
    ensures forall k | 0 <= k < |rows| :: queue'[|s.queue| + k] == s.outbox[rows[k]].exec
  {
    var ok := Successes(failures, |rows|);
    AllSucceed(failures, |rows|);
    forall k | 0 <= k < |rows| ensures queue'[|s.queue| + k] == s.outbox[rows[k]].exec {
      assert ok[k] == k;
    }
  }

  /** A healthy pass over an outbox that has grown by unpublished rows only. */
  lemma PublishedAll(outbox: seq<OutboxRow>, s: System, outbox': seq<OutboxRow>, queue': seq<nat>,
                     failures: seq<Option<string>>, batchSize: nat, n: nat)
    requires Adds(outbox, s.outbox, n) && |Unpublished(outbox)| + n <= batchSize <= |failures|
    requires forall i | 0 <= i < |failures| :: failures[i].None?
    requires PassColumns(s, outbox', queue', Batch(s.outbox, batchSize), failures)
    ensures AllPublished(outbox, s.queue, outbox', queue')
  {
    var rows := Batch(s.outbox, batchSize);
    UnpublishedGrows(outbox, s.outbox);
    assert rows == Unpublished(s.outbox);
    UnpublishedIsSorted(s.outbox);
    QueueGrown(s, outbox', queue', rows, failures);
    forall r: nat | r < |outbox'|
      ensures outbox'[r].publishedAt.Some? && outbox'[r].exec == s.outbox[r].exec
      ensures r in rows <==> s.outbox[r].publishedAt.None?
    {
      RowPublished(s, outbox', queue', rows, failures, r);
    }
    RowsArePushed(outbox, s, outbox', queue', rows, n);
  }

  lemma RowsArePushed(outbox: seq<OutboxRow>, s: System, outbox': seq<OutboxRow>, queue': seq<nat>, rows: seq<nat>,
                      n: nat)
    requires Adds(outbox, s.outbox, n) && |outbox'| == |s.outbox| && Increasing(rows)
    requires forall i | 0 <= i < |rows| :: rows[i] < |s.outbox|
    requires forall r: nat | r < |outbox'| :: outbox'[r].publishedAt.Some? && outbox'[r].exec == s.outbox[r].exec
    requires forall r: nat | r < |outbox'| :: r in rows <==> s.outbox[r].publishedAt.None?
    requires |queue'| == |s.queue| + |rows| && s.queue <= queue'
    requires forall k | 0 <= k < |rows| :: queue'[|s.queue| + k] == s.outbox[rows[k]].exec
    ensures AllPublished(outbox, s.queue, outbox', queue')
  {
    assert PushedRows(outbox, s.queue, outbox', queue', rows);
  }

  lemma {:induction false} AllSucceed(failures: seq<Option<string>>, n: nat)
    requires n <= |failures| && forall i | 0 <= i < |failures| :: failures[i].None?
    ensures |Successes(failures, n)| == n && forall k | 0 <= k < n :: Successes(failures, n)[k] == k
    decreases n
  {
    if n > 0 {
      AllSucceed(failures, n - 1);
    }
  }

  // ---- What a whole cycle does ---------------------------------------------

  /** How a cycle leaves execution `e`: reaped if its lease had expired, requeued if its retry was
      due, either with an outbox row if it is queued again, and otherwise untouched. */
  ghost predicate ExecutionServed(s: System, s': System, e: nat)
    requires e < |s.jobs| && e < |s'.jobs|
  {
    var r := s.jobs[e].row;
    if r.status.Running? && r.leaseExpiresAt.Some? && r.leaseExpiresAt.value <= s.clock then
      && ReapColumns(s.jobs[e], s'.jobs[e], s.clock)
      && (r.attemptCount < r.workflow.maxAttempts ==> Dispatched(|s.outbox|, s'.outbox, e))
    else if r.status.RetryScheduled? && r.nextRetryAt.Some? && r.nextRetryAt.value <= s.clock then
      RequeueColumns(s.jobs[e], s'.jobs[e]) && Dispatched(|s.outbox|, s'.outbox, e)
    else
      s'.jobs[e] == s.jobs[e]
  }

  /** How it leaves schedule `i`: one tick further if it was due, and otherwise untouched. */
  ghost predicate ScheduleServed(s: System, s': System, i: nat)
    requires i < |s.schedules| && i < |s'.schedules|
  {
    if s.schedules[i].enabled && s.schedules[i].nextRunAt <= s.clock then TickedOnce(s, s', i)
    else s'.schedules[i] == s.schedules[i]
  }

  ghost predicate CycleDone(s: System, s': System) {
    && |s.jobs| <= |s'.jobs| && |s'.schedules| == |s.schedules|
    && (forall e | 0 <= e < |s.jobs| :: ExecutionServed(s, s', e))
    && (forall i | 0 <= i < |s.schedules| :: ScheduleServed(s, s', i))
    && AllPublished(s.outbox, s.queue, s'.outbox, s'.queue)
  }

  /** The rows that the passes of a cycle come to, if nobody interferes. */
  function CycleLoad(s: System): nat {
    |Matching(s.jobs, ExpiredAt(s.clock))| + |DueSchedules(s.schedules, s.clock)|
    + |Matching(s.jobs, RetryDueAt(s.clock))| + |Unpublished(s.outbox)|
  }

  lemma {:induction false} MatchingFewer(jobs: seq<Job>, jobs': seq<Job>, p: Job -> bool)
    requires |jobs| <= |jobs'|
    requires forall e | 0 <= e < |jobs'| && p(jobs'[e]) :: e < |jobs| && p(jobs[e])
    ensures |Matching(jobs', p)| <= |Matching(jobs, p)|
    decreases |jobs'|
  {
    if |jobs'| > |jobs| {
      MatchingFewer(jobs, jobs'[..|jobs'| - 1], p);
    } else if jobs' != [] {
      MatchingFewer(jobs[..|jobs| - 1], jobs'[..|jobs'| - 1], p);
    }
  }

  /** Neither reaping nor ticking makes a retry due. */
  lemma NoRetryAdded(s: System, s1: System, s2: System)
    requires ReapDone(s, s1) && TicksDone(s1, s2)
    ensures |Matching(s2.jobs, RetryDueAt(s2.clock))| <= |Matching(s.jobs, RetryDueAt(s.clock))|
  {
    var p := RetryDueAt(s.clock);
    forall e | 0 <= e < |s2.jobs| && p(s2.jobs[e]) ensures e < |s.jobs| && p(s.jobs[e]) {
      assert e < |s1.jobs| ==> s2.jobs[e] == s1.jobs[e];
    }
    MatchingFewer(s.jobs, s2.jobs, p);
  }

  lemma AddsThen(a: seq<OutboxRow>, b: seq<OutboxRow>, c: seq<OutboxRow>, n: nat, m: nat)
    requires Adds(a, b, n) && Adds(b, c, m)
    ensures Adds(a, c, n + m)
  {
    forall r | |a| <= r < |c| ensures c[r].publishedAt.None? {
      assert r < |b| ==> c[r] == b[r];
    }
  }

  lemma StillDispatched(before: nat, mid: nat, outbox: seq<OutboxRow>, outbox': seq<OutboxRow>, e: nat)
    requires before <= mid <= |outbox| <= |outbox'| && Dispatched(mid, outbox, e)
    requires forall r | 0 <= r < |outbox| :: outbox'[r].exec == outbox[r].exec
    ensures Dispatched(before, outbox', e)
  {
    var r :| mid <= r < |outbox| && outbox[r].exec == e;
    assert outbox'[r].exec == e;
  }

  /** The last state of a cycle, after the outbox pass over `s3`. */
  ghost predicate SameButPublished(s3: System, s': System) {
    && s'.jobs == s3.jobs && s'.schedules == s3.schedules && |s'.outbox| == |s3.outbox|
    && forall r | 0 <= r < |s'.outbox| :: s'.outbox[r].exec == s3.outbox[r].exec
  }

  lemma ExecutionIsServed(s: System, s1: System, s2: System, s3: System, s': System, e: nat)
    requires ReapDone(s, s1) && TicksDone(s1, s2) && RequeueDone(s2, s3) && SameButPublished(s3, s')
    requires e < |s.jobs|
    ensures e < |s'.jobs| && ExecutionServed(s, s', e)
  {
    assert s2.jobs[e] == s1.jobs[e];
    var r := s.jobs[e].row;
    if Expired(r, s.clock) {
      if r.attemptCount < r.workflow.maxAttempts {
        StillDispatched(|s.outbox|, |s.outbox|, s1.outbox, s'.outbox, e);
      }
    } else if RetryDue(r, s.clock) {
      StillDispatched(|s.outbox|, |s2.outbox|, s3.outbox, s'.outbox, e);
    }
  }

  lemma ScheduleIsServed(s: System, s1: System, s2: System, s3: System, s': System, i: nat)
    requires ReapDone(s, s1) && TicksDone(s1, s2) && RequeueDone(s2, s3) && SameButPublished(s3, s')
    requires i < |s.schedules|
    ensures i < |s'.schedules| && ScheduleServed(s, s', i)
  {
    if TickDue(s, i) {
      assert TickedOnce(s1, s2, i);
      StillDispatched(|s.outbox|, |s1.outbox|, s2.outbox, s'.outbox, s2.schedules[i].runs[|s.schedules[i].runs|]);
    }
  }

  lemma CycleIsDone(s: System, s1: System, s2: System, s3: System, s': System, failures: seq<Option<string>>,
                    batchSize: nat)
    requires ReapDone(s, s1) && TicksDone(s1, s2) && RequeueDone(s2, s3)
    requires CycleLoad(s) <= batchSize <= |failures| && forall k | 0 <= k < |failures| :: failures[k].None?
    requires s'.jobs == s3.jobs && s'.schedules == s3.schedules
    requires PassColumns(s3, s'.outbox, s'.queue, Batch(s3.outbox, batchSize), failures)
    ensures CycleDone(s, s')
  {
    NoRetryAdded(s, s1, s2);
    var n1, n2 := |Matching(s.jobs, ExpiredAt(s.clock))|, |DueSchedules(s.schedules, s.clock)|;
    var n3 := |Matching(s2.jobs, RetryDueAt(s2.clock))|;
    AddsThen(s.outbox, s1.outbox, s2.outbox, n1, n2);
    AddsThen(s.outbox, s2.outbox, s3.outbox, n1 + n2, n3);
    PublishedAll(s.outbox, s3, s'.outbox, s'.queue, failures, batchSize, n1 + n2 + n3);
    PublishingKeepsExecs(s3, s'.outbox, s'.queue, Batch(s3.outbox, batchSize), failures);
    forall e | 0 <= e < |s.jobs| ensures ExecutionServed(s, s', e) {
      ExecutionIsServed(s, s1, s2, s3, s', e);
    }
    forall i | 0 <= i < |s.schedules| ensures ScheduleServed(s, s', i) {
      ScheduleIsServed(s, s1, s2, s3, s', i);
    }
  }

  lemma PublishingKeepsExecs(s: System, outbox': seq<OutboxRow>, queue': seq<nat>, rows: seq<nat>,
                             failures: seq<Option<string>>)
    requires |rows| <= |failures| && forall i | 0 <= i < |rows| :: rows[i] < |s.outbox|
    requires PassColumns(s, outbox', queue', rows, failures)
    ensures forall r | 0 <= r < |outbox'| :: outbox'[r].exec == s.outbox[r].exec
  {
    forall r | 0 <= r < |outbox'| ensures outbox'[r].exec == s.outbox[r].exec {
      if r in rows {
        var m :| 0 <= m < |rows| && rows[m] == r;
        assert RowTried(s.outbox[rows[m]], outbox'[rows[m]], failures[m], s.clock);
      }
    }
  }

  // ---- The cycle -----------------------------------------------------------

  method ReapPassOf(store: Store, batchSize: nat)
    requires Reachable(store.world, store.View())
    modifies store
    ensures store.From(old(store.View()))
    ensures store.alone ==>
              && Starved(old(store.View()), store.View())
              && store.clock == old(store.clock) && store.schedules == old(store.schedules)
              && (SomeBlocked(store.View()) ==> SomeBlocked(old(store.View())))
              && (|Matching(old(store.jobs), ExpiredAt(old(store.clock)))| <= batchSize ==>
                    ReapDone(old(store.View()), store.View()))
  {
    ghost var before := store.View();
    var now := store.clock;
    var fetched := Select(store, ExpiredAt(now), batchSize);
    ghost var taken;
    var reaped;
    reaped, taken := ReapExpiredExecutions(store, fetched);
    if store.alone {
      ReapStarves(before, store.View(), fetched);
      ReapBlocksNothing(before, store.View(), fetched);
      if |Matching(before.jobs, ExpiredAt(now))| <= batchSize {
        ReapedAll(before, store.View(), fetched);
      }
    }
  }

  lemma BlockedIsFetched(s: System, fetched: seq<nat>)
    requires forall m | 0 <= m < |fetched| :: fetched[m] < |s.schedules|
    requires forall i | 0 <= i < |s.schedules| && TickDue(s, i) :: i in fetched
    ensures SomeBlocked(s) ==> exists m :: 0 <= m < |fetched| && Blocked(s, fetched[m])
  {
    if SomeBlocked(s) {
      var i: nat :| i < |s.schedules| && TickDue(s, i) && Blocked(s, i);
      assert i in fetched;
    }
  }

  /** The pass over the schedules raises if any schedule is blocked and all due ones fit into
      the batch, and only if some is. */
  method SchedulePassOf(store: Store, batchSize: nat) returns (raised: bool)
    requires Reachable(store.world, store.View())
    modifies store
    ensures store.From(old(store.View())) && |store.schedules| >= |old(store.schedules)|
    ensures raised ==> SomeBlocked(store.View())
    ensures SomeBlocked(old(store.View())) && |DueSchedules(old(store.schedules), old(store.clock))| <= batchSize
            ==> raised
    ensures store.alone ==>
              && Starved(old(store.View()), store.View())
              && (raised ==> SomeBlocked(old(store.View())))
              && old(store.jobs) <= store.jobs && NewOnesWait(old(store.View()), store.View())
              && store.clock == old(store.clock)
              && (!raised && |DueSchedules(old(store.schedules), old(store.clock))| <= batchSize ==>
                    TicksDone(old(store.View()), store.View()))
  {
    ghost var before := store.View();
    var fetched := SelectDueSchedules(store, batchSize);
    if |DueSchedules(before.schedules, before.clock)| <= batchSize {
      BlockedIsFetched(before, fetched);
    }
    var prepared;
    prepared, raised := PrepareDueSchedules(store, fetched);
    if store.alone && !raised && |DueSchedules(before.schedules, before.clock)| <= batchSize {
      TickedAll(before, store.View(), fetched);
    }
  }

  /** Expired executions reaped, the others untouched. */
  ghost predicate ReapedOnly(s: System, s': System) {
    && |s.jobs| <= |s'.jobs|
    && forall e | 0 <= e < |s.jobs| ::
         var r := s.jobs[e].row;
         if r.status.Running? && r.leaseExpiresAt.Some? && r.leaseExpiresAt.value <= s.clock
         then ReapColumns(s.jobs[e], s'.jobs[e], s.clock)
         else s'.jobs[e] == s.jobs[e]
  }

  lemma ReapedAndTicked(s: System, s1: System, s': System)
    requires ReapDone(s, s1) && s1.jobs <= s'.jobs
    ensures ReapedOnly(s, s')
  {
    forall e | 0 <= e < |s.jobs| ensures s'.jobs[e] == s1.jobs[e] {}
  }

  /** A second round reaps nothing of the first again. */
  lemma ReapedTwice(s: System, m: System, s': System)
    requires ReapedOnly(s, m) && ReapedOnly(m, s') && m.clock == s.clock
    ensures ReapedOnly(s, s')
    ensures NewOnesWait(s, m) && NewOnesWait(m, s') ==> NewOnesWait(s, s')
  {}

  lemma ExpiredFewer(s: System, m: System)
    requires ReapedOnly(s, m) && m.clock == s.clock
    requires forall e | |s.jobs| <= e < |m.jobs| :: !m.jobs[e].row.status.Running?
    ensures |Matching(m.jobs, ExpiredAt(m.clock))| <= |Matching(s.jobs, ExpiredAt(s.clock))|
  {
    MatchingFewer(s.jobs, m.jobs, ExpiredAt(s.clock));
  }

  /** The executions since `s` are not running. */
  ghost predicate NewOnesWait(s: System, s': System) {
    |s.jobs| <= |s'.jobs| && forall e | |s.jobs| <= e < |s'.jobs| :: !s'.jobs[e].row.status.Running?
  }

  method RetryPassOf(store: Store, batchSize: nat)
    requires Reachable(store.world, store.View())
    modifies store
    ensures store.From(old(store.View()))
    ensures store.alone && |Matching(old(store.jobs), RetryDueAt(old(store.clock)))| <= batchSize ==>
              RequeueDone(old(store.View()), store.View())
  {
    ghost var before := store.View();
    var now := store.clock;
    var fetched := Select(store, RetryDueAt(now), batchSize);
    ghost var taken;
    var requeued;
    requeued, taken := PrepareDueRetries(store, fetched);
    if store.alone && |Matching(before.jobs, RetryDueAt(now))| <= batchSize {
      RequeuedAll(before, store.View(), fetched);
    }
  }

  /** The rest of a cycle: the due retries and the outbox. */
  method RetriesAndOutbox(store: Store, batchSize: nat, failures: seq<Option<string>>) returns (ghost mid: System)
    requires Reachable(store.world, store.View()) && |failures| >= batchSize
    modifies store
    ensures store.From(old(store.View()))
    ensures store.alone && |Matching(old(store.jobs), RetryDueAt(old(store.clock)))| <= batchSize ==>
              && RequeueDone(old(store.View()), mid)
              && store.jobs == mid.jobs && store.schedules == mid.schedules
              && PassColumns(mid, store.outbox, store.queue, Batch(mid.outbox, batchSize), failures)
  {
    ghost var before := store.View();
    RetryPassOf(store, batchSize);
    mid := store.View();
    InvNow(store.world, before, mid);
    var published := PublishDispatchOutbox(store, batchSize, failures);
    ReachesCompose(store.world, before, mid, store.View());
  }

  /** What some erring starts of the scheduler have come to. */
  ghost predicate Restarted(before: System, now: System, starts: nat, batchSize: nat) {
    && Starved(before, now) && now.clock == before.clock
    && (starts == 0 ==> now == before)
    && (starts > 0 && |Matching(before.jobs, ExpiredAt(before.clock))| <= batchSize ==>
          ReapedOnly(before, now) && NewOnesWait(before, now))
  }

  lemma OneMoreStart(before: System, s: System, now: System, starts: nat, batchSize: nat)
    requires Restarted(before, s, starts, batchSize) && Restarted(s, now, 1, batchSize)
    ensures Restarted(before, now, starts + 1, batchSize)
  {
    if starts > 0 && |Matching(before.jobs, ExpiredAt(before.clock))| <= batchSize {
      ExpiredFewer(before, s);
      ReapedTwice(before, s, now);
    }
  }

  lemma ErredOnce(before: System, s: System, now: System, batchSize: nat)
    requires Starved(before, s) && Starved(s, now) && s.clock == before.clock && now.clock == before.clock
    requires s.jobs <= now.jobs && NewOnesWait(s, now)
    requires |Matching(before.jobs, ExpiredAt(before.clock))| <= batchSize ==> ReapDone(before, s)
    ensures Restarted(before, now, 1, batchSize)
  {
    if |Matching(before.jobs, ExpiredAt(before.clock))| <= batchSize {
      ReapedAndTicked(before, s, now);
    }
  }

  /** The first two passes. */
  method ReapAndTick(store: Store, batchSize: nat) returns (raised: bool, ghost mid: System)
    requires Reachable(store.world, store.View())
    modifies store
    ensures store.From(old(store.View())) && |store.schedules| >= |old(store.schedules)|
    ensures raised ==> SomeBlocked(store.View())
    ensures SomeBlocked(old(store.View())) && |store.schedules| <= batchSize ==> raised
    ensures store.alone ==>
              && (raised ==> SomeBlocked(old(store.View())) && Restarted(old(store.View()), store.View(), 1, batchSize))
              && (|DueSchedules(old(store.schedules), old(store.clock))| <= batchSize ==>
                    (raised <==> SomeBlocked(old(store.View()))))
    ensures store.alone && !raised
            && |Matching(old(store.jobs), ExpiredAt(old(store.clock)))| <= batchSize
            && |DueSchedules(old(store.schedules), old(store.clock))| <= batchSize ==>
              ReapDone(old(store.View()), mid) && TicksDone(mid, store.View())
  {
    ghost var before := store.View();
    ReapPassOf(store, batchSize);
    mid := store.View();
    InvNow(store.world, before, mid);
    InvLater(store.world, before, mid);
    if SomeBlocked(before) {
      StillBlocked(store.world, before, mid);
    }
    raised := SchedulePassOf(store, batchSize);
    ReachesCompose(store.world, before, mid, store.View());
    if store.alone && raised {
      ErredOnce(before, mid, store.View(), batchSize);
    }
  }

  /** One cycle. While a request holds the key of a due tick, and as long as the schedules fit
      into a batch, every cycle raises, whoever else runs; left alone it has then published
      nothing and requeued no retry, and only reaped. A cycle raises for no other reason. One
      that does not raise, left alone with a healthy queue and no more work than fits into a
      batch, leaves no expired lease, no due retry and no unpublished row, and every due schedule
      one tick further. */
  method SchedulerCycle(store: Store, batchSize: nat, failures: seq<Option<string>>) returns (raised: bool)
    requires Reachable(store.world, store.View()) && |failures| >= batchSize
    modifies store
    ensures store.From(old(store.View())) && |store.schedules| >= |old(store.schedules)|
    ensures raised ==> SomeBlocked(store.View())
    ensures SomeBlocked(old(store.View())) && |store.schedules| <= batchSize ==> raised
    ensures store.alone ==>
              && (raised ==> SomeBlocked(old(store.View())) && Restarted(old(store.View()), store.View(), 1, batchSize))
              && (|DueSchedules(old(store.schedules), old(store.clock))| <= batchSize ==>
                    (raised <==> SomeBlocked(old(store.View()))))
    ensures store.alone && !raised && CycleLoad(old(store.View())) <= batchSize
            && (forall k | 0 <= k < |failures| :: failures[k].None?) ==>
              CycleDone(old(store.View()), store.View())
  {
    ghost var before := store.View();
    ghost var s;
    raised, s := ReapAndTick(store, batchSize);
    if raised {
      return;
    }
    ghost var m := store.View();
    InvNow(store.world, before, m);
    ghost var mid := RetriesAndOutbox(store, batchSize, failures);
    InvLater(store.world, m, store.View());
    ReachesCompose(store.world, before, m, store.View());
    if store.alone && CycleLoad(before) <= batchSize && (forall k | 0 <= k < |failures| :: failures[k].None?) {
      NoRetryAdded(before, s, m);
      CycleIsDone(before, s, m, mid, store.View(), failures, batchSize);
    }
  }

  /** The scheduler process started again and again: once a request holds the key of a due tick,
      every start ends in an error in its first cycle, and left alone no start ever publishes an
      outbox row or requeues a retry: all it does is reap. */
  method RestartScheduler(store: Store, batchSize: nat, failures: seq<Option<string>>, n: nat) returns (errors: nat)
    requires Reachable(store.world, store.View()) && |failures| >= batchSize
    requires SomeBlocked(store.View())
    modifies store
    ensures store.From(old(store.View())) && errors <= n
    ensures |store.schedules| <= batchSize ==> errors == n
    ensures store.alone && |store.schedules| <= batchSize ==> Restarted(old(store.View()), store.View(), n, batchSize)
  {
    ghost var before := store.View();
    ReachesItself(store.world, before);
    errors := 0;
    for k := 0 to n
      invariant store.From(before) && errors <= k
      invariant |store.schedules| <= batchSize ==> errors == k
      invariant store.alone && |store.schedules| <= batchSize ==> Restarted(before, store.View(), k, batchSize)
    {
      ghost var s := store.View();
      InvNow(store.world, before, s);
      StillBlocked(store.world, before, s);
      var raised := SchedulerCycle(store, batchSize, failures);
      if store.alone && |store.schedules| <= batchSize {
        OneMoreStart(before, s, store.View(), k, batchSize);
      }
      ReachesCompose(store.world, before, s, store.View());
      if raised {
        errors := errors + 1;
      }
    }
  }
}
