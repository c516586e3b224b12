/** Schedule ticks: due times form an exact arithmetic progression, one execution each,
    for any number of concurrent schedulers. */
module Schedules {
  import opened Json
  import opened Backoff
  import opened Models
  import opened Lifecycle
  import opened Protocol
  import opened Fencing

  /** The due time number `k`. */
  function DueTime(startsAt: Time, interval: Positive, k: nat): Time {
    startsAt + (k * interval) as real
  }

  lemma DueTimeNext(startsAt: Time, interval: Positive, k: nat)
    ensures DueTime(startsAt, interval, k) + interval as real == DueTime(startsAt, interval, k + 1)
  {
    assert (k + 1) * interval == k * interval + interval;
  }

  lemma DueTimesIncrease(startsAt: Time, interval: Positive, k: nat, m: nat)
    requires k < m
    ensures DueTime(startsAt, interval, k) < DueTime(startsAt, interval, m)
  {
    assert m * interval == k * interval + (m - k) * interval;
    AtLeastFactor(m - k, interval);
  }

  /** The execution that tick `k` of schedule `i` created. */
  predicate IsTick(s: System, i: nat, k: nat)
    requires i < |s.schedules| && k < |s.schedules[i].runs|
  {
    var r := s.schedules[i];
    && r.runs[k] < |s.jobs|
    && var x := s.jobs[r.runs[k]].row;
       && x.trigger.Schedule? && x.workflow == r.workflow
       && x.key == ForTick(i, DueTime(r.startsAt, r.interval, k))
       && x.input == map["schedule_id" := Num(i as real),
                         "scheduled_for" := Num(DueTime(r.startsAt, r.interval, k))]
  }

  predicate ScheduleFits(s: System, i: nat)
    requires i < |s.schedules|
  {
    var r := s.schedules[i];
    && r.nextRunAt == DueTime(r.startsAt, r.interval, |r.runs|)
    && r.lastRunAt == (if r.runs == [] then None else Some(DueTime(r.startsAt, r.interval, |r.runs| - 1)))
    && forall k | 0 <= k < |r.runs| :: IsTick(s, i, k)
  }

  ghost predicate FromTick(s: System, e: nat) {
    exists i: nat, k: nat :: i < |s.schedules| && k < |s.schedules[i].runs| && s.schedules[i].runs[k] == e
  }

  ghost predicate ScheduleInv(s: System) {
    && (forall i | 0 <= i < |s.schedules| :: ScheduleFits(s, i))
    && (forall e | 0 <= e < |s.jobs| && s.jobs[e].row.trigger.Schedule? :: FromTick(s, e))
    && (forall c | 0 <= c < |s.callers| :: !s.callers[c].trigger.Schedule?)
  }

  lemma IdleScheduleKept(w: World, s: System, a: Action, i: nat)
    requires Inv(w, s) && Can(w, s, a) && i < |s.schedules| && ScheduleFits(s, i)
    requires !(a.Tick? && a.schedule == i)
    ensures i < |Do(w, s, a).schedules| && ScheduleFits(Do(w, s, a), i)
  {
    RequestsStand(w, s, a);
    var s' := Do(w, s, a);
    assert s'.schedules[i] == s.schedules[i];
    forall k | 0 <= k < |s.schedules[i].runs| ensures IsTick(s', i, k) {
      assert IsTick(s, i, k);
    }
  }

  lemma TickedScheduleFits(w: World, s: System, i: nat)
    requires Inv(w, s) && Can(w, s, Tick(i)) && ScheduleFits(s, i)
    ensures ScheduleFits(Do(w, s, Tick(i)), i)
  {
    RequestsStand(w, s, Tick(i));
    var s' := Do(w, s, Tick(i));
    var r, r' := s.schedules[i], s'.schedules[i];
    DueTimeNext(r.startsAt, r.interval, |r.runs|);
    forall k | 0 <= k < |r'.runs| ensures IsTick(s', i, k) {
      if k < |r.runs| {
        assert IsTick(s, i, k);
      } else {
        assert s'.jobs[|s.jobs|] == NewJob(r.workflow, Schedule, ForTick(i, r.nextRunAt), TickPayload(i, r.nextRunAt));
      }
    }
  }

  lemma ScheduledJobsKept(w: World, s: System, a: Action, e: nat)
    requires Inv(w, s) && ScheduleInv(s) && Can(w, s, a)
    requires e < |Do(w, s, a).jobs| && Do(w, s, a).jobs[e].row.trigger.Schedule?
    ensures FromTick(Do(w, s, a), e)
  {
    var s' := Do(w, s, a);
    RequestsStand(w, s, a);
    if e < |s.jobs| {
      var i: nat, k: nat :| i < |s.schedules| && k < |s.schedules[i].runs| && s.schedules[i].runs[k] == e;
      assert s'.schedules[i].runs[k] == e;
    } else {
      assert s'.jobs[e] == Addition(w, s, a)[0];
      var i := a.schedule;
      assert s'.schedules[i].runs[|s.schedules[i].runs|] == e;
    }
  }

  lemma ScheduleInvKept(w: World, s: System, a: Action)
    requires Inv(w, s) && ScheduleInv(s) && Can(w, s, a)
    ensures ScheduleInv(Do(w, s, a))
  {
    var s' := Do(w, s, a);
    forall i | 0 <= i < |s'.schedules| ensures ScheduleFits(s', i) {
      if i < |s.schedules| {
        assert ScheduleFits(s, i);
        if a.Tick? && a.schedule == i {
          TickedScheduleFits(w, s, i);
        } else {
          IdleScheduleKept(w, s, a, i);
        }
      }
    }
    forall e | 0 <= e < |s'.jobs| && s'.jobs[e].row.trigger.Schedule? ensures FromTick(s', e) {
      ScheduledJobsKept(w, s, a, e);
    }
  }

  lemma {:induction false} ScheduleInvAlongRun(w: World, s: System, acts: seq<Action>, s': System)
    requires Inv(w, s) && ScheduleInv(s) && Run(w, s, acts, s')
    ensures ScheduleInv(s')
    decreases |acts|
  {
    if acts != [] {
      InvKept(w, s, acts[0]);
      ScheduleInvKept(w, s, acts[0]);
      ScheduleInvAlongRun(w, Do(w, s, acts[0]), acts[1..], s');
    }
  }

  lemma ScheduleInvReachable(w: World, s: System)
    requires Reachable(w, s)
    ensures Inv(w, s) && ScheduleInv(s)
  {
    var s0 :| Initial(s0) && Reaches(w, s0, s);
    var acts :| Run(w, s0, acts, s);
    InvReachable(w, s);
    ScheduleInvAlongRun(w, s0, acts, s);
  }

  // ---- What schedules guarantee --------------------------------------------

  /** After n advances the next run is due at start + n * interval, and tick k's execution
      is due at start + k * interval: no gap, no duplicate, no execution from elsewhere. */
  lemma TicksAreExact(w: World, s: System, i: nat)
    requires Reachable(w, s) && i < |s.schedules|
    ensures var r := s.schedules[i];
            && r.nextRunAt == r.startsAt + (|r.runs| * r.interval) as real
            && r.lastRunAt == (if r.runs == [] then None else Some(r.nextRunAt - r.interval as real))
            && (forall k | 0 <= k < |r.runs| :: IsTick(s, i, k))
            && (forall k, m | 0 <= k < m < |r.runs| :: r.runs[k] != r.runs[m])
            && (forall e | 0 <= e < |s.jobs| && s.jobs[e].row.trigger.Schedule? && s.jobs[e].row.key.ForTick?
                           && s.jobs[e].row.key.schedule == i :: e in r.runs)
  {
    ScheduleInvReachable(w, s);
    assert ScheduleFits(s, i);
    var r := s.schedules[i];
    forall k, m | 0 <= k < m < |r.runs| ensures r.runs[k] != r.runs[m] {
      assert IsTick(s, i, k) && IsTick(s, i, m);
      DueTimesIncrease(r.startsAt, r.interval, k, m);
    }
    forall e | 0 <= e < |s.jobs| && s.jobs[e].row.trigger.Schedule? && s.jobs[e].row.key.ForTick?
               && s.jobs[e].row.key.schedule == i
      ensures e in r.runs
    {
      assert FromTick(s, e);
      var i': nat, k: nat :| i' < |s.schedules| && k < |s.schedules[i'].runs| && s.schedules[i'].runs[k] == e;
      assert ScheduleFits(s, i') && IsTick(s, i', k);
    }
  }

  /** A request, not a tick, of the schedule's workflow and under the key of its tick number `k`. */
  predicate TakesTick(x: Execution, r: ScheduleRow, i: nat, k: nat) {
    !x.trigger.Schedule? && x.workflow.id == r.workflow.id && x.key == ForTick(i, DueTime(r.startsAt, r.interval, k))
  }

  /** A request, not a tick, that holds the key of tick number `k`. */
  ghost predicate RequestHoldsTick(s: System, i: nat, k: nat)
    requires i < |s.schedules|
  {
    var r := s.schedules[i];
    exists e: nat :: e < |s.jobs| && TakesTick(s.jobs[e].row, r, i, k)
  }

  /** The key of the next tick of schedule `i` is in a request's hands. */
  ghost predicate Blocked(s: System, i: nat)
    requires i < |s.schedules|
  {
    RequestHoldsTick(s, i, |s.schedules[i].runs|)
  }

  /** A due tick goes through if and only if no request was made under its own key: earlier
      ticks never stand in the way. Otherwise the insert violates the unique key. */
  lemma TickBlockedExactlyByRequest(w: World, s: System, i: nat)
    requires Reachable(w, s) && TickDue(s, i)
    ensures Can(w, s, Tick(i)) <==> !Blocked(s, i)
  {
    ScheduleInvReachable(w, s);
    assert ScheduleFits(s, i);
    var r := s.schedules[i];
    var found := FindKey(s.jobs, r.workflow, ForTick(i, r.nextRunAt));
    if found.Some? && s.jobs[found.value].row.trigger.Schedule? {
      TicksAreExact(w, s, i);
      var k :| 0 <= k < |r.runs| && r.runs[k] == found.value;
      assert IsTick(s, i, k);
      DueTimesIncrease(r.startsAt, r.interval, k, |r.runs|);
    }
  }

  lemma HeldStays(w: World, s: System, a: Action, i: nat, k: nat)
    requires Inv(w, s) && Can(w, s, a) && i < |s.schedules| && RequestHoldsTick(s, i, k)
    requires i < |Do(w, s, a).schedules| && Do(w, s, a).schedules[i] == s.schedules[i]
    ensures RequestHoldsTick(Do(w, s, a), i, k)
  {
    var r := s.schedules[i];
    RequestsStand(w, s, a);
    var e: nat :| e < |s.jobs| && TakesTick(s.jobs[e].row, r, i, k);
    assert TakesTick(Do(w, s, a).jobs[e].row, r, i, k);
  }

  lemma BlockedStays(w: World, s: System, a: Action, i: nat)
    requires Inv(w, s) && ScheduleInv(s) && Can(w, s, a) && TickDue(s, i) && Blocked(s, i)
    ensures var s' := Do(w, s, a);
            i < |s'.schedules| && s'.schedules[i] == s.schedules[i] && TickDue(s', i) && Blocked(s', i)
  {
    assert ScheduleFits(s, i);
    assert s.clock <= Do(w, s, a).clock;
    assert Do(w, s, a).schedules[i] == s.schedules[i];
    HeldStays(w, s, a, i, |s.schedules[i].runs|);
  }

  lemma {:induction false} BlockedAlongRun(w: World, s: System, acts: seq<Action>, s': System, i: nat)
    requires Inv(w, s) && ScheduleInv(s) && Run(w, s, acts, s') && TickDue(s, i) && Blocked(s, i)
    ensures i < |s'.schedules| && s'.schedules[i] == s.schedules[i] && TickDue(s', i) && Blocked(s', i)
    decreases |acts|
  {
    if acts != [] {
      BlockedStays(w, s, acts[0], i);
      InvKept(w, s, acts[0]);
      ScheduleInvKept(w, s, acts[0]);
      BlockedAlongRun(w, Do(w, s, acts[0]), acts[1..], s', i);
    }
  }

  /** A due schedule whose next key a request holds stays that way for good: no run of the
      platform ever lets it tick again. */
  lemma BlockedForever(w: World, s: System, s': System, i: nat)
    requires Reachable(w, s) && Reaches(w, s, s') && TickDue(s, i) && Blocked(s, i)
    ensures i < |s'.schedules| && s'.schedules[i] == s.schedules[i] && TickDue(s', i) && Blocked(s', i)
  {
    ScheduleInvReachable(w, s);
    var acts :| Run(w, s, acts, s');
    BlockedAlongRun(w, s, acts, s', i);
  }

  /** The key of the first tick of schedule 0 can be taken before the schedule gets there. */
  lemma RequestCanBlockTick(w: World, s0: System, workflow: Workflow, interval: Positive)
    requires Initial(s0)
    ensures exists s :: Reaches(w, s0, s) && TickDue(s, 0) && !Can(w, s, Tick(0))
  {
    var add := AddSchedule(workflow, interval, s0.clock);
    ReachesItself(w, s0);
    ReachesThen(w, s0, s0, add);
    var s := Do(w, s0, add);
    var lookUp := LookUp(workflow, Manual, ForTick(0, s0.clock), map[]);
    ReachesThen(w, s0, s, lookUp);
    s := Do(w, s, lookUp);
    ReachesThen(w, s0, s, Insert(0));
    s := Do(w, s, Insert(0));
    assert HasKey(s.jobs[0], workflow, ForTick(0, s0.clock));
  }

  // ---- Catching up ---------------------------------------------------------

  /** How many ticks are due at `now`. */
  function TicksDue(now: Time, next: Time, interval: Positive): nat {
    if next > now then 0
    else
      NonNegativeQuotient(now - next, interval);
      ((now - next) / interval as real).Floor + 1
  }

  lemma NonNegativeQuotient(x: real, n: Positive)
    requires x >= 0.0
    ensures x / n as real >= 0.0
  {}

  lemma FloorIs(x: real, n: int)
    requires n as real <= x < n as real + 1.0
    ensures x.Floor == n
  {}

  lemma QuotientLessOne(x: real, y: real)
    requires y > 0.0
    ensures (x - y) / y == x / y - 1.0
  {
    var p, q := (x - y) / y, x / y;
    assert p * y == x - y;
    assert q * y == x;
    Cancel(p, q - 1.0, y);
  }

  lemma Cancel(a: real, b: real, y: real)
    requires y > 0.0
    ensures a * y == b * y ==> a == b
  {
    if a > b {
      assert (a - b) * y > 0.0;
    } else if a < b {
      assert (b - a) * y > 0.0;
    }
  }

  lemma QuotientSmall(x: real, y: real)
    requires 0.0 <= x < y
    ensures 0.0 <= x / y < 1.0
  {}

  /** Each tick takes one off: with time standing still, an overdue schedule needs exactly
      floor((now - next_run_at) / interval) + 1 of them until it is no longer due. */
  lemma TickCatchesUpOne(now: Time, next: Time, interval: Positive)
    requires next <= now
    ensures TicksDue(now, next + interval as real, interval) == TicksDue(now, next, interval) - 1
    ensures TicksDue(now, next, interval) == 1 <==> next + interval as real > now
  {
    var x, y := now - next, interval as real;
    QuotientLessOne(x, y);
    if next + y > now {
      QuotientSmall(x, y);
      FloorIs(x / y, 0);
    } else {
      NonNegativeQuotient(x - y, interval);
      var q := ((x - y) / y).Floor;
      FloorIs(x / y, q + 1);
      assert now - (next + y) == x - y;
    }
  }

  /** The ticks that schedule `i` owes: floor((now - next_run_at) / interval) + 1 when overdue. */
  function Owed(s: System, i: nat): nat
    requires i < |s.schedules|
  {
    var r := s.schedules[i];
    if r.enabled then TicksDue(s.clock, r.nextRunAt, r.interval) else 0
  }

  lemma OwesWhenDue(s: System, i: nat)
    requires i < |s.schedules|
    ensures Owed(s, i) > 0 <==> TickDue(s, i)
  {
    var r := s.schedules[i];
    if r.nextRunAt <= s.clock {
      NonNegativeQuotient(s.clock - r.nextRunAt, r.interval);
    }
  }

  /** The ticks that the first `n` schedules owe together. */
  function TotalOwed(s: System, n: nat): nat
    requires n <= |s.schedules|
  {
    if n == 0 then 0 else TotalOwed(s, n - 1) + Owed(s, n - 1)
  }

  lemma {:induction false} TotalOneLess(s: System, s': System, i: nat, n: nat)
    requires s'.clock == s.clock && |s'.schedules| == |s.schedules| && n <= |s.schedules| && i < |s.schedules|
    requires forall k | 0 <= k < |s.schedules| && k != i :: s'.schedules[k] == s.schedules[k]
    requires Owed(s', i) == Owed(s, i) - 1
    ensures TotalOwed(s', n) == TotalOwed(s, n) - if i < n then 1 else 0
    decreases n
  {
    if n > 0 {
      TotalOneLess(s, s', i, n - 1);
    }
  }

  /** A further scheduled execution holds no request's key. */
  lemma SameRequestKeys(s: System, s': System, i: nat, k: nat)
    requires i < |s.schedules| && i < |s'.schedules| && s.jobs <= s'.jobs
    requires forall e | |s.jobs| <= e < |s'.jobs| :: s'.jobs[e].row.trigger.Schedule?
    requires var r, r' := s.schedules[i], s'.schedules[i];
             r'.workflow == r.workflow && r'.startsAt == r.startsAt && r'.interval == r.interval
    ensures RequestHoldsTick(s', i, k) <==> RequestHoldsTick(s, i, k)
  {
    var r := s.schedules[i];
    if RequestHoldsTick(s, i, k) {
      var e: nat :| e < |s.jobs| && TakesTick(s.jobs[e].row, r, i, k);
      assert TakesTick(s'.jobs[e].row, s'.schedules[i], i, k);
    }
    if RequestHoldsTick(s', i, k) {
      var e: nat :| e < |s'.jobs| && TakesTick(s'.jobs[e].row, s'.schedules[i], i, k);
      assert TakesTick(s.jobs[e].row, r, i, k);
    }
  }

  lemma TickTakesOne(w: World, s: System, i: nat)
    requires Reachable(w, s) && Can(w, s, Tick(i))
    ensures var s' := Do(w, s, Tick(i));
            && Reachable(w, s') && i < |s'.schedules|
            && |s'.schedules[i].runs| == |s.schedules[i].runs| + 1
            && Owed(s', i) == Owed(s, i) - 1
            && forall k: nat :: RequestHoldsTick(s', i, k) <==> RequestHoldsTick(s, i, k)
  {
    var s' := Do(w, s, Tick(i));
    var s0 :| Initial(s0) && Reaches(w, s0, s);
    ReachesThen(w, s0, s, Tick(i));
    TickCatchesUpOne(s.clock, s.schedules[i].nextRunAt, s.schedules[i].interval);
    forall k: nat ensures RequestHoldsTick(s', i, k) <==> RequestHoldsTick(s, i, k) {
      SameRequestKeys(s, s', i, k);
    }
  }

  function Ticks(i: nat, n: nat): (acts: seq<Action>)
    ensures |acts| == n && forall m | 0 <= m < n :: acts[m] == Tick(i)
  {
    seq(n, m => Tick(i))
  }

  ghost predicate CanTickTimes(w: World, s: System, i: nat, n: nat) {
    exists s' :: Run(w, s, Ticks(i, n), s')
  }

  lemma TicksUnfold(w: World, s: System, i: nat, n: nat, s': System)
    requires n > 0
    ensures Run(w, s, Ticks(i, n), s') <==> Can(w, s, Tick(i)) && Run(w, Do(w, s, Tick(i)), Ticks(i, n - 1), s')
  {
    assert Ticks(i, n)[1..] == Ticks(i, n - 1);
  }

  lemma CanTickOnceMore(w: World, s: System, i: nat, n: nat)
    requires n > 0
    ensures CanTickTimes(w, s, i, n) <==> Can(w, s, Tick(i)) && CanTickTimes(w, Do(w, s, Tick(i)), i, n - 1)
  {
    if CanTickTimes(w, s, i, n) {
      var s' :| Run(w, s, Ticks(i, n), s');
      TicksUnfold(w, s, i, n, s');
    }
    if Can(w, s, Tick(i)) && CanTickTimes(w, Do(w, s, Tick(i)), i, n - 1) {
      var s' :| Run(w, Do(w, s, Tick(i)), Ticks(i, n - 1), s');
      TicksUnfold(w, s, i, n, s');
    }
  }

  /** With the clock standing still, a schedule can take `n` more ticks if and only if it owes
      as many and no request holds the key of any of them. */
  lemma {:induction false} CatchUpIsExact(w: World, s: System, i: nat, n: nat)
    requires Reachable(w, s) && i < |s.schedules|
    ensures var made := |s.schedules[i].runs|;
            CanTickTimes(w, s, i, n)
            <==> n <= Owed(s, i) && forall k | made <= k < made + n :: !RequestHoldsTick(s, i, k)
    decreases n
  {
    OwesWhenDue(s, i);
    if n == 0 {
      assert Run(w, s, Ticks(i, 0), s);
    } else {
      CanTickOnceMore(w, s, i, n);
      if TickDue(s, i) {
        TickBlockedExactlyByRequest(w, s, i);
      }
      if Can(w, s, Tick(i)) {
        TickTakesOne(w, s, i);
        CatchUpIsExact(w, Do(w, s, Tick(i)), i, n - 1);
      }
    }
  }

  /** After `n` ticks at a standing clock a schedule is still due if and only if it owed more. */
  lemma {:induction false} DueUntilCaughtUp(w: World, s: System, i: nat, n: nat, s': System)
    requires Reachable(w, s) && i < |s.schedules| && Run(w, s, Ticks(i, n), s')
    ensures i < |s'.schedules| && s'.clock == s.clock
    ensures TickDue(s', i) <==> n < Owed(s, i)
    decreases n
  {
    OwesWhenDue(s, i);
    if n > 0 {
      TicksUnfold(w, s, i, n, s');
      TickTakesOne(w, s, i);
      DueUntilCaughtUp(w, Do(w, s, Tick(i)), i, n - 1, s');
    }
  }

  // ---- Passes over all due schedules ---------------------------------------

  /** `n` passes have been made: every schedule has taken a tick per pass, as far as it owed. */
  ghost predicate Passed(s: System, s': System, n: nat) {
    && s'.clock == s.clock && |s'.schedules| == |s.schedules|
    && (forall i | 0 <= i < |s.schedules| ::
          && |s'.schedules[i].runs| == |s.schedules[i].runs| + Min(n, Owed(s, i))
          && Owed(s', i) == Owed(s, i) - Min(n, Owed(s, i)))
    && (forall i: nat, k: nat | i < |s.schedules| :: RequestHoldsTick(s', i, k) <==> RequestHoldsTick(s, i, k))
  }

  /** A request holds the key of a tick that falls within the next `n` passes. */
  ghost predicate SomeKeyTaken(s: System, n: nat) {
    exists i: nat, k: nat ::
      i < |s.schedules| && |s.schedules[i].runs| <= k < |s.schedules[i].runs| + Min(n, Owed(s, i))
      && RequestHoldsTick(s, i, k)
  }

  lemma PassedThen(s: System, m: System, s': System, n: nat)
    requires Passed(s, m, n) && Passed(m, s', 1)
    ensures Passed(s, s', n + 1)
  {}

  lemma KeyTakenThen(s: System, m: System, n: nat)
    requires Passed(s, m, n) && !SomeKeyTaken(s, n)
    ensures SomeKeyTaken(s, n + 1) <==> SomeKeyTaken(m, 1)
  {
    if SomeKeyTaken(s, n + 1) {
      var i: nat, k: nat :|
        i < |s.schedules| && |s.schedules[i].runs| <= k < |s.schedules[i].runs| + Min(n + 1, Owed(s, i))
        && RequestHoldsTick(s, i, k);
      assert RequestHoldsTick(m, i, k);
    }
    if SomeKeyTaken(m, 1) {
      var i: nat, k: nat :|
        i < |m.schedules| && |m.schedules[i].runs| <= k < |m.schedules[i].runs| + Min(1, Owed(m, i))
        && RequestHoldsTick(m, i, k);
      assert RequestHoldsTick(s, i, k);
    }
  }
}
