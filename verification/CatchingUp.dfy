/** Catching up after a pause: repeated calls of prepare_due_schedules at a standing clock. */
module CatchingUp {
  import opened Backoff
  import opened Models
  import opened Protocol
  import opened Stores
  import opened Schedules
  import opened Scheduling

  // ---- The query -----------------------------------------------------------

  /** The schedules that are due, in creation order. */
  function DueSchedules(schedules: seq<ScheduleRow>, now: Time): (rows: seq<nat>)
    ensures |rows| <= |schedules| && forall i | 0 <= i < |rows| :: rows[i] < |schedules|
  {
    if schedules == [] then [] else
    var n := |schedules| - 1;
    DueSchedules(schedules[..n], now)
    + if schedules[n].enabled && schedules[n].nextRunAt <= now then [n] else []
  }

  lemma {:induction false} DueSchedulesComplete(schedules: seq<ScheduleRow>, now: Time)
    ensures var rows := DueSchedules(schedules, now);
            && Distinct(rows)
            && (forall i | 0 <= i < |schedules| :: i in rows <==> schedules[i].enabled && schedules[i].nextRunAt <= now)
    decreases |schedules|
  {
    if schedules != [] {
      DueSchedulesComplete(schedules[..|schedules| - 1], now);
    }
  }

  /** If nothing becomes due, no more schedules are due. */
  lemma {:induction false} FewerDue(schedules: seq<ScheduleRow>, schedules': seq<ScheduleRow>, now: Time)
    requires |schedules'| == |schedules|
    requires forall i | 0 <= i < |schedules| && schedules'[i].enabled && schedules'[i].nextRunAt <= now ::
               schedules[i].enabled && schedules[i].nextRunAt <= now
    ensures |DueSchedules(schedules', now)| <= |DueSchedules(schedules, now)|
    decreases |schedules|
  {
    if schedules != [] {
      var n := |schedules| - 1;
      FewerDue(schedules[..n], schedules'[..n], now);
    }
  }

  /** The query of the pass: at most a batch of due schedules, in an order left open here. */
  method SelectDueSchedules(store: Store, batchSize: nat) returns (fetched: seq<nat>)
    ensures Distinct(fetched) && |fetched| == Min(batchSize, |DueSchedules(store.schedules, store.clock)|)
    ensures forall i | 0 <= i < |fetched| :: fetched[i] < |store.schedules| && TickDue(store.View(), fetched[i])
    ensures |DueSchedules(store.schedules, store.clock)| <= batchSize ==>
              forall i | 0 <= i < |store.schedules| && TickDue(store.View(), i) :: i in fetched
  {
    fetched := DueSchedules(store.schedules, store.clock);
    DueSchedulesComplete(store.schedules, store.clock);
    forall i | 0 <= i < |fetched| ensures TickDue(store.View(), fetched[i]) {
      assert fetched[i] in fetched;
    }
    if |fetched| > batchSize {
      fetched := fetched[..batchSize];
    }
  }

  // ---- Batches that hold every due schedule --------------------------------

  lemma PassIsPassed(s: System, s': System, fetched: seq<nat>)
    requires Distinct(fetched) && forall i | 0 <= i < |fetched| :: fetched[i] < |s.schedules| && TickDue(s, fetched[i])
    requires forall i | 0 <= i < |s.schedules| && TickDue(s, i) :: i in fetched
    requires TickedFirst(s, s', fetched, |fetched|)
    ensures Passed(s, s', 1)
  {
    assert fetched[..|fetched|] == fetched;
    forall i | 0 <= i < |s.schedules|
      ensures |s'.schedules[i].runs| == |s.schedules[i].runs| + Min(1, Owed(s, i))
      ensures Owed(s', i) == Owed(s, i) - Min(1, Owed(s, i))
      ensures forall k: nat :: RequestHoldsTick(s', i, k) <==> RequestHoldsTick(s, i, k)
    {
      OwesWhenDue(s, i);
      if TickDue(s, i) {
        var m :| 0 <= m < |fetched| && fetched[m] == i;
        TickCatchesUpOne(s.clock, s.schedules[i].nextRunAt, s.schedules[i].interval);
      }
      forall k: nat ensures RequestHoldsTick(s', i, k) <==> RequestHoldsTick(s, i, k) {
        SameRequestKeys(s, s', i, k);
      }
    }
  }

  lemma RaisesIfTaken(s: System, fetched: seq<nat>, prepared: nat, raised: bool)
    requires forall i | 0 <= i < |fetched| :: fetched[i] < |s.schedules| && TickDue(s, fetched[i])
    requires forall i | 0 <= i < |s.schedules| && TickDue(s, i) :: i in fetched
    requires prepared <= |fetched| && (raised <==> prepared < |fetched|)
    requires forall m | 0 <= m < prepared :: !Blocked(s, fetched[m])
    requires raised ==> Blocked(s, fetched[prepared])
    ensures raised <==> SomeKeyTaken(s, 1)
  {
    if raised {
      var i := fetched[prepared];
      OwesWhenDue(s, i);
      assert RequestHoldsTick(s, i, |s.schedules[i].runs|);
    } else if SomeKeyTaken(s, 1) {
      var i: nat, k: nat :|
        i < |s.schedules| && |s.schedules[i].runs| <= k < |s.schedules[i].runs| + Min(1, Owed(s, i))
        && RequestHoldsTick(s, i, k);
      OwesWhenDue(s, i);
      assert Blocked(s, i);
    }
  }

  /** One call of `prepare_due_schedules` with no more due schedules than fit into its batch. */
  method PassOnce(store: Store, batchSize: nat) returns (raised: bool)
    requires Reachable(store.world, store.View()) && store.alone
    requires |DueSchedules(store.schedules, store.clock)| <= batchSize
    modifies store
    ensures store.From(old(store.View()))
    ensures raised <==> SomeKeyTaken(old(store.View()), 1)
    ensures !raised ==> Passed(old(store.View()), store.View(), 1)
  {
    ghost var before := store.View();
    var fetched := SelectDueSchedules(store, batchSize);
    var prepared;
    prepared, raised := PrepareDueSchedules(store, fetched);
    RaisesIfTaken(before, fetched, prepared, raised);
    if !raised {
      PassIsPassed(before, store.View(), fetched);
    }
  }

  lemma StillFits(s: System, s': System, n: nat)
    requires Passed(s, s', n)
    ensures |DueSchedules(s'.schedules, s'.clock)| <= |DueSchedules(s.schedules, s.clock)|
    ensures forall i | 0 <= i < |s.schedules| :: TickDue(s', i) <==> n < Owed(s, i)
  {
    forall i | 0 <= i < |s.schedules|
      ensures TickDue(s', i) <==> n < Owed(s, i)
      ensures TickDue(s', i) ==> TickDue(s, i)
    {
      OwesWhenDue(s, i);
      OwesWhenDue(s', i);
    }
    FewerDue(s.schedules, s'.schedules, s.clock);
  }

  /** Catching up: the clock stands still and no more schedules are due than fit into a batch.
      Within `n` calls one raises exactly if a request holds the key of a tick that falls
      within them. Otherwise a schedule is still due after the `n` calls if and only if it
      owed more than `n` ticks, so it takes exactly floor((now - next_run_at) / interval) + 1. */
  method CatchUp(store: Store, batchSize: nat, n: nat) returns (raised: bool)
    requires Reachable(store.world, store.View()) && store.alone
    requires |DueSchedules(store.schedules, store.clock)| <= batchSize
    modifies store
    ensures store.From(old(store.View()))
    ensures raised <==> SomeKeyTaken(old(store.View()), n)
    ensures !raised ==>
              && Passed(old(store.View()), store.View(), n)
              && forall i | 0 <= i < |store.schedules| :: TickDue(store.View(), i) <==> n < Owed(old(store.View()), i)
  {
    ghost var before := store.View();
    ReachesItself(store.world, before);
    raised := false;
    for p := 0 to n
      invariant store.From(before)
      invariant Passed(before, store.View(), p) && !SomeKeyTaken(before, p)
    {
      ghost var s := store.View();
      InvNow(store.world, before, s);
      StillFits(before, s, p);
      KeyTakenThen(before, s, p);
      raised := PassOnce(store, batchSize);
      ReachesCompose(store.world, before, s, store.View());
      if raised {
        KeyTakenSooner(before, p + 1, n);
        return;
      }
      PassedThen(before, s, store.View(), p);
    }
    StillFits(before, store.View(), n);
  }

  lemma KeyTakenSooner(s: System, n: nat, m: nat)
    requires n <= m && SomeKeyTaken(s, n)
    ensures SomeKeyTaken(s, m)
  {
    var i: nat, k: nat :|
      i < |s.schedules| && |s.schedules[i].runs| <= k < |s.schedules[i].runs| + Min(n, Owed(s, i))
      && RequestHoldsTick(s, i, k);
    assert k < |s.schedules[i].runs| + Min(m, Owed(s, i));
  }

  // ---- Batches of any size -------------------------------------------------

  /** A request holds the key of a tick that is owed. */
  ghost predicate OwedKeyTaken(s: System) {
    exists i: nat, k: nat ::
      i < |s.schedules| && |s.schedules[i].runs| <= k < |s.schedules[i].runs| + Owed(s, i) && RequestHoldsTick(s, i, k)
  }

  /** Some of the ticks that were owed have been taken, and no key stood in their way. */
  ghost predicate Progressed(s: System, s': System) {
    && s'.clock == s.clock && |s'.schedules| == |s.schedules|
    && (forall i | 0 <= i < |s.schedules| ::
          && |s.schedules[i].runs| <= |s'.schedules[i].runs|
          && |s'.schedules[i].runs| + Owed(s', i) == |s.schedules[i].runs| + Owed(s, i))
    && (forall i: nat, k: nat | i < |s.schedules| :: RequestHoldsTick(s', i, k) <==> RequestHoldsTick(s, i, k))
    && (forall i: nat, k: nat | i < |s.schedules| && |s.schedules[i].runs| <= k < |s'.schedules[i].runs| ::
          !RequestHoldsTick(s, i, k))
  }

  lemma ProgressedThen(s: System, m: System, s': System)
    requires Progressed(s, m) && Progressed(m, s')
    ensures Progressed(s, s')
  {
    forall i: nat, k: nat | i < |s.schedules| && |s.schedules[i].runs| <= k < |s'.schedules[i].runs|
      ensures !RequestHoldsTick(s, i, k)
    {
      assert RequestHoldsTick(m, i, k) <==> RequestHoldsTick(s, i, k);
    }
  }

  lemma PassProgresses(s: System, s': System, fetched: seq<nat>)
    requires Distinct(fetched)
    requires forall i | 0 <= i < |fetched| ::
               fetched[i] < |s.schedules| && TickDue(s, fetched[i]) && !Blocked(s, fetched[i])
    requires TickedFirst(s, s', fetched, |fetched|)
    ensures Progressed(s, s')
  {
    assert fetched[..|fetched|] == fetched;
    forall i | 0 <= i < |s.schedules|
      ensures |s.schedules[i].runs| <= |s'.schedules[i].runs| <= |s.schedules[i].runs| + 1
      ensures |s'.schedules[i].runs| + Owed(s', i) == |s.schedules[i].runs| + Owed(s, i)
      ensures |s'.schedules[i].runs| > |s.schedules[i].runs| ==> !Blocked(s, i)
      ensures forall k: nat :: RequestHoldsTick(s', i, k) <==> RequestHoldsTick(s, i, k)
    {
      if i in fetched {
        var m :| 0 <= m < |fetched| && fetched[m] == i;
        TickCatchesUpOne(s.clock, s.schedules[i].nextRunAt, s.schedules[i].interval);
      }
      forall k: nat ensures RequestHoldsTick(s', i, k) <==> RequestHoldsTick(s, i, k) {
        SameRequestKeys(s, s', i, k);
      }
    }
  }

  lemma BlockedIsOwed(s: System, m: System, i: nat)
    requires Progressed(s, m) && i < |m.schedules| && TickDue(m, i) && Blocked(m, i)
    ensures OwedKeyTaken(s)
  {
    OwesWhenDue(m, i);
    assert RequestHoldsTick(s, i, |m.schedules[i].runs|);
  }

  lemma NothingDue(s: System, m: System)
    requires Progressed(s, m) && DueSchedules(m.schedules, m.clock) == []
    ensures forall i | 0 <= i < |s.schedules| ::
              !TickDue(m, i) && |m.schedules[i].runs| == |s.schedules[i].runs| + Owed(s, i)
    ensures !OwedKeyTaken(s) && TotalOwed(m, |m.schedules|) == 0
  {
    DueSchedulesComplete(m.schedules, m.clock);
    forall i | 0 <= i < |s.schedules|
      ensures !TickDue(m, i) && |m.schedules[i].runs| == |s.schedules[i].runs| + Owed(s, i)
    {
      OwesWhenDue(m, i);
    }
    NothingOwed(m, |m.schedules|);
  }

  lemma {:induction false} NothingOwed(s: System, n: nat)
    requires n <= |s.schedules| && forall i | 0 <= i < n :: Owed(s, i) == 0
    ensures TotalOwed(s, n) == 0
    decreases n
  {
    if n > 0 {
      NothingOwed(s, n - 1);
    }
  }

  /** Calls until nothing is due, in batches of any size, with the clock standing still. They
      come to an error exactly if a request holds the key of a tick that is owed. Otherwise every
      schedule ends up with exactly the ticks it owed, after no more calls than ticks and, as a
      call takes at most a batch of them, no fewer than their number over the batch size. */
  method CatchUpInBatches(store: Store, batchSize: Positive) returns (calls: nat, raised: bool)
    requires Reachable(store.world, store.View()) && store.alone
    modifies store
    ensures store.From(old(store.View()))
    ensures raised <==> OwedKeyTaken(old(store.View()))
    ensures !raised ==>
              && |store.schedules| == |old(store.schedules)|
              && (forall i | 0 <= i < |store.schedules| ::
                    !TickDue(store.View(), i)
                    && |store.schedules[i].runs| == |old(store.schedules)[i].runs| + Owed(old(store.View()), i))
              && var total := TotalOwed(old(store.View()), |old(store.schedules)|);
                 calls <= total <= calls * batchSize
  {
    ghost var before := store.View();
    ReachesItself(store.world, before);
    calls, raised := 0, false;
    ghost var taken := 0;
    ghost var total := TotalOwed(before, |before.schedules|);
    while DueSchedules(store.schedules, store.clock) != []
      invariant store.From(before) && Progressed(before, store.View())
      invariant TotalOwed(store.View(), |store.schedules|) + taken == total
      invariant calls <= taken <= calls * batchSize
      decreases TotalOwed(store.View(), |store.schedules|)
    {
      ghost var s := store.View();
      var ticks;
      ticks, raised := NextBatch(store, batchSize, before);
      if raised {
        return;
      }
      OneMoreCall(calls, taken, ticks, batchSize);
      calls, taken := calls + 1, taken + ticks;
    }
    NothingDue(before, store.View());
  }

  lemma OneMoreCall(calls: nat, taken: nat, ticks: nat, batchSize: Positive)
    requires taken <= calls * batchSize && ticks <= batchSize
    ensures taken + ticks <= (calls + 1) * batchSize
  {
    assert (calls + 1) * batchSize == calls * batchSize + batchSize;
  }

  lemma BatchProgresses(before: System, s: System, now: System, fetched: seq<nat>)
    requires Progressed(before, s) && Distinct(fetched)
    requires forall i | 0 <= i < |fetched| ::
               fetched[i] < |s.schedules| && TickDue(s, fetched[i]) && !Blocked(s, fetched[i])
    requires TickedFirst(s, now, fetched, |fetched|)
    ensures Progressed(before, now)
  {
    PassProgresses(s, now, fetched);
    ProgressedThen(before, s, now);
  }

  method NextBatch(store: Store, batchSize: Positive, ghost before: System) returns (ticks: nat, raised: bool)
    requires store.From(before) && store.alone && Progressed(before, store.View())
    requires DueSchedules(store.schedules, store.clock) != []
    modifies store
    ensures store.From(before)
    ensures raised ==> OwedKeyTaken(before)
    ensures !raised ==>
              && 1 <= ticks <= batchSize && Progressed(before, store.View())
              && TotalOwed(store.View(), |store.schedules|) + ticks
                 == TotalOwed(old(store.View()), |old(store.schedules)|)
  {
    ghost var s := store.View();
    InvNow(store.world, before, s);
    var fetched := SelectDueSchedules(store, batchSize);
    ticks, raised := PrepareDueSchedules(store, fetched);
    ReachesCompose(store.world, before, s, store.View());
    if raised {
      BlockedIsOwed(before, s, fetched[ticks]);
    } else {
      assert ticks == |fetched|;
      BatchProgresses(before, s, store.View(), fetched);
    }
  }
}
