/** The outbox publisher (publish_dispatch_outbox): push to the queue, then mark, for every
    row of a batch, whatever pushes fail. */
module Publishing {
  import opened Json
  import opened Backoff
  import opened Models
  import opened Protocol
  import opened Stores

  // ---- What a pass selects and does ----------------------------------------

  /** The unpublished rows, oldest first. */
  function Unpublished(outbox: seq<OutboxRow>): (rows: seq<nat>)
    ensures forall i | 0 <= i < |rows| :: rows[i] < |outbox| && outbox[rows[i]].publishedAt.None?
  {
    if outbox == [] then [] else
    var n := |outbox| - 1;
    Unpublished(outbox[..n]) + if outbox[n].publishedAt.None? then [n] else []
  }

  lemma {:induction false} UnpublishedIsSorted(outbox: seq<OutboxRow>)
    ensures Increasing(Unpublished(outbox))
    decreases |outbox|
  {
    if outbox != [] {
      UnpublishedIsSorted(outbox[..|outbox| - 1]);
    }
  }

  lemma {:induction false} UnpublishedIsComplete(outbox: seq<OutboxRow>, r: nat)
    requires r < |outbox|
    ensures r in Unpublished(outbox) <==> outbox[r].publishedAt.None?
    decreases |outbox|
  {
    if r < |outbox| - 1 {
      UnpublishedIsComplete(outbox[..|outbox| - 1], r);
    }
  }

  function Batch(outbox: seq<OutboxRow>, batchSize: nat): (rows: seq<nat>)
    ensures rows <= Unpublished(outbox) && |rows| <= batchSize
    ensures |rows| < batchSize ==> rows == Unpublished(outbox)
  {
    var rows := Unpublished(outbox);
    if |rows| <= batchSize then rows else rows[..batchSize]
  }

  /** The first 2000 characters of an error. */
  function Truncated(error: string): string {
    if |error| <= 2000 then error else error[..2000]
  }

  function Handled(r: OutboxRow, failure: Option<string>, now: Time): OutboxRow {
    match failure
    case None =>
      r.(attemptCount := r.attemptCount + 1, lastError := None, publishedAt := Some(now), sends := r.sends + 1)
    case Some(error) => r.(attemptCount := r.attemptCount + 1, lastError := Some(Truncated(error)))
  }

  /** The ids pushed for the first `n` rows, in order: those whose push succeeds. */
  function Pushed(outbox: seq<OutboxRow>, rows: seq<nat>, failures: seq<Option<string>>, n: nat): seq<nat>
    requires n <= |rows| <= |failures| && forall i | 0 <= i < |rows| :: rows[i] < |outbox|
  {
    if n == 0 then [] else
    Pushed(outbox, rows, failures, n - 1) + if failures[n - 1].None? then [outbox[rows[n - 1]].exec] else []
  }

  /** The outbox with the first `n` rows of the batch handled. */
  function HandleRows(outbox: seq<OutboxRow>, rows: seq<nat>, failures: seq<Option<string>>, n: nat, now: Time)
    : (outbox': seq<OutboxRow>)
    requires n <= |rows| <= |failures| && forall i | 0 <= i < |rows| :: rows[i] < |outbox|
    ensures |outbox'| == |outbox|
  {
    if n == 0 then outbox else
    HandleRows(outbox, rows, failures, n - 1, now)[rows[n - 1] := Handled(outbox[rows[n - 1]], failures[n - 1], now)]
  }

  predicate Increasing(rows: seq<nat>) {
    forall i, k | 0 <= i < k < |rows| :: rows[i] < rows[k]
  }

  /** Each row of the batch is handled once, from its original, and no other row changes. */
  lemma {:induction false} RowsHandledElsewhere(outbox: seq<OutboxRow>, rows: seq<nat>, failures: seq<Option<string>>,
                                                n: nat, now: Time, r: nat)
    requires n <= |rows| <= |failures| && forall i | 0 <= i < |rows| :: rows[i] < |outbox|
    requires r < |outbox| && forall m | 0 <= m < n :: rows[m] != r
    ensures HandleRows(outbox, rows, failures, n, now)[r] == outbox[r]
  {
    if n > 0 {
      RowsHandledElsewhere(outbox, rows, failures, n - 1, now, r);
    }
  }

  lemma {:induction false} RowsHandledAt(outbox: seq<OutboxRow>, rows: seq<nat>, failures: seq<Option<string>>,
                                         n: nat, now: Time, m: nat)
    requires m < n <= |rows| <= |failures| && forall i | 0 <= i < |rows| :: rows[i] < |outbox|
    requires Increasing(rows)
    ensures HandleRows(outbox, rows, failures, n, now)[rows[m]] == Handled(outbox[rows[m]], failures[m], now)
  {
    if m < n - 1 {
      RowsHandledAt(outbox, rows, failures, n - 1, now, m);
    }
  }

  /** The first `n` rows of the batch handled, and nothing else done. */
  ghost predicate HandledFirst(store: Store, before: System, rows: seq<nat>, failures: seq<Option<string>>, n: nat)
    reads store
    requires n <= |rows| <= |failures| && forall i | 0 <= i < |rows| :: rows[i] < |before.outbox|
  {
    && store.clock == before.clock && store.jobs == before.jobs && store.schedules == before.schedules
    && store.queue == before.queue + Pushed(before.outbox, rows, failures, n)
    && store.outbox == HandleRows(before.outbox, rows, failures, n, before.clock)
  }

  // ---- In columns ----------------------------------------------------------

  /** A row after its push was tried: published, or left with the first 2000 characters of the
      error. */
  predicate RowTried(r: OutboxRow, r': OutboxRow, failure: Option<string>, now: Time) {
    && r'.exec == r.exec && r'.attemptCount == r.attemptCount + 1
    && match failure
       case None => r'.publishedAt == Some(now) && r'.lastError.None?
       case Some(error) =>
         && r'.publishedAt == r.publishedAt
         && r'.lastError.Some? && r'.lastError.value <= error && |r'.lastError.value| == Min(2000, |error|)
  }

  /** The positions below `n` whose push does not fail, in order. */
  function Successes(failures: seq<Option<string>>, n: nat): (ok: seq<nat>)
    requires n <= |failures|
    ensures forall k | 0 <= k < |ok| :: ok[k] < n && failures[ok[k]].None?
    ensures forall m | 0 <= m < n && failures[m].None? :: m in ok
    ensures Increasing(ok)
  {
    if n == 0 then [] else
    var ok := Successes(failures, n - 1);
    if failures[n - 1].None? then ok + [n - 1] else ok
  }

  lemma {:induction false} PushedAreSuccesses(outbox: seq<OutboxRow>, rows: seq<nat>, failures: seq<Option<string>>,
                                              n: nat)
    requires n <= |rows| <= |failures| && forall i | 0 <= i < |rows| :: rows[i] < |outbox|
    ensures var ok, pushed := Successes(failures, n), Pushed(outbox, rows, failures, n);
            |pushed| == |ok| && forall k | 0 <= k < |ok| :: ok[k] < n && pushed[k] == outbox[rows[ok[k]]].exec
    decreases n
  {
    if n > 0 {
      PushedAreSuccesses(outbox, rows, failures, n - 1);
    }
  }

  /** A batch holds the oldest unpublished rows, in order, and all of them if they fit. */
  lemma BatchIsOldest(outbox: seq<OutboxRow>, batchSize: nat)
    ensures var rows := Batch(outbox, batchSize);
            && Increasing(rows) && |rows| <= batchSize
            && (forall i | 0 <= i < |rows| :: rows[i] < |outbox| && outbox[rows[i]].publishedAt.None?)
            && (forall r | 0 <= r < |outbox| && outbox[r].publishedAt.None? && r !in rows ::
                  |rows| == batchSize && forall i | 0 <= i < |rows| :: rows[i] < r)
  {
    var all, rows := Unpublished(outbox), Batch(outbox, batchSize);
    UnpublishedIsSorted(outbox);
    forall r | 0 <= r < |outbox| && outbox[r].publishedAt.None? && r !in rows
      ensures |rows| == batchSize && forall i | 0 <= i < |rows| :: rows[i] < r
    {
      UnpublishedIsComplete(outbox, r);
      var k :| 0 <= k < |all| && all[k] == r;
      assert forall q | 0 <= q < |rows| :: all[q] == rows[q] != r;
    }
  }

  /** What a pass with this batch leaves: each row of the batch tried, no other row touched, and
      the queue longer by the ids of the rows whose push did not fail, in order. */
  ghost predicate PassColumns(before: System, outbox: seq<OutboxRow>, queue: seq<nat>, rows: seq<nat>,
                              failures: seq<Option<string>>)
    requires |rows| <= |failures| && forall i | 0 <= i < |rows| :: rows[i] < |before.outbox|
  {
    var ok := Successes(failures, |rows|);
    && |outbox| == |before.outbox|
    && (forall m | 0 <= m < |rows| :: RowTried(before.outbox[rows[m]], outbox[rows[m]], failures[m], before.clock))
    && (forall r | 0 <= r < |outbox| && r !in rows :: outbox[r] == before.outbox[r])
    && |queue| == |before.queue| + |ok| && before.queue <= queue
    && forall k | 0 <= k < |ok| :: ok[k] < |rows| && queue[|before.queue| + k] == before.outbox[rows[ok[k]]].exec
  }

  lemma HandledColumns(before: System, outbox: seq<OutboxRow>, queue: seq<nat>, rows: seq<nat>,
                       failures: seq<Option<string>>)
    requires |rows| <= |failures| && forall i | 0 <= i < |rows| :: rows[i] < |before.outbox|
    requires Increasing(rows)
    requires outbox == HandleRows(before.outbox, rows, failures, |rows|, before.clock)
    requires queue == before.queue + Pushed(before.outbox, rows, failures, |rows|)
    ensures PassColumns(before, outbox, queue, rows, failures)
  {
    forall m | 0 <= m < |rows|
      ensures RowTried(before.outbox[rows[m]], outbox[rows[m]], failures[m], before.clock)
    {
      RowsHandledAt(before.outbox, rows, failures, |rows|, before.clock, m);
    }
    forall r | 0 <= r < |outbox| && r !in rows ensures outbox[r] == before.outbox[r] {
      RowsHandledElsewhere(before.outbox, rows, failures, |rows|, before.clock, r);
    }
    PushedAreSuccesses(before.outbox, rows, failures, |rows|);
  }

  // ---- The pass ------------------------------------------------------------

  predicate SendsGrow(outbox: seq<OutboxRow>, outbox': seq<OutboxRow>) {
    |outbox| <= |outbox'| && forall r | 0 <= r < |outbox| :: outbox[r].sends <= outbox'[r].sends
  }

  /** Of the first `n` rows, each whose push does not fail has been pushed. */
  predicate PushedBeforeMark(outbox: seq<OutboxRow>, rows: seq<nat>, failures: seq<Option<string>>, n: nat) {
    && n <= |rows| && n <= |failures|
    && forall m | 0 <= m < n && failures[m].None? :: rows[m] < |outbox| && outbox[rows[m]].sends > 0
  }

  lemma PushedOneMore(outbox: seq<OutboxRow>, outbox': seq<OutboxRow>, rows: seq<nat>,
                      failures: seq<Option<string>>, n: nat)
    requires PushedBeforeMark(outbox, rows, failures, n) && SendsGrow(outbox, outbox')
    requires n < |rows| && n < |failures| && rows[n] < |outbox'|
    requires failures[n].None? ==> outbox'[rows[n]].sends > 0
    ensures PushedBeforeMark(outbox', rows, failures, n + 1)
  {}

  /** `dispatcher.enqueue` and the commit that marks the row, with time for everybody else
      before and between; `attempts` is the row's count as loaded. */
  method PublishNext(store: Store, r: nat, attempts: nat, failure: Option<string>, ghost before: System)
    requires store.From(before) && r < |store.outbox|
    modifies store
    ensures store.From(before) && |store.outbox| >= old(|store.outbox|)
    ensures SendsGrow(old(store.outbox), store.outbox)
    ensures failure.None? ==> store.outbox[r].sends > 0
    ensures store.alone && old(store.outbox)[r].attemptCount == attempts ==>
              && store.clock == old(store.clock)
              && store.jobs == old(store.jobs) && store.schedules == old(store.schedules)
              && store.outbox == old(store.outbox)[r := Handled(old(store.outbox)[r], failure, old(store.clock))]
              && store.queue == old(store.queue) + if failure.None? then [old(store.outbox)[r].exec] else []
  {
    ghost var s := store.View();
    store.Others(Someone);
    OthersTook(store.world, before, s, store.View());
    if failure.Some? {
      RecordFailure(store, r, attempts, failure.value, before);
    } else {
      PushRow(store, r, before);
      s := store.View();
      store.Others(Someone);
      OthersTook(store.world, before, s, store.View());
      MarkRow(store, r, attempts, before);
    }
  }

  method PushRow(store: Store, r: nat, ghost before: System)
    requires store.From(before) && r < |store.outbox|
    modifies store
    ensures store.From(before) && store.clock == old(store.clock)
    ensures store.jobs == old(store.jobs) && store.schedules == old(store.schedules)
    ensures store.queue == old(store.queue) + [old(store.outbox)[r].exec]
    ensures store.outbox == old(store.outbox)[r := old(store.outbox)[r].(sends := old(store.outbox)[r].sends + 1)]
  {
    ghost var s := store.View();
    store.queue := store.queue + [store.outbox[r].exec];
    store.outbox := store.outbox[r := store.outbox[r].(sends := store.outbox[r].sends + 1)];
    Took(store.world, before, s, Push(r), store.View());
  }

  method MarkRow(store: Store, r: nat, attempts: nat, ghost before: System)
    requires store.From(before) && r < |store.outbox| && store.outbox[r].sends > 0
    modifies store
    ensures store.From(before) && store.clock == old(store.clock) && store.queue == old(store.queue)
    ensures store.jobs == old(store.jobs) && store.schedules == old(store.schedules)
    ensures store.outbox == old(store.outbox)[r := old(store.outbox)[r].(
              attemptCount := attempts + 1, lastError := None, publishedAt := Some(old(store.clock)))]
  {
    ghost var s := store.View();
    store.outbox := store.outbox[r := store.outbox[r].(
      attemptCount := attempts + 1, lastError := None, publishedAt := Some(store.clock))];
    Took(store.world, before, s, Mark(r, attempts + 1), store.View());
  }

  method RecordFailure(store: Store, r: nat, attempts: nat, error: string, ghost before: System)
    requires store.From(before) && r < |store.outbox|
    modifies store
    ensures store.From(before) && store.clock == old(store.clock) && store.queue == old(store.queue)
    ensures store.jobs == old(store.jobs) && store.schedules == old(store.schedules)
    ensures store.outbox == old(store.outbox)[r := old(store.outbox)[r].(
              attemptCount := attempts + 1, lastError := Some(Truncated(error)))]
  {
    ghost var s := store.View();
    store.outbox := store.outbox[r := store.outbox[r].(
      attemptCount := attempts + 1, lastError := Some(if |error| <= 2000 then error else error[..2000]))];
    Took(store.world, before, s, RecordError(r, attempts + 1, Truncated(error)), store.View());
  }

  /** The loop of the pass. */
  method PublishRows(store: Store, rows: seq<nat>, failures: seq<Option<string>>, ghost before: System)
    returns (published: nat)
    requires Reachable(store.world, before) && store.View() == before && |rows| <= |failures|
    requires Increasing(rows) && forall i | 0 <= i < |rows| :: rows[i] < |store.outbox|
    modifies store
    ensures store.From(before)
    ensures published == |Pushed(before.outbox, rows, failures, |rows|)|
    ensures PushedBeforeMark(store.outbox, rows, failures, |rows|)
    ensures store.alone ==> HandledFirst(store, before, rows, failures, |rows|)
  {
    ReachesItself(store.world, before);
    var outbox := store.outbox;
    published := 0;
    for i := 0 to |rows|
      invariant store.From(before) && |store.outbox| >= |outbox|
      invariant published == |Pushed(outbox, rows, failures, i)|
      invariant PushedBeforeMark(store.outbox, rows, failures, i)
      invariant store.alone ==> HandledFirst(store, before, rows, failures, i)
    {
      RowsHandledElsewhere(outbox, rows, failures, i, before.clock, rows[i]);
      ghost var sofar := store.outbox;
      PublishNext(store, rows[i], outbox[rows[i]].attemptCount, failures[i], before);
      PushedOneMore(sofar, store.outbox, rows, failures, i);
      if failures[i].None? {
        published := published + 1;
      }
    }
  }

  /** `publish_dispatch_outbox`: `failures` says which pushes raise. A pass on its own
      appends to the queue exactly the ids whose push succeeds, oldest first, marks exactly
      those rows, records the error of the others, and returns the count. */
  method PublishDispatchOutbox(store: Store, batchSize: nat, failures: seq<Option<string>>) returns (published: nat)
    requires Reachable(store.world, store.View()) && |failures| >= batchSize
    modifies store
    ensures store.From(old(store.View()))
    ensures var rows := Batch(old(store.outbox), batchSize);
            && published == |Pushed(old(store.outbox), rows, failures, |rows|)| == |Successes(failures, |rows|)|
            && PushedBeforeMark(store.outbox, rows, failures, |rows|)
            && (store.alone ==>
                  && HandledFirst(store, old(store.View()), rows, failures, |rows|)
                  && PassColumns(old(store.View()), store.outbox, store.queue, rows, failures))
  {
    ghost var before := store.View();
    var rows := Batch(store.outbox, batchSize);
    UnpublishedIsSorted(store.outbox);
    published := PublishRows(store, rows, failures, before);
    PushedAreSuccesses(before.outbox, rows, failures, |rows|);
    if store.alone {
      HandledColumns(before, store.outbox, store.queue, rows, failures);
    }
  }

  // ---- Draining ------------------------------------------------------------

  /** `outbox'` is `outbox` with exactly the given rows marked published. */
  ghost predicate Marks(outbox: seq<OutboxRow>, outbox': seq<OutboxRow>, rows: seq<nat>) {
    && |outbox'| == |outbox|
    && forall r | 0 <= r < |outbox| ::
         outbox'[r].publishedAt.None? <==> outbox[r].publishedAt.None? && r !in rows
  }

  lemma MarksPrefix(outbox: seq<OutboxRow>, outbox': seq<OutboxRow>, rows: seq<nat>, rows': seq<nat>)
    requires outbox != [] && Marks(outbox, outbox', rows)
    requires rows == rows' || rows == rows' + [|outbox| - 1]
    ensures Marks(outbox[..|outbox| - 1], outbox'[..|outbox| - 1], rows')
  {}

  /** Marking the oldest `b` unpublished rows leaves the others, in order. */
  lemma {:induction false} UnpublishedAfter(outbox: seq<OutboxRow>, outbox': seq<OutboxRow>, b: nat)
    requires b <= |Unpublished(outbox)| && Marks(outbox, outbox', Unpublished(outbox)[..b])
    ensures Unpublished(outbox') == Unpublished(outbox)[b..]
    decreases |outbox|
  {
    if outbox != [] {
      var n := |outbox| - 1;
      var all, first := Unpublished(outbox), Unpublished(outbox[..n]);
      if b <= |first| {
        assert all[..b] == first[..b];
        MarksPrefix(outbox, outbox', all[..b], first[..b]);
        UnpublishedAfter(outbox[..n], outbox'[..n], b);
        assert n !in first[..b];
      } else {
        assert all[..b] == first + [n] && first[..|first|] == first;
        MarksPrefix(outbox, outbox', all[..b], first[..|first|]);
        UnpublishedAfter(outbox[..n], outbox'[..n], |first|);
      }
    }
  }

  /** A healthy pass leaves exactly the rows beyond its batch. */
  lemma HealthyPassDrains(outbox: seq<OutboxRow>, failures: seq<Option<string>>, batchSize: nat, now: Time)
    requires |failures| >= batchSize && forall i | 0 <= i < |failures| :: failures[i].None?
    ensures var rows := Batch(outbox, batchSize);
            Unpublished(HandleRows(outbox, rows, failures, |rows|, now)) == Unpublished(outbox)[|rows|..]
  {
    var rows := Batch(outbox, batchSize);
    var outbox' := HandleRows(outbox, rows, failures, |rows|, now);
    UnpublishedIsSorted(outbox);
    forall r | 0 <= r < |outbox|
      ensures outbox'[r].publishedAt.None? <==> outbox[r].publishedAt.None? && r !in rows
    {
      if r in rows {
        var m :| 0 <= m < |rows| && rows[m] == r;
        RowsHandledAt(outbox, rows, failures, |rows|, now, m);
      } else {
        RowsHandledElsewhere(outbox, rows, failures, |rows|, now, r);
      }
    }
    assert rows == Unpublished(outbox)[..|rows|];
    UnpublishedAfter(outbox, outbox', |rows|);
  }

  /** Nothing fails. */
  function Healthy(batchSize: nat): (failures: seq<Option<string>>)
    ensures |failures| == batchSize && forall i | 0 <= i < batchSize :: failures[i].None?
  {
    seq(batchSize, i => None)
  }

  function ExecsOf(outbox: seq<OutboxRow>, rows: seq<nat>): (execs: seq<nat>)
    requires forall i | 0 <= i < |rows| :: rows[i] < |outbox|
    ensures |execs| == |rows| && forall i | 0 <= i < |rows| :: execs[i] == outbox[rows[i]].exec
  {
    seq(|rows|, i requires 0 <= i < |rows| => outbox[rows[i]].exec)
  }

  lemma {:induction false} AllPushed(outbox: seq<OutboxRow>, rows: seq<nat>, failures: seq<Option<string>>, n: nat)
    requires n <= |rows| <= |failures| && forall i | 0 <= i < |rows| :: rows[i] < |outbox|
    requires forall i | 0 <= i < |failures| :: failures[i].None?
    ensures Pushed(outbox, rows, failures, n) == ExecsOf(outbox, rows[..n])
    decreases n
  {
    if n > 0 {
      AllPushed(outbox, rows, failures, n - 1);
    }
  }

  /** Handling a row leaves the execution it dispatches. */
  lemma {:induction false} ExecsStay(outbox: seq<OutboxRow>, rows: seq<nat>, failures: seq<Option<string>>,
                                     n: nat, now: Time, r: nat)
    requires n <= |rows| <= |failures| && forall i | 0 <= i < |rows| :: rows[i] < |outbox|
    requires r < |outbox|
    ensures HandleRows(outbox, rows, failures, n, now)[r].exec == outbox[r].exec
    decreases n
  {
    if n > 0 {
      ExecsStay(outbox, rows, failures, n - 1, now, r);
    }
  }

  function Ceiling(n: nat, b: Positive): nat {
    (n + b - 1) / b
  }

  /** Passes of `b` cover `n` rows exactly from the ceiling of n / b on. */
  lemma CoveredFromCeiling(n: nat, b: Positive, passes: nat)
    ensures passes * b >= n <==> passes >= Ceiling(n, b)
  {
    var c := Ceiling(n, b);
    assert n <= c * b < n + b;
    if passes >= c {
      assert passes * b == c * b + (passes - c) * b;
      ProductNotNegative(passes - c, b);
    } else {
      assert (c - 1) * b == passes * b + (c - 1 - passes) * b;
      assert (c - 1) * b == c * b - b;
      ProductNotNegative(c - 1 - passes, b);
    }
  }

  lemma ProductNotNegative(a: int, b: int)
    requires a >= 0 && b >= 0
    ensures a * b >= 0
  {}

  /** After some passes: the oldest `done` of the rows unpublished before are published, once
      each and in order, and the others are still unpublished, in order. */
  ghost predicate Drained(before: System, outbox: seq<OutboxRow>, queue: seq<nat>, done: nat) {
    var rows := Unpublished(before.outbox);
    && done <= |rows| && |outbox| == |before.outbox|
    && Unpublished(outbox) == rows[done..]
    && queue == before.queue + ExecsOf(before.outbox, rows[..done])
    && forall r | 0 <= r < |outbox| :: outbox[r].exec == before.outbox[r].exec
  }

  lemma ExecsContinue(before: seq<OutboxRow>, outbox: seq<OutboxRow>, all: seq<nat>, done: nat, done': nat)
    requires done <= done' <= |all| && |outbox| == |before| && forall i | 0 <= i < |all| :: all[i] < |before|
    requires forall r | 0 <= r < |outbox| :: outbox[r].exec == before[r].exec
    ensures ExecsOf(before, all[..done']) == ExecsOf(before, all[..done]) + ExecsOf(outbox, all[done..done'])
  {
    assert all[..done'] == all[..done] + all[done..done'];
  }

  lemma BatchOfRest(all: seq<nat>, outbox: seq<OutboxRow>, done: nat, batchSize: nat)
    requires done <= |all| && Unpublished(outbox) == all[done..]
    ensures Batch(outbox, batchSize) == all[done..Min(done + batchSize, |all|)]
  {}

  /** What one healthy pass makes of the outbox and the queue. */
  ghost predicate HealthyPass(s: System, outbox: seq<OutboxRow>, queue: seq<nat>, batchSize: nat) {
    var rows := Batch(s.outbox, batchSize);
    && |outbox| == |s.outbox|
    && Unpublished(outbox) == Unpublished(s.outbox)[|rows|..]
    && queue == s.queue + ExecsOf(s.outbox, rows)
    && forall r | 0 <= r < |outbox| :: outbox[r].exec == s.outbox[r].exec
  }

  lemma HealthyPassIs(s: System, outbox: seq<OutboxRow>, queue: seq<nat>, batchSize: nat)
    requires var rows := Batch(s.outbox, batchSize);
             && queue == s.queue + Pushed(s.outbox, rows, Healthy(batchSize), |rows|)
             && outbox == HandleRows(s.outbox, rows, Healthy(batchSize), |rows|, s.clock)
    ensures HealthyPass(s, outbox, queue, batchSize)
    ensures var rows := Batch(s.outbox, batchSize); |Pushed(s.outbox, rows, Healthy(batchSize), |rows|)| == |rows|
  {
    var rows := Batch(s.outbox, batchSize);
    HealthyPassDrains(s.outbox, Healthy(batchSize), batchSize, s.clock);
    AllPushed(s.outbox, rows, Healthy(batchSize), |rows|);
    assert rows[..|rows|] == rows;
    forall r | 0 <= r < |outbox| ensures outbox[r].exec == s.outbox[r].exec {
      ExecsStay(s.outbox, rows, Healthy(batchSize), |rows|, s.clock, r);
    }
  }

  /** The next batch, and what it leaves. */
  lemma RestAfterBatch(all: seq<nat>, outbox: seq<OutboxRow>, outbox': seq<OutboxRow>, done: nat, batchSize: nat)
    requires done <= |all| && Unpublished(outbox) == all[done..]
    requires Unpublished(outbox') == Unpublished(outbox)[|Batch(outbox, batchSize)|..]
    ensures var done' := Min(done + batchSize, |all|);
            && Batch(outbox, batchSize) == all[done..done']
            && done' == done + |Batch(outbox, batchSize)| && Unpublished(outbox') == all[done'..]
  {
    BatchOfRest(all, outbox, done, batchSize);
  }

  lemma DrainedMore(before: System, s: System, outbox: seq<OutboxRow>, queue: seq<nat>, done: nat, batchSize: nat)
    requires Drained(before, s.outbox, s.queue, done) && HealthyPass(s, outbox, queue, batchSize)
    ensures Drained(before, outbox, queue, Min(done + batchSize, |Unpublished(before.outbox)|))
    ensures done + |Batch(s.outbox, batchSize)| == Min(done + batchSize, |Unpublished(before.outbox)|)
  {
    var all := Unpublished(before.outbox);
    RestAfterBatch(all, s.outbox, outbox, done, batchSize);
    QueueAfterBatch(before, s, queue, all, done, Min(done + batchSize, |all|));
  }

  lemma QueueAfterBatch(before: System, s: System, queue: seq<nat>, all: seq<nat>, done: nat, done': nat)
    requires done <= done' <= |all| && |s.outbox| == |before.outbox|
    requires forall i | 0 <= i < |all| :: all[i] < |before.outbox|
    requires forall r | 0 <= r < |s.outbox| :: s.outbox[r].exec == before.outbox[r].exec
    requires s.queue == before.queue + ExecsOf(before.outbox, all[..done])
    requires queue == s.queue + ExecsOf(s.outbox, all[done..done'])
    ensures queue == before.queue + ExecsOf(before.outbox, all[..done'])
  {
    ExecsContinue(before.outbox, s.outbox, all, done, done');
    Associates(before.queue, ExecsOf(before.outbox, all[..done]), ExecsOf(s.outbox, all[done..done']));
  }

  lemma Associates(a: seq<nat>, b: seq<nat>, c: seq<nat>)
    ensures (a + b) + c == a + (b + c)
  {}

  /** One call of `publish_dispatch_outbox` on a healthy queue, with nobody else about. */
  method HealthyCall(store: Store, batchSize: nat) returns (published: nat)
    requires Reachable(store.world, store.View()) && store.alone
    modifies store
    ensures store.From(old(store.View())) && published == |Batch(old(store.outbox), batchSize)|
    ensures HealthyPass(old(store.View()), store.outbox, store.queue, batchSize)
  {
    ghost var s := store.View();
    published := PublishDispatchOutbox(store, batchSize, Healthy(batchSize));
    HealthyPassIs(s, store.outbox, store.queue, batchSize);
  }

  lemma OneBatchMore(p: nat, b: nat, total: nat)
    ensures Min(Min(p * b, total) + b, total) == Min((p + 1) * b, total)
  {
    assert (p + 1) * b == p * b + b;
  }

  /** One more call of `publish_dispatch_outbox` on a healthy queue, with nobody else about. */
  method DrainBatch(store: Store, batchSize: nat, done: nat, ghost before: System) returns (done': nat)
    requires Reachable(store.world, store.View()) && store.alone
    requires Drained(before, store.outbox, store.queue, done)
    modifies store
    ensures store.From(old(store.View())) && Drained(before, store.outbox, store.queue, done')
    ensures done' == Min(done + batchSize, |Unpublished(before.outbox)|)
  {
    ghost var s := store.View();
    var published := HealthyCall(store, batchSize);
    DrainedMore(before, s, store.outbox, store.queue, done, batchSize);
    done' := done + published;
  }

  /** `n` calls of `publish_dispatch_outbox` on a healthy queue, with nobody else about. They
      publish the oldest n * batch_size rows, each once and in order; so the outbox is empty if
      and only if `n` is at least the number of rows over the batch size, rounded up. */
  method Drain(store: Store, batchSize: Positive, n: nat) returns (published: nat)
    requires Reachable(store.world, store.View()) && store.alone
    modifies store
    ensures store.From(old(store.View()))
    ensures published == Min(n * batchSize, |Unpublished(old(store.outbox))|)
    ensures Drained(old(store.View()), store.outbox, store.queue, published)
    ensures Unpublished(store.outbox) == [] <==> n >= Ceiling(|Unpublished(old(store.outbox))|, batchSize)
  {
    ghost var before := store.View();
    ReachesItself(store.world, before);
    published := 0;
    ghost var total := |Unpublished(before.outbox)|;
    for p := 0 to n
      invariant store.From(before)
      invariant published == Min(p * batchSize, total)
      invariant Drained(before, store.outbox, store.queue, published)
    {
      ghost var s := store.View();
      InvNow(store.world, before, s);
      OneBatchMore(p, batchSize, total);
      published := DrainBatch(store, batchSize, published, before);
      ReachesCompose(store.world, before, s, store.View());
    }
    CoveredFromCeiling(total, batchSize, n);
  }
}
