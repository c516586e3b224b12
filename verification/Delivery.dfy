/** Conservation of work: a queued execution always has a delivery on its way, and its
    outbox rows balance the claims granted, however many duplicates the queue carries. */
module Delivery {
  import opened Models
  import opened Lifecycle
  import opened Protocol
  import opened Fencing

  // ---- Deliveries ----------------------------------------------------------

  ghost predicate UnpublishedRow(s: System, e: nat) {
    exists i :: 0 <= i < |s.outbox| && s.outbox[i].exec == e && s.outbox[i].publishedAt.None?
  }

  ghost predicate InHand(s: System, e: nat) {
    exists t :: 0 <= t < |s.workers| && s.workers[t].exec == e && s.workers[t].phase.Popped?
  }

  /** An unpublished outbox row, a queued message, or a popped delivery not yet claimed. */
  ghost predicate Outstanding(s: System, e: nat) {
    UnpublishedRow(s, e) || e in s.queue || InHand(s, e)
  }

  predicate IsQueued(s: System, e: nat) {
    e < |s.jobs| && s.jobs[e].row.status.Queued?
  }

  ghost predicate Covered(s: System, e: nat) {
    IsQueued(s, e) ==> Outstanding(s, e)
  }

  /** Whatever makes an execution queued writes an outbox row in the same transaction. */
  lemma BecomingQueuedDispatches(w: World, s: System, a: Action, e: nat)
    requires Inv(w, s) && Can(w, s, a) && !IsQueued(s, e) && IsQueued(Do(w, s, a), e)
    ensures Do(w, s, a).outbox != [] && Do(w, s, a).outbox[|Do(w, s, a).outbox| - 1] == NewOutboxRow(e)
  {
    var s' := Do(w, s, a);
    ActionsRefineLifecycle(w, s, a);
    if e >= |s.jobs| {
      assert s'.outbox[|s.outbox|] == NewOutboxRow(e);
    } else {
      var (x, c) := ChangeOf(w, s, a).value;
      AuthorOf(w, s, a);
      QueuedBy(w, s.jobs[e], c);
      assert s'.outbox == s.outbox + [NewOutboxRow(e)];
      assert s'.outbox[|s.outbox|] == NewOutboxRow(e);
    }
  }

  lemma QueuedBy(w: World, j: Job, c: Change)
    requires Enabled(w, j, c) && !j.row.status.Queued? && Apply(w, j, c).row.status.Queued?
    ensures c.Requeue? || c.ManualRetry? || (c.Reap? && ReapRequeues(j, j.row.attemptCount))
  {}

  /** Nothing but a claim or a cancellation takes an execution out of the queue. */
  lemma LeavingQueue(w: World, j: Job, c: Change)
    requires Enabled(w, j, c) && Bounded(j) && j.row.status.Queued?
    ensures Apply(w, j, c).row.status.Queued? <==> !c.Claim? && !c.Cancel?
  {}

  /** While no delivery of it is in hand, only a cancellation takes it out. */
  lemma StaysQueued(w: World, s: System, a: Action, e: nat)
    requires Inv(w, s) && Can(w, s, a) && IsQueued(s, e) && !InHand(s, e)
    ensures IsQueued(Do(w, s, a), e) <==> !(a.CancelExecution? && a.e == e)
  {
    JobFacts(w, s, e);
    var c := JobMoves(w, s, a, e);
    if c.Some? {
      LeavingQueue(w, s.jobs[e], c.value);
    }
  }

  /** An execution that stays queued gets no further outbox row. */
  lemma NoRowWhileQueued(w: World, s: System, a: Action, e: nat)
    requires Inv(w, s) && Can(w, s, a) && IsQueued(s, e) && IsQueued(Do(w, s, a), e)
    ensures |Do(w, s, a).outbox| > |s.outbox| ==> Do(w, s, a).outbox[|s.outbox|].exec != e
  {
    JobFacts(w, s, e);
    OutboxGrowth(w, s, a);
    var c := JobMoves(w, s, a, e);
    if c.Some? {
      LeavingQueue(w, s.jobs[e], c.value);
    }
  }

  /** No message is queued but by a push, and every delivery in hand was in the queue. */
  lemma NothingNewInHand(w: World, s: System, a: Action, e: nat)
    requires Can(w, s, a) && !a.Push? && !InHand(s, e) && e !in s.queue
    ensures e !in Do(w, s, a).queue && !InHand(Do(w, s, a), e)
  {
    var s' := Do(w, s, a);
    forall t | 0 <= t < |s'.workers| ensures !(s'.workers[t].exec == e && s'.workers[t].phase.Popped?) {
      assert t < |s.workers| ==> s.workers[t].exec == s'.workers[t].exec;
    }
  }

  // ---- How coverage is lost ------------------------------------------------

  ghost predicate OtherInHand(s: System, t: nat, e: nat) {
    exists u :: 0 <= u < |s.workers| && u != t && s.workers[u].exec == e && s.workers[u].phase.Popped?
  }

  ghost predicate OtherUnpublishedRow(s: System, i: nat, e: nat) {
    exists k :: 0 <= k < |s.outbox| && k != i && s.outbox[k].exec == e && s.outbox[k].publishedAt.None?
  }

  /** A worker process dies between popping and claiming, and that was the last delivery of a
      queued execution; or a publisher marks the execution's last unpublished row after the
      message it pushed has come to that end. */
  ghost predicate LosesLast(s: System, a: Action, e: nat) {
    && IsQueued(s, e) && e !in s.queue
    && (|| (a.Works? && a.work.Drop? && a.t < |s.workers| && s.workers[a.t].exec == e
            && !UnpublishedRow(s, e) && !OtherInHand(s, a.t, e))
        || (a.Mark? && a.i < |s.outbox| && s.outbox[a.i].exec == e
            && !InHand(s, e) && !OtherUnpublishedRow(s, a.i, e)))
  }

  lemma DropLeaves(w: World, s: System, t: nat, e: nat)
    requires Can(w, s, Works(t, Drop)) && s.workers[t].exec == e
    ensures InHand(Do(w, s, Works(t, Drop)), e) <==> OtherInHand(s, t, e)
    ensures UnpublishedRow(Do(w, s, Works(t, Drop)), e) <==> UnpublishedRow(s, e)
  {
    var s' := Do(w, s, Works(t, Drop));
    assert s'.outbox == s.outbox;
    if InHand(s', e) {
      var u :| 0 <= u < |s'.workers| && s'.workers[u].exec == e && s'.workers[u].phase.Popped?;
      assert u != t && s.workers[u] == s'.workers[u];
    }
    if OtherInHand(s, t, e) {
      var u :| 0 <= u < |s.workers| && u != t && s.workers[u].exec == e && s.workers[u].phase.Popped?;
      assert s'.workers[u] == s.workers[u];
    }
  }

  lemma MarkLeaves(w: World, s: System, i: nat, n: nat, e: nat)
    requires Can(w, s, Mark(i, n)) && s.outbox[i].exec == e
    ensures UnpublishedRow(Do(w, s, Mark(i, n)), e) <==> OtherUnpublishedRow(s, i, e)
    ensures InHand(Do(w, s, Mark(i, n)), e) <==> InHand(s, e)
  {
    var s' := Do(w, s, Mark(i, n));
    assert s'.workers == s.workers;
    if UnpublishedRow(s', e) {
      var k :| 0 <= k < |s'.outbox| && s'.outbox[k].exec == e && s'.outbox[k].publishedAt.None?;
      assert k != i && s.outbox[k] == s'.outbox[k];
    }
    if OtherUnpublishedRow(s, i, e) {
      var k :| 0 <= k < |s.outbox| && k != i && s.outbox[k].exec == e && s.outbox[k].publishedAt.None?;
      assert s'.outbox[k] == s.outbox[k];
    }
  }

  /** A pop hands over what it takes from the queue. */
  lemma PopKeepsOutstanding(w: World, s: System, e: nat)
    requires Can(w, s, Pop) && Outstanding(s, e)
    ensures Outstanding(Do(w, s, Pop), e)
  {
    var s' := Do(w, s, Pop);
    if InHand(s, e) {
      var t :| 0 <= t < |s.workers| && s.workers[t].exec == e && s.workers[t].phase.Popped?;
      assert s'.workers[t] == s.workers[t];
    } else if e in s.queue {
      var k :| 0 <= k < |s.queue| && s.queue[k] == e;
      if k == 0 {
        assert s'.workers[|s.workers|].exec == e;
      } else {
        assert s'.queue[k - 1] == e;
      }
    } else {
      assert s'.outbox == s.outbox;
    }
  }

  predicate MarksRowOf(s: System, a: Action, e: nat) {
    a.Mark? && a.i < |s.outbox| && s.outbox[a.i].exec == e
  }

  predicate DropsDeliveryOf(s: System, a: Action, e: nat) {
    a.Works? && a.work.Drop? && a.t < |s.workers| && s.workers[a.t].exec == e
  }

  /** Anything else leaves rows, messages and unclaimed deliveries where they are, except that
      a claim takes its own delivery and its execution out of the queue. */
  lemma OthersKeepOutstanding(w: World, s: System, a: Action, e: nat)
    requires Inv(w, s) && Can(w, s, a) && Outstanding(s, e)
    requires !a.Pop? && !MarksRowOf(s, a, e) && !DropsDeliveryOf(s, a, e)
    requires IsQueued(s, e) && IsQueued(Do(w, s, a), e)
    ensures Outstanding(Do(w, s, a), e)
  {
    var s' := Do(w, s, a);
    if UnpublishedRow(s, e) {
      var i :| 0 <= i < |s.outbox| && s.outbox[i].exec == e && s.outbox[i].publishedAt.None?;
      assert s'.outbox[i].exec == e && s'.outbox[i].publishedAt.None?;
    } else if e in s.queue {
      var k :| 0 <= k < |s.queue| && s.queue[k] == e;
      assert s'.queue[k] == e;
    } else {
      var t :| 0 <= t < |s.workers| && s.workers[t].exec == e && s.workers[t].phase.Popped?;
      assert s'.workers[t].exec == e && s'.workers[t].phase.Popped?;
    }
  }

  /** An execution loses its last delivery exactly by those two actions: not by the five ways
      of becoming queued, duplicate or no-op claims, publishing in two steps, crashes of
      workers after the claim, or of schedulers anywhere. */
  lemma CoverageLostExactly(w: World, s: System, a: Action, e: nat)
    requires Inv(w, s) && Can(w, s, a) && Covered(s, e)
    ensures Covered(Do(w, s, a), e) <==> !LosesLast(s, a, e)
  {
    var s' := Do(w, s, a);
    if DropsDeliveryOf(s, a, e) {
      assert s'.jobs == s.jobs && s'.queue == s.queue;
      DropLeaves(w, s, a.t, e);
    } else if MarksRowOf(s, a, e) {
      assert s'.jobs == s.jobs && s'.queue == s.queue;
      MarkLeaves(w, s, a.i, a.attemptCount, e);
    } else if IsQueued(s', e) {
      if !IsQueued(s, e) {
        BecomingQueuedDispatches(w, s, a, e);
      } else if a.Pop? {
        PopKeepsOutstanding(w, s, e);
      } else {
        OthersKeepOutstanding(w, s, a, e);
      }
    }
  }

  // ---- How coverage comes back ---------------------------------------------

  /** What ends the wait of an execution without a delivery: some publisher that loaded one of
      its rows while it was unpublished pushes it again, or an operator cancels it. */
  predicate Rescues(s: System, a: Action, e: nat) {
    || (a.Push? && a.i < |s.outbox| && s.outbox[a.i].exec == e)
    || (a.CancelExecution? && a.e == e)
  }

  lemma RowsStayPublished(w: World, s: System, a: Action, e: nat)
    requires Inv(w, s) && Can(w, s, a) && !UnpublishedRow(s, e)
    requires |Do(w, s, a).outbox| > |s.outbox| ==> Do(w, s, a).outbox[|s.outbox|].exec != e
    ensures !UnpublishedRow(Do(w, s, a), e)
  {
    var s' := Do(w, s, a);
    OutboxGrowth(w, s, a);
    forall i | 0 <= i < |s'.outbox| ensures !(s'.outbox[i].exec == e && s'.outbox[i].publishedAt.None?) {
      assert i < |s.outbox| ==> s.outbox[i].exec == s'.outbox[i].exec;
    }
  }

  lemma StaysUncovered(w: World, s: System, a: Action, e: nat)
    requires Inv(w, s) && Can(w, s, a) && !Covered(s, e) && IsQueued(Do(w, s, a), e)
    requires a.Push? ==> s.outbox[a.i].exec != e
    ensures !Outstanding(Do(w, s, a), e)
  {
    NoRowWhileQueued(w, s, a, e);
    RowsStayPublished(w, s, a, e);
    if !a.Push? {
      NothingNewInHand(w, s, a, e);
    }
  }

  lemma CoverageRegainedExactly(w: World, s: System, a: Action, e: nat)
    requires Inv(w, s) && Can(w, s, a) && !Covered(s, e)
    ensures Covered(Do(w, s, a), e) <==> Rescues(s, a, e)
  {
    var s' := Do(w, s, a);
    StaysQueued(w, s, a, e);
    if a.Push? && s.outbox[a.i].exec == e {
      assert s'.queue[|s.queue|] == e;
    } else if IsQueued(s', e) {
      StaysUncovered(w, s, a, e);
    }
  }

  // ---- Coverage over whole runs --------------------------------------------

  /** Whether execution `e` is stranded after a run, told from the actions: it was stranded
      before, or some action took its last delivery, and nothing has rescued it since. */
  ghost predicate StrandedBy(w: World, s: System, acts: seq<Action>, s': System, e: nat, stranded: bool)
    requires Run(w, s, acts, s')
    decreases |acts|
  {
    if acts == [] then stranded
    else StrandedBy(w, Do(w, s, acts[0]), acts[1..], s', e,
                    if stranded then !Rescues(s, acts[0], e) else LosesLast(s, acts[0], e))
  }

  /** After any run, an execution is queued with nothing outstanding exactly when the last loss
      of its last delivery has not been made good. */
  lemma {:induction false} StrandedExactly(w: World, s: System, acts: seq<Action>, s': System, e: nat)
    requires Inv(w, s) && Run(w, s, acts, s')
    ensures Covered(s', e) <==> !StrandedBy(w, s, acts, s', e, !Covered(s, e))
    decreases |acts|
  {
    if acts != [] {
      if Covered(s, e) {
        CoverageLostExactly(w, s, acts[0], e);
      } else {
        CoverageRegainedExactly(w, s, acts[0], e);
      }
      InvKept(w, s, acts[0]);
      StrandedExactly(w, Do(w, s, acts[0]), acts[1..], s', e);
    }
  }

  /** The exception is real: one request, published, and popped by a worker that dies
      before its claim, is queued with nothing on its way. */
  lemma DroppedDeliveryStrands(w: World, s0: System, workflow: Workflow, key: Key)
    requires Initial(s0)
    ensures exists s :: Reaches(w, s0, s) && IsQueued(s, 0) && !Outstanding(s, 0)
  {
    var s := FirstDelivery(w, s0, workflow, key);
    ReachesThen(w, s0, s, Works(0, Drop));
    s := Do(w, s, Works(0, Drop));
    assert s.queue == [] && s.workers == [Worker(0, Dropped, EMPTY_SNAPSHOT)];
  }

  // ---- What an outstanding delivery is good for ----------------------------

  /** A run in which publishers push only rows that are unpublished at that moment. */
  ghost predicate SelectingRun(w: World, s: System, acts: seq<Action>, s': System)
    decreases |acts|
  {
    if acts == [] then s == s'
    else Can(w, s, acts[0]) && Selects(s, acts[0]) && SelectingRun(w, Do(w, s, acts[0]), acts[1..], s')
  }

  predicate Selects(s: System, a: Action) {
    a.Push? ==> a.i < |s.outbox| && s.outbox[a.i].publishedAt.None?
  }

  /** Some such run takes the database from `s` to one where `e` is claimed, and nothing else of
      any execution has changed: no operator, no reaper and no other worker has taken part. */
  ghost predicate LeadsToClaim(w: World, s: System, e: nat)
    requires e < |s.jobs|
  {
    exists acts, s', t ::
      SelectingRun(w, s, acts, s') && s'.jobs == s.jobs[e := WriteClaim(w, s.jobs[e], t, "", s.clock)]
  }

  lemma ClaimLater(w: World, s: System, a: Action, e: nat)
    requires Can(w, s, a) && Selects(s, a) && e < |s.jobs|
    requires Do(w, s, a).jobs == s.jobs && Do(w, s, a).clock == s.clock && LeadsToClaim(w, Do(w, s, a), e)
    ensures LeadsToClaim(w, s, e)
  {
    var next := Do(w, s, a);
    var acts, s', t :|
      SelectingRun(w, next, acts, s') && s'.jobs == next.jobs[e := WriteClaim(w, next.jobs[e], t, "", next.clock)];
    assert ([a] + acts)[1..] == acts;
    assert SelectingRun(w, s, [a] + acts, s');
  }

  lemma ClaimInHand(w: World, s: System, t: nat)
    requires At(s, t) && s.workers[t].phase.Popped? && IsQueued(s, s.workers[t].exec)
    ensures LeadsToClaim(w, s, s.workers[t].exec)
  {
    var claim := Works(t, Begin(""));
    assert SelectingRun(w, Do(w, s, claim), [claim][1..], Do(w, s, claim));
    assert SelectingRun(w, s, [claim], Do(w, s, claim));
  }

  /** Workers pop their way through the queue. */
  lemma {:induction false} ClaimFromQueue(w: World, s: System, e: nat, k: nat)
    requires Inv(w, s) && IsQueued(s, e) && k < |s.queue| && s.queue[k] == e
    ensures LeadsToClaim(w, s, e)
    decreases k
  {
    var s' := Do(w, s, Pop);
    if k == 0 {
      assert s'.workers[|s.workers|] == Worker(e, Popped, EMPTY_SNAPSHOT);
      ClaimInHand(w, s', |s.workers|);
    } else {
      InvKept(w, s, Pop);
      ClaimFromQueue(w, s', e, k - 1);
    }
    ClaimLater(w, s, Pop, e);
  }

  lemma OutstandingLeadsToClaim(w: World, s: System, e: nat)
    requires Inv(w, s) && IsQueued(s, e) && Outstanding(s, e)
    ensures LeadsToClaim(w, s, e)
  {
    if InHand(s, e) {
      var t :| 0 <= t < |s.workers| && s.workers[t].exec == e && s.workers[t].phase.Popped?;
      ClaimInHand(w, s, t);
    } else if e in s.queue {
      var k :| 0 <= k < |s.queue| && s.queue[k] == e;
      ClaimFromQueue(w, s, e, k);
    } else {
      var i :| 0 <= i < |s.outbox| && s.outbox[i].exec == e && s.outbox[i].publishedAt.None?;
      InvKept(w, s, Push(i));
      ClaimFromQueue(w, Do(w, s, Push(i)), e, |s.queue|);
      ClaimLater(w, s, Push(i), e);
    }
  }

  /** Queued with nothing outstanding, or cancelled since. */
  ghost predicate Forgotten(s: System, e: nat) {
    e < |s.jobs| && (s.jobs[e].row.status.Cancelled? || !Covered(s, e))
  }

  lemma ForgottenStays(w: World, s: System, a: Action, e: nat)
    requires Inv(w, s) && Can(w, s, a) && Selects(s, a) && Forgotten(s, e)
    ensures Forgotten(Do(w, s, a), e) && Do(w, s, a).jobs[e].claims == s.jobs[e].claims
  {
    JobFacts(w, s, e);
    var c := JobMoves(w, s, a, e);
    if !s.jobs[e].row.status.Cancelled? {
      CoverageRegainedExactly(w, s, a, e);
      if c.Some? {
        LeavingQueue(w, s.jobs[e], c.value);
      }
    }
  }

  lemma {:induction false} ForgottenIsNeverClaimed(w: World, s: System, acts: seq<Action>, s': System, e: nat)
    requires Inv(w, s) && SelectingRun(w, s, acts, s') && Forgotten(s, e)
    ensures e < |s'.jobs| && s'.jobs[e].claims == s.jobs[e].claims
    decreases |acts|
  {
    if acts != [] {
      ForgottenStays(w, s, acts[0], e);
      InvKept(w, s, acts[0]);
      ForgottenIsNeverClaimed(w, Do(w, s, acts[0]), acts[1..], s', e);
    }
  }

  /** Outstanding is the right notion: a queued execution has something outstanding if and only
      if workers and publishers alone can still bring it to a claim. Otherwise no run at all does
      in which publishers push what they select. */
  lemma ClaimableExactly(w: World, s: System, e: nat)
    requires Reachable(w, s) && IsQueued(s, e)
    ensures Outstanding(s, e) <==> LeadsToClaim(w, s, e)
    ensures !Outstanding(s, e) ==>
              forall acts, s' | SelectingRun(w, s, acts, s') ::
                e < |s'.jobs| && s'.jobs[e].claims == s.jobs[e].claims
  {
    InvReachable(w, s);
    if !Outstanding(s, e) {
      forall acts, s' | SelectingRun(w, s, acts, s')
        ensures e < |s'.jobs| && s'.jobs[e].claims == s.jobs[e].claims
      {
        ForgottenIsNeverClaimed(w, s, acts, s', e);
      }
    }
    if Outstanding(s, e) {
      OutstandingLeadsToClaim(w, s, e);
    }
  }

  // ---- Where every loss begins ---------------------------------------------

  ghost predicate UnsentRow(s: System, e: nat) {
    exists i :: 0 <= i < |s.outbox| && s.outbox[i].exec == e && s.outbox[i].sends == 0
  }

  /** A row never pushed, a queued message, or a popped delivery not yet claimed. This outlasts
      the mark of a row, so only a drop can end it. */
  ghost predicate InTransit(s: System, e: nat) {
    UnsentRow(s, e) || e in s.queue || InHand(s, e)
  }

  ghost predicate Intact(s: System, e: nat) {
    IsQueued(s, e) ==> InTransit(s, e)
  }

  ghost predicate DropsOnlyCopy(s: System, a: Action, e: nat) {
    DropsDeliveryOf(s, a, e) && IsQueued(s, e) && !UnsentRow(s, e) && e !in s.queue && !OtherInHand(s, a.t, e)
  }

  lemma PushKeepsInTransit(w: World, s: System, i: nat, e: nat)
    requires Can(w, s, Push(i)) && InTransit(s, e)
    ensures InTransit(Do(w, s, Push(i)), e)
  {
    var s' := Do(w, s, Push(i));
    if e in s.queue {
      var k :| 0 <= k < |s.queue| && s.queue[k] == e;
      assert s'.queue[k] == e;
    } else if InHand(s, e) {
      assert s'.workers == s.workers;
      assert InHand(s', e);
    } else {
      var m :| 0 <= m < |s.outbox| && s.outbox[m].exec == e && s.outbox[m].sends == 0;
      if m == i {
        assert s'.queue[|s.queue|] == e;
      } else {
        assert s'.outbox[m] == s.outbox[m];
      }
    }
  }

  lemma PopKeepsInTransit(w: World, s: System, e: nat)
    requires Can(w, s, Pop) && InTransit(s, e)
    ensures InTransit(Do(w, s, Pop), e)
  {
    var s' := Do(w, s, Pop);
    if InHand(s, e) {
      var t :| 0 <= t < |s.workers| && s.workers[t].exec == e && s.workers[t].phase.Popped?;
      assert s'.workers[t] == s.workers[t];
    } else if e in s.queue {
      var k :| 0 <= k < |s.queue| && s.queue[k] == e;
      if k == 0 {
        assert s'.workers[|s.workers|].exec == e;
      } else {
        assert s'.queue[k - 1] == e;
      }
    } else {
      assert s'.outbox == s.outbox;
    }
  }

  /** Anything else leaves queue, unsent rows and unclaimed deliveries where they are,
      except that a claim takes its own delivery and its execution out of the queue. */
  lemma OthersKeepInTransit(w: World, s: System, a: Action, e: nat)
    requires Inv(w, s) && Can(w, s, a) && InTransit(s, e) && !a.Push? && !a.Pop?
    requires a.Works? && a.work.Drop? ==> s.workers[a.t].exec != e
    requires IsQueued(s, e) && IsQueued(Do(w, s, a), e)
    ensures InTransit(Do(w, s, a), e)
  {
    var s' := Do(w, s, a);
    assert s'.queue == s.queue;
    if UnsentRow(s, e) {
      var i :| 0 <= i < |s.outbox| && s.outbox[i].exec == e && s.outbox[i].sends == 0;
      assert s'.outbox[i].exec == e && s'.outbox[i].sends == 0;
    } else if InHand(s, e) {
      var t :| 0 <= t < |s.workers| && s.workers[t].exec == e && s.workers[t].phase.Popped?;
      assert s'.workers[t].exec == e && s'.workers[t].phase.Popped?;
    }
  }

  lemma IntactUntilDrop(w: World, s: System, a: Action, e: nat)
    requires Inv(w, s) && Can(w, s, a) && Intact(s, e)
    ensures Intact(Do(w, s, a), e) <==> !DropsOnlyCopy(s, a, e)
  {
    var s' := Do(w, s, a);
    if DropsDeliveryOf(s, a, e) {
      assert s'.jobs == s.jobs && s'.queue == s.queue && s'.outbox == s.outbox;
      DropLeaves(w, s, a.t, e);
    } else if IsQueued(s', e) {
      if !IsQueued(s, e) {
        BecomingQueuedDispatches(w, s, a, e);
      } else if a.Push? {
        PushKeepsInTransit(w, s, a.i, e);
      } else if a.Pop? {
        PopKeepsInTransit(w, s, e);
      } else {
        OthersKeepInTransit(w, s, a, e);
      }
    }
  }

  ghost predicate NeverDropsOnlyCopy(w: World, s: System, acts: seq<Action>, s': System, e: nat)
    requires Run(w, s, acts, s')
    decreases |acts|
  {
    acts == [] || (!DropsOnlyCopy(s, acts[0], e) && NeverDropsOnlyCopy(w, Do(w, s, acts[0]), acts[1..], s', e))
  }

  /** A row is marked published only after a push. */
  ghost predicate MarkedRowsAreSent(s: System) {
    forall i | 0 <= i < |s.outbox| :: s.outbox[i].publishedAt.Some? ==> s.outbox[i].sends > 0
  }

  lemma {:induction false} IntactAlongRun(w: World, s: System, acts: seq<Action>, s': System, e: nat)
    requires Inv(w, s) && Run(w, s, acts, s') && NeverDropsOnlyCopy(w, s, acts, s', e)
    requires Intact(s, e) && MarkedRowsAreSent(s)
    ensures Intact(s', e) && MarkedRowsAreSent(s')
    decreases |acts|
  {
    if acts != [] {
      IntactUntilDrop(w, s, acts[0], e);
      InvKept(w, s, acts[0]);
      IntactAlongRun(w, Do(w, s, acts[0]), acts[1..], s', e);
    }
  }

  /** A mark finishes a loss but never begins one: after any run of the platform that never
      drops the only copy of an execution's delivery before the claim, that execution has a
      delivery outstanding whenever it is queued. */
  lemma QueuedIsOutstanding(w: World, s0: System, acts: seq<Action>, s: System, e: nat)
    requires Initial(s0) && Run(w, s0, acts, s)
    requires NeverDropsOnlyCopy(w, s0, acts, s, e) && IsQueued(s, e)
    ensures Outstanding(s, e)
  {
    IntactAlongRun(w, s0, acts, s, e);
    if UnsentRow(s, e) {
      var i :| 0 <= i < |s.outbox| && s.outbox[i].exec == e && s.outbox[i].sends == 0;
      assert s.outbox[i].publishedAt.None?;
    }
  }

  // ---- Dispatches and claims -----------------------------------------------

  function RowsFor(outbox: seq<OutboxRow>, e: nat): nat {
    if outbox == [] then 0 else
    RowsFor(outbox[..|outbox| - 1], e) + if outbox[|outbox| - 1].exec == e then 1 else 0
  }

  lemma RowsForAppend(outbox: seq<OutboxRow>, r: OutboxRow, e: nat)
    ensures RowsFor(outbox + [r], e) == RowsFor(outbox, e) + if r.exec == e then 1 else 0
  {
    assert (outbox + [r])[..|outbox|] == outbox;
  }

  lemma {:induction false} RowsForSame(o1: seq<OutboxRow>, o2: seq<OutboxRow>, e: nat)
    requires |o1| == |o2| && forall i | 0 <= i < |o1| :: o1[i].exec == o2[i].exec
    ensures RowsFor(o1, e) == RowsFor(o2, e)
    decreases |o1|
  {
    if o1 != [] {
      RowsForSame(o1[..|o1| - 1], o2[..|o2| - 1], e);
    }
  }

  lemma {:induction false} RowsForUnknown(outbox: seq<OutboxRow>, e: nat)
    requires forall i | 0 <= i < |outbox| :: outbox[i].exec < e
    ensures RowsFor(outbox, e) == 0
    decreases |outbox|
  {
    if outbox != [] {
      RowsForUnknown(outbox[..|outbox| - 1], e);
    }
  }

  /** The outbox table agrees with the number of dispatch intents of every execution. */
  ghost predicate OutboxCounts(s: System) {
    forall e | 0 <= e < |s.jobs| :: RowsFor(s.outbox, e) == s.jobs[e].dispatches
  }

  /** How the outbox grows: by one row, exactly when a dispatch intent is recorded. */
  ghost predicate GrowsByIntent(s: System, s': System) {
    && |s.outbox| <= |s'.outbox| <= |s.outbox| + 1 && |s.jobs| <= |s'.jobs| <= |s.jobs| + 1
    && (forall i | 0 <= i < |s.outbox| :: s'.outbox[i].exec == s.outbox[i].exec)
    && (|s'.jobs| > |s.jobs| ==> |s'.outbox| > |s.outbox|)
    && (|s'.outbox| > |s.outbox| ==>
          var e := s'.outbox[|s.outbox|].exec;
          && e < |s'.jobs| && s'.outbox == s.outbox + [NewOutboxRow(e)]
          && s'.jobs[e].dispatches == (if e < |s.jobs| then s.jobs[e].dispatches else 0) + 1
          && (|s'.jobs| > |s.jobs| ==> e == |s.jobs|))
    && (forall e | 0 <= e < |s.jobs| && (|s'.outbox| == |s.outbox| || s'.outbox[|s.outbox|].exec != e) ::
          s'.jobs[e].dispatches == s.jobs[e].dispatches)
  }

  lemma WorkKeepsOutbox(w: World, s: System, t: nat, x: Work)
    requires Can(w, s, Works(t, x))
    ensures GrowsByIntent(s, Do(w, s, Works(t, x)))
  {
    WorkDispatchesNothing(w, s.clock, JobOf(s, t), t, s.workers[t], x);
  }

  lemma OutboxGrowth(w: World, s: System, a: Action)
    requires Can(w, s, a)
    ensures GrowsByIntent(s, Do(w, s, a))
  {
    if a.Works? {
      WorkKeepsOutbox(w, s, a.t, a.work);
    }
  }

  lemma WorkDispatchesNothing(w: World, clock: Time, j: Job, t: nat, wk: Worker, x: Work)
    requires CanWork(w, j, wk, x)
    ensures WorkOnJob(w, clock, j, t, wk, x).dispatches == j.dispatches
  {}

  lemma OutboxCountsKept(w: World, s: System, a: Action)
    requires Inv(w, s) && OutboxCounts(s) && Can(w, s, a)
    ensures OutboxCounts(Do(w, s, a))
  {
    var s' := Do(w, s, a);
    OutboxGrowth(w, s, a);
    forall e | 0 <= e < |s'.jobs| ensures RowsFor(s'.outbox, e) == s'.jobs[e].dispatches {
      if |s'.outbox| == |s.outbox| {
        RowsForSame(s'.outbox, s.outbox, e);
      } else {
        RowsForAppend(s.outbox, s'.outbox[|s.outbox|], e);
        if e == |s.jobs| {
          RowsForUnknown(s.outbox, e);
        }
      }
    }
  }

  lemma {:induction false} OutboxCountsAlongRun(w: World, s: System, acts: seq<Action>, s': System)
    requires Inv(w, s) && OutboxCounts(s) && Run(w, s, acts, s')
    ensures OutboxCounts(s')
    decreases |acts|
  {
    if acts != [] {
      InvKept(w, s, acts[0]);
      OutboxCountsKept(w, s, acts[0]);
      OutboxCountsAlongRun(w, Do(w, s, acts[0]), acts[1..], s');
    }
  }

  /** An execution's outbox rows number one plus its requeue, lease-requeue and manual-retry
      events. Less the claims ever granted they are 0 or 1: 1 exactly when the execution is
      queued or was cancelled while queued. */
  lemma DispatchesBalanceClaims(w: World, s: System, e: nat)
    requires Reachable(w, s) && e < |s.jobs|
    ensures var j := s.jobs[e];
            var rows := RowsFor(s.outbox, e);
            && rows == 1 + CountRedispatches(j.audit)
            && 0 <= rows - j.claims <= 1
            && (rows - j.claims == 1 <==>
                  j.row.status.Queued? || (j.row.status.Cancelled? && CancelledFromQueue(j.audit)))
  {
    var s0 :| Initial(s0) && Reaches(w, s0, s);
    var acts :| Run(w, s0, acts, s);
    OutboxCountsAlongRun(w, s0, acts, s);
    InvReachable(w, s);
    JobFacts(w, s, e);
  }
}
