/** Request idempotency under any interleaving of callers: lookup and insert are separate
    steps, and the unique key is all that protects the gap between them. */
module Requests {
  import opened Models
  import opened Lifecycle
  import opened Protocol
  import opened Fencing

  predicate CallerFits(s: System, c: nat)
    requires c < |s.callers|
  {
    var call := s.callers[c];
    && !call.trigger.Schedule?
    && match call.phase
       case Missed => true
       case Conflicted => FindKey(s.jobs, call.workflow, call.key).Some?
       case Returned(e, replayed) =>
         && e < |s.jobs| && HasKey(s.jobs[e], call.workflow, call.key)
         && (!replayed ==> s.jobs[e].row.input == call.input && s.jobs[e].row.trigger == call.trigger)
  }

  predicate SameKey(s: System, e: nat, f: nat)
    requires e < |s.jobs| && f < |s.jobs|
  {
    HasKey(s.jobs[f], s.jobs[e].row.workflow, s.jobs[e].row.key)
  }

  predicate CreatedBy(s: System, e: nat, c: nat) {
    c < |s.callers| && s.callers[c].phase == Returned(e, false)
  }

  ghost predicate RequestInv(s: System) {
    && (forall c | 0 <= c < |s.callers| :: CallerFits(s, c))
    && (forall e, f | 0 <= e < |s.jobs| && 0 <= f < |s.jobs| && e != f :: !SameKey(s, e, f))
    && (forall e | 0 <= e < |s.jobs| && !s.jobs[e].row.trigger.Schedule? :: exists c: nat :: CreatedBy(s, e, c))
    && (forall e: nat, c: nat, d: nat | CreatedBy(s, e, c) && CreatedBy(s, e, d) :: c == d)
  }

  lemma AddedKeyIsFree(w: World, s: System, a: Action)
    requires Can(w, s, a) && Addition(w, s, a) != []
    ensures var j := Addition(w, s, a)[0];
            |Addition(w, s, a)| == 1 && FindKey(s.jobs, j.row.workflow, j.row.key).None?
  {}

  lemma KeysStayUnique(w: World, s: System, a: Action, e: nat, f: nat)
    requires Inv(w, s) && RequestInv(s) && Can(w, s, a)
    requires e < |Do(w, s, a).jobs| && f < |Do(w, s, a).jobs| && e != f
    ensures !SameKey(Do(w, s, a), e, f)
  {
    var s' := Do(w, s, a);
    RequestsStand(w, s, a);
    if e < |s.jobs| && f < |s.jobs| {
      assert !SameKey(s, e, f);
    } else {
      AddedKeyIsFree(w, s, a);
      var n := |s.jobs|;
      assert s'.jobs[n] == Addition(w, s, a)[0];
      var old' := if e == n then f else e;
      assert !HasKey(s.jobs[old'], s'.jobs[n].row.workflow, s'.jobs[n].row.key);
    }
  }

  /** A caller that does not move keeps what it knows. */
  lemma IdleCallerKept(s: System, s': System, c: nat)
    requires c < |s.callers| && CallerFits(s, c) && c < |s'.callers| && s'.callers[c] == s.callers[c]
    requires |s.jobs| <= |s'.jobs|
    requires forall e | 0 <= e < |s.jobs| ::
               var r, r' := s.jobs[e].row, s'.jobs[e].row;
               r'.workflow == r.workflow && r'.trigger == r.trigger && r'.key == r.key && r'.input == r.input
    ensures CallerFits(s', c)
  {
    var call := s.callers[c];
    if call.phase.Conflicted? {
      var e := FindKey(s.jobs, call.workflow, call.key).value;
      assert HasKey(s'.jobs[e], call.workflow, call.key);
    }
  }

  lemma MovingCallerFits(w: World, s: System, a: Action, c: nat)
    requires Can(w, s, a) && c < |Do(w, s, a).callers|
    requires c < |s.callers| ==> CallerFits(s, c)
    requires c < |s.callers| ==> (a.Insert? || a.Recover?) && a.c == c
    ensures CallerFits(Do(w, s, a), c)
  {
    if a.Insert? && FindKey(s.jobs, s.callers[c].workflow, s.callers[c].key).None? {
      var call := s.callers[c];
      assert Do(w, s, a).jobs[|s.jobs|] == NewJob(call.workflow, call.trigger, call.key, call.input);
    }
  }

  lemma CallerKept(w: World, s: System, a: Action, c: nat)
    requires Inv(w, s) && Can(w, s, a) && c < |Do(w, s, a).callers|
    requires c < |s.callers| ==> CallerFits(s, c)
    ensures CallerFits(Do(w, s, a), c)
  {
    if c >= |s.callers| || ((a.Insert? || a.Recover?) && a.c == c) {
      MovingCallerFits(w, s, a, c);
    } else {
      RequestsStand(w, s, a);
      IdleCallerKept(s, Do(w, s, a), c);
    }
  }

  lemma CreatorsKept(w: World, s: System, a: Action)
    requires Inv(w, s) && RequestInv(s) && Can(w, s, a)
    ensures var s' := Do(w, s, a);
            && (forall e | 0 <= e < |s'.jobs| && !s'.jobs[e].row.trigger.Schedule? ::
                  exists c: nat :: CreatedBy(s', e, c))
            && (forall e: nat, c: nat, d: nat | CreatedBy(s', e, c) && CreatedBy(s', e, d) :: c == d)
  {
    var s' := Do(w, s, a);
    RequestsStand(w, s, a);
    forall e | 0 <= e < |s'.jobs| && !s'.jobs[e].row.trigger.Schedule?
      ensures exists c: nat :: CreatedBy(s', e, c)
    {
      if e < |s.jobs| {
        var c: nat :| CreatedBy(s, e, c);
        assert CreatedBy(s', e, c);
      } else {
        assert s'.jobs[e] == Addition(w, s, a)[0];
        assert CreatedBy(s', e, a.c);
      }
    }
    forall e: nat, c: nat, d: nat | CreatedBy(s', e, c) && CreatedBy(s', e, d) ensures c == d {
      if e < |s.jobs| {
        assert CreatedBy(s, e, c) && CreatedBy(s, e, d);
      } else {
        assert c < |s.callers| ==> CallerFits(s, c);
        assert d < |s.callers| ==> CallerFits(s, d);
      }
    }
  }

  lemma RequestInvKept(w: World, s: System, a: Action)
    requires Inv(w, s) && RequestInv(s) && Can(w, s, a)
    ensures RequestInv(Do(w, s, a))
  {
    var s' := Do(w, s, a);
    forall c | 0 <= c < |s'.callers| ensures CallerFits(s', c) {
      assert c < |s.callers| ==> CallerFits(s, c);
      CallerKept(w, s, a, c);
    }
    forall e, f | 0 <= e < |s'.jobs| && 0 <= f < |s'.jobs| && e != f ensures !SameKey(s', e, f) {
      KeysStayUnique(w, s, a, e, f);
    }
    CreatorsKept(w, s, a);
  }

  lemma {:induction false} RequestInvAlongRun(w: World, s: System, acts: seq<Action>, s': System)
    requires Inv(w, s) && RequestInv(s) && Run(w, s, acts, s')
    ensures RequestInv(s')
    decreases |acts|
  {
    if acts != [] {
      InvKept(w, s, acts[0]);
      RequestInvKept(w, s, acts[0]);
      RequestInvAlongRun(w, Do(w, s, acts[0]), acts[1..], s');
    }
  }

  lemma RequestInvReachable(w: World, s: System)
    requires Reachable(w, s)
    ensures Inv(w, s) && RequestInv(s)
  {
    var s0 :| Initial(s0) && Reaches(w, s0, s);
    var acts :| Run(w, s0, acts, s);
    InvReachable(w, s);
    RequestInvAlongRun(w, s0, acts, s);
  }

  // ---- What callers can rely on --------------------------------------------

  predicate IsRequestEvent(e: Event) {
    e.ExecutionRequested? || e.ScheduledExecutionRequested?
  }

  /** A log that replays opens with its one request event. */
  lemma {:induction false} OneRequestEvent(audit: seq<Event>)
    requires Replay(audit).Some?
    ensures audit != [] && IsRequestEvent(audit[0])
    ensures forall i | 0 < i < |audit| :: !IsRequestEvent(audit[i])
    decreases |audit|
  {
    if |audit| > 1 {
      OneRequestEvent(audit[..|audit| - 1]);
    }
  }

  /** All calls with one workflow and key that have returned, returned the same execution.
      Exactly one of them, in any interleaving, created it and reports no replay; it is that
      call's payload that the execution carries, with one request event in its log. */
  lemma CallersAgree(w: World, s: System, c: nat, d: nat)
    requires Reachable(w, s) && c < |s.callers| && d < |s.callers|
    requires s.callers[c].phase.Returned? && s.callers[d].phase.Returned?
    requires s.callers[c].workflow.id == s.callers[d].workflow.id && s.callers[c].key == s.callers[d].key
    ensures s.callers[c].phase.exec == s.callers[d].phase.exec
    ensures !s.callers[c].phase.replayed && !s.callers[d].phase.replayed ==> c == d
    ensures var e := s.callers[c].phase.exec;
            && e < |s.jobs|
            && (!s.jobs[e].row.trigger.Schedule? ==>
                  exists creator: nat :: CreatedBy(s, e, creator) && s.jobs[e].row.input == s.callers[creator].input)
            && s.jobs[e].audit != [] && IsRequestEvent(s.jobs[e].audit[0])
            && (forall i | 0 < i < |s.jobs[e].audit| :: !IsRequestEvent(s.jobs[e].audit[i]))
  {
    RequestInvReachable(w, s);
    assert CallerFits(s, c) && CallerFits(s, d);
    var e, f := s.callers[c].phase.exec, s.callers[d].phase.exec;
    assert e != f ==> !SameKey(s, e, f);
    if !s.callers[c].phase.replayed && !s.callers[d].phase.replayed {
      assert CreatedBy(s, e, c) && CreatedBy(s, e, d);
    }
    JobFacts(w, s, e);
    OneRequestEvent(s.jobs[e].audit);
    if !s.jobs[e].row.trigger.Schedule? {
      var creator: nat :| CreatedBy(s, e, creator);
      assert CallerFits(s, creator);
    }
  }

  /** After a duplicate-key rollback the second lookup always finds the execution, so the
      re-raise is unreachable. */
  lemma RecoveryNeverRaises(w: World, s: System, c: nat)
    requires Reachable(w, s) && c < |s.callers| && s.callers[c].phase.Conflicted?
    ensures Can(w, s, Recover(c))
  {
    RequestInvReachable(w, s);
    assert CallerFits(s, c);
  }

  /** Workflow and key identify an execution: two are different exactly if they differ in the
      workflow or in the key. */
  lemma KeysIdentify(w: World, s: System, e: nat, f: nat)
    requires Reachable(w, s) && e < |s.jobs| && f < |s.jobs|
    ensures e == f <==>
              s.jobs[e].row.workflow.id == s.jobs[f].row.workflow.id && s.jobs[e].row.key == s.jobs[f].row.key
  {
    RequestInvReachable(w, s);
    assert e != f ==> !SameKey(s, e, f);
  }

  /** A returned call holds an execution of its own workflow under its own key; so calls hold the
      same execution exactly if they agree in both. */
  lemma CallersHoldTheirKey(w: World, s: System, c: nat, d: nat)
    requires Reachable(w, s) && c < |s.callers| && d < |s.callers|
    requires s.callers[c].phase.Returned? && s.callers[d].phase.Returned?
    ensures var e := s.callers[c].phase.exec;
            && e < |s.jobs|
            && s.jobs[e].row.workflow.id == s.callers[c].workflow.id && s.jobs[e].row.key == s.callers[c].key
    ensures s.callers[c].phase.exec == s.callers[d].phase.exec <==>
              s.callers[c].workflow.id == s.callers[d].workflow.id && s.callers[c].key == s.callers[d].key
  {
    RequestInvReachable(w, s);
    assert CallerFits(s, c) && CallerFits(s, d);
    KeysIdentify(w, s, s.callers[c].phase.exec, s.callers[d].phase.exec);
  }
}
