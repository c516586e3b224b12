/** The step interpreter (app/services/steps.py) and the straight-line evaluation
    of a workflow, the reference that the durable run has to reproduce. */
module Steps {
  import opened Json

  /** What one runner call ends in: a result object, or a raised failure. */
  datatype Outcome =
    | Success(output: Object)
    | Raised(code: string, message: string, transient: bool)

  /** A persisted step definition that passed the checks of the run loop. */
  datatype Definition = Definition(name: string, kind: string, config: Object)

  /** The only success a runner can report for these arguments, if any. Failures
      stay unconstrained: a runner may raise at any time, for any reason. */
  type Runner = (string, Object, Object, Object) -> Option<Object>

  function Parse(raw: Object): Option<Definition> {
    var name := Get(raw, "name");
    var kind := Get(raw, "kind");
    var config := if "config" in raw then raw["config"] else Obj(map[]);
    if name.Str? && kind.Str? && config.Obj? then Some(Definition(name.s, kind.s, config.fields)) else None
  }

  // ---- DefaultStepRunner ---------------------------------------------------

  predicate NonEmptyText(v: Value) {
    v.Str? && v.s != ""
  }

  function Permanent(message: string): Outcome {
    Raised("step_failed", message, false)
  }

  function Assign(config: Object): Outcome {
    var target := Get(config, "target");
    if !NonEmptyText(target) then
      Permanent("assign.target must be a non-empty string")
    else
      Success(map[target.s := Get(config, "value")])
  }

  function Lookup(field: string, input: Object, accumulated: Object): Value {
    if field in accumulated then accumulated[field] else Get(input, field)
  }

  function Condition(config: Object, input: Object, accumulated: Object): Outcome {
    var field := Get(config, "field");
    if !NonEmptyText(field) then
      Permanent("condition.field must be a non-empty string")
    else
      var actual := Lookup(field.s, input, accumulated);
      Success(map["field" := field, "matched" := Bool(PyEqual(actual, Get(config, "equals")))])
  }

  function EmitEvent(config: Object): Outcome {
    var name := Get(config, "event_name");
    var payload := if "payload" in config then config["payload"] else Obj(map[]);
    if !NonEmptyText(name) then
      Permanent("emit_event.event_name must be a non-empty string")
    else if !payload.Obj? then
      Permanent("emit_event.payload must be an object")
    else
      Success(map["event_name" := name, "payload" := payload])
  }

  function DefaultRun(kind: string, config: Object, input: Object, accumulated: Object): Outcome {
    if kind == "assign" then Assign(config)
    else if kind == "condition" then Condition(config, input, accumulated)
    else if kind == "emit_event" then EmitEvent(config)
    else Permanent("Unsupported step kind: " + kind)
  }

  function DefaultRunner(): Runner {
    (kind, config, input, accumulated) =>
      match DefaultRun(kind, config, input, accumulated)
      case Success(output) => Some(output)
      case Raised(_, _, _) => None
  }

  // ---- Straight-line evaluation --------------------------------------------

  /** The accumulated output after the first `n` steps run once each, in order. */
  function Evaluate(run: Runner, steps: seq<Object>, input: Object, n: nat): Option<Object>
    requires n <= |steps|
  {
    if n == 0 then Some(map[]) else
    match Evaluate(run, steps, input, n - 1)
    case None => None
    case Some(accumulated) =>
      match Parse(steps[n - 1])
      case None => None
      case Some(d) =>
        match run(d.kind, d.config, input, accumulated)
        case None => None
        case Some(output) => Some(accumulated + output)
  }

  /** A workflow that evaluates through `n` steps evaluates through fewer. */
  lemma {:induction false} EvaluationIsPrefixClosed(run: Runner, steps: seq<Object>, input: Object, m: nat, n: nat)
    requires m <= n <= |steps|
    requires Evaluate(run, steps, input, n).Some?
    ensures Evaluate(run, steps, input, m).Some?
    decreases n
  {
    if m < n {
      EvaluationIsPrefixClosed(run, steps, input, m, n - 1);
    }
  }

  /** What each of the first `n` steps returned in that evaluation. */
  function Results(run: Runner, steps: seq<Object>, input: Object, n: nat): (outputs: seq<Object>)
    requires n <= |steps| && Evaluate(run, steps, input, n).Some?
    ensures |outputs| == n
  {
    if n == 0 then [] else
    var d := Parse(steps[n - 1]).value;
    Results(run, steps, input, n - 1)
    + [run(d.kind, d.config, input, Evaluate(run, steps, input, n - 1).value).value]
  }

  /** `{**a, **b, ...}`: later objects win. */
  function MergeAll(outputs: seq<Object>): Object {
    if outputs == [] then map[] else MergeAll(outputs[..|outputs| - 1]) + outputs[|outputs| - 1]
  }

  lemma MergeAllAppend(outputs: seq<Object>, output: Object)
    ensures MergeAll(outputs + [output]) == MergeAll(outputs) + output
  {
    assert (outputs + [output])[..|outputs|] == outputs;
  }

  lemma {:induction false} EvaluationMergesResults(run: Runner, steps: seq<Object>, input: Object, n: nat)
    requires n <= |steps| && Evaluate(run, steps, input, n).Some?
    ensures MergeAll(Results(run, steps, input, n)) == Evaluate(run, steps, input, n).value
  {
    if n > 0 {
      EvaluationMergesResults(run, steps, input, n - 1);
      MergeAllAppend(Results(run, steps, input, n - 1), Results(run, steps, input, n)[n - 1]);
    }
  }

  /** `i` is the last position whose object has `key`. */
  ghost predicate LastWriter(outputs: seq<Object>, key: string, i: int) {
    0 <= i < |outputs| && key in outputs[i] && forall m | i < m < |outputs| :: key !in outputs[m]
  }

  /** A merged key holds what its last writer produced, and it is absent exactly
      when no object wrote it. */
  lemma {:induction false} LastWriterWins(outputs: seq<Object>, key: string)
    ensures key in MergeAll(outputs) <==> exists i :: LastWriter(outputs, key, i)
    ensures forall i | LastWriter(outputs, key, i) :: MergeAll(outputs)[key] == outputs[i][key]
  {
    if outputs != [] {
      var last := |outputs| - 1;
      var before := outputs[..last];
      LastWriterWins(before, key);
      if key in outputs[last] {
        assert LastWriter(outputs, key, last);
      } else {
        forall i ensures LastWriter(outputs, key, i) == LastWriter(before, key, i) {
          assert forall m | 0 <= m < last :: outputs[m] == before[m];
        }
      }
    }
  }

  /** A condition step compares against the last earlier write of its field, even
      a null one, and falls back to the input payload only if no step wrote it. */
  lemma ConditionSeesLastWrite(steps: seq<Object>, input: Object, n: nat, field: string)
    requires n < |steps| && Evaluate(DefaultRunner(), steps, input, n).Some?
    requires Parse(steps[n]).Some? && Parse(steps[n]).value.kind == "condition"
    requires Get(Parse(steps[n]).value.config, "field") == Str(field) && field != ""
    ensures Evaluate(DefaultRunner(), steps, input, n + 1).Some?
    ensures var earlier := Results(DefaultRunner(), steps, input, n);
            var result := Results(DefaultRunner(), steps, input, n + 1)[n];
            var equals := Get(Parse(steps[n]).value.config, "equals");
            && result.Keys == {"field", "matched"} && result["field"] == Str(field)
            && (forall i | LastWriter(earlier, field, i) ::
                  result["matched"] == Bool(PyEqual(earlier[i][field], equals)))
            && ((!exists i :: LastWriter(earlier, field, i)) ==>
                  result["matched"] == Bool(PyEqual(Get(input, field), equals)))
  {
    LastWriterWins(Results(DefaultRunner(), steps, input, n), field);
    EvaluationMergesResults(DefaultRunner(), steps, input, n);
  }

  predicate HasText(config: Object, key: string) {
    key in config && config[key].Str? && config[key].s != ""
  }

  /** What the built-in runner asks of a step. */
  predicate Accepts(kind: string, config: Object) {
    || (kind == "assign" && HasText(config, "target"))
    || (kind == "condition" && HasText(config, "field"))
    || (kind == "emit_event" && HasText(config, "event_name") && ("payload" in config ==> config["payload"].Obj?))
  }

  lemma DefaultRunOutcome(kind: string, config: Object, input: Object, accumulated: Object)
    ensures var o := DefaultRun(kind, config, input, accumulated);
            (o.Raised? ==> !o.transient) && (o.Success? <==> Accepts(kind, config))
  {}

  /** What it says when it rejects a step: never transient, and why. */
  lemma RejectionsSayWhy(config: Object, input: Object, accumulated: Object)
    ensures !HasText(config, "target") ==>
              Assign(config) == Raised("step_failed", "assign.target must be a non-empty string", false)
    ensures !HasText(config, "field") ==>
              Condition(config, input, accumulated)
              == Raised("step_failed", "condition.field must be a non-empty string", false)
    ensures !HasText(config, "event_name") ==>
              EmitEvent(config) == Raised("step_failed", "emit_event.event_name must be a non-empty string", false)
    ensures HasText(config, "event_name") && "payload" in config && !config["payload"].Obj? ==>
              EmitEvent(config) == Raised("step_failed", "emit_event.payload must be an object", false)
  {}

  lemma UnknownKindsAreRejected(kind: string, config: Object, input: Object, accumulated: Object)
    requires kind != "assign" && kind != "condition" && kind != "emit_event"
    ensures DefaultRun(kind, config, input, accumulated)
            == Raised("step_failed", "Unsupported step kind: " + kind, false)
  {}

  predicate WellFormed(raw: Object) {
    Parse(raw).Some? && Accepts(Parse(raw).value.kind, Parse(raw).value.config)
  }

  /** A well-formed definition has a name, a kind with the entries that this kind asks for, and
      a config that is an object unless it is missing. */
  lemma WellFormedMeans(raw: Object)
    ensures WellFormed(raw) <==>
              && "name" in raw && raw["name"].Str?
              && "kind" in raw && raw["kind"].Str?
              && ("config" in raw ==> raw["config"].Obj?)
              && Accepts(raw["kind"].s, if "config" in raw then raw["config"].fields else map[])
  {}

  /** With the built-in runner, whether a workflow runs through is decided by its definition
      alone: the input payload and what earlier steps put out never matter. */
  lemma {:induction false} DefinitionDecidesSuccess(steps: seq<Object>, input: Object, n: nat)
    requires n <= |steps|
    ensures Evaluate(DefaultRunner(), steps, input, n).Some? <==> forall i | 0 <= i < n :: WellFormed(steps[i])
    decreases n
  {
    if n > 0 {
      DefinitionDecidesSuccess(steps, input, n - 1);
      var earlier := Evaluate(DefaultRunner(), steps, input, n - 1);
      if earlier.Some? && Parse(steps[n - 1]).Some? {
        var d := Parse(steps[n - 1]).value;
        DefaultRunOutcome(d.kind, d.config, input, earlier.value);
      }
    }
  }

  // ---- What a step puts out ------------------------------------------------

  /** The raw definition names this kind and this config; a missing config is an empty one. */
  predicate Defines(raw: Object, kind: string, config: Object) {
    && "name" in raw && raw["name"].Str?
    && "kind" in raw && raw["kind"] == Str(kind)
    && (if "config" in raw then raw["config"] == Obj(config) else config == map[])
  }

  /** Every other key is as it was. */
  ghost predicate OnlyWrites(before: Object, after: Object, keys: set<string>) {
    forall k | k !in keys :: (k in after <==> k in before) && (k in before ==> after[k] == before[k])
  }

  /** An assign step puts the configured value under its target, null if there is none. */
  lemma AssignPutsItsValue(steps: seq<Object>, input: Object, n: nat, config: Object, target: string)
    requires n < |steps| && Evaluate(DefaultRunner(), steps, input, n).Some?
    requires Defines(steps[n], "assign", config)
    requires "target" in config && config["target"] == Str(target) && target != ""
    ensures var before := Evaluate(DefaultRunner(), steps, input, n).value;
            var after := Evaluate(DefaultRunner(), steps, input, n + 1);
            && after.Some? && OnlyWrites(before, after.value, {target})
            && target in after.value
            && after.value[target] == (if "value" in config then config["value"] else Null)
  {}

  /** An emit_event step puts out its event name and payload, an empty payload if there is none. */
  lemma EmitEventPutsItsPayload(steps: seq<Object>, input: Object, n: nat, config: Object, name: string)
    requires n < |steps| && Evaluate(DefaultRunner(), steps, input, n).Some?
    requires Defines(steps[n], "emit_event", config)
    requires "event_name" in config && config["event_name"] == Str(name) && name != ""
    requires "payload" in config ==> config["payload"].Obj?
    ensures var before := Evaluate(DefaultRunner(), steps, input, n).value;
            var after := Evaluate(DefaultRunner(), steps, input, n + 1);
            && after.Some? && OnlyWrites(before, after.value, {"event_name", "payload"})
            && "event_name" in after.value && after.value["event_name"] == Str(name)
            && "payload" in after.value
            && after.value["payload"] == (if "payload" in config then config["payload"] else Obj(map[]))
  {}

  /** A condition step puts out its field and whether the field matches: by what an earlier step
      left under that key, null included, or else by the input payload, or else by null. */
  lemma ConditionPutsItsVerdict(steps: seq<Object>, input: Object, n: nat, config: Object, field: string)
    requires n < |steps| && Evaluate(DefaultRunner(), steps, input, n).Some?
    requires Defines(steps[n], "condition", config)
    requires "field" in config && config["field"] == Str(field) && field != ""
    ensures var before := Evaluate(DefaultRunner(), steps, input, n).value;
            var after := Evaluate(DefaultRunner(), steps, input, n + 1);
            var actual := if field in before then before[field] else if field in input then input[field] else Null;
            var expected := if "equals" in config then config["equals"] else Null;
            && after.Some? && OnlyWrites(before, after.value, {"field", "matched"})
            && "field" in after.value && after.value["field"] == Str(field)
            && "matched" in after.value && after.value["matched"] == Bool(PyEqual(actual, expected))
  {}
}
