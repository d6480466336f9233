/** The state mapper of `mapping_utils.rs`. The caller's state is a JSON
    object; each rule writes one string into it under the rule's `from`
    key: the rule's `from` itself for a literal rule, or the result of a
    script for a rule whose `update` starts with `$`. Scripts run in an
    embedded interpreter that is not part of this model: it is the
    parameter `eval`, which gives None when the script fails and otherwise
    its value, which must be a string. */
module MappingUtils {
  import opened Wrappers
  import opened Json
  import opened Time
  import opened Writes
  import opened Dto

  /** The values a script can see: `start_date` is the time the job's
      context was created. */
  datatype Context = Context(start: DateTime)

  /** The embedded interpreter: a script and the value of `start_date` to
      the script's value, or None when evaluation fails. */
  type Evaluator = (string, DateTime) -> Option<Json>

  /** `update.starts_with("$")`. */
  predicate IsScript(rule: StateMapping) {
    |rule.update| > 0 && rule.update[0] == '$'
  }

  /** The string one rule stores. A script is the text after the `$`; an
      evaluation error, or a value that is not a string, fails the update. */
  function RuleValue(rule: StateMapping, ctx: Context, eval: Evaluator): Result<string, JobError>
  {
    if IsScript(rule) then
      match eval(rule.update[1..], ctx.start)
      case Some(JString(v)) => Success(v)
      case _ => Failure(UpdateStateFailed)
    else Success(rule.from)
  }

  /** The writes of the rules in order, or the failure of the first rule
      that fails, after which no later rule runs. */
  function StateWrites(rules: seq<StateMapping>, ctx: Context, eval: Evaluator)
    : Result<seq<(string, Json)>, JobError>
  {
    if |rules| == 0 then Success([])
    else
      var prev :- StateWrites(rules[..|rules| - 1], ctx, eval);
      var v :- RuleValue(rules[|rules| - 1], ctx, eval);
      Success(prev + [(rules[|rules| - 1].from, JString(v))])
  }

  /** The clock behind `Context::new()` reaches the state only through
      scripts: rules without a script write the same under any context. */
  lemma {:induction false} ClockOnlyReachesScripts(rules: seq<StateMapping>, ctx1: Context, ctx2: Context,
                                                   eval: Evaluator)
    requires forall i :: 0 <= i < |rules| ==> !IsScript(rules[i])
    ensures StateWrites(rules, ctx1, eval) == StateWrites(rules, ctx2, eval)
  {
    if |rules| > 0 {
      ClockOnlyReachesScripts(rules[..|rules| - 1], ctx1, ctx2, eval);
    }
  }

  /** What `update_state_core` computes: the parsed state with the writes
      of the rules applied, or why it fails. */
  function ComputeState(stateText: string, rules: Option<seq<StateMapping>>, ctx: Context,
                        parse: JsonParser, eval: Evaluator): Result<map<string, Json>, JobError>
  {
    match ParseObject(stateText, parse)
    case None => Failure(StateNotAnObject)
    case Some(state) =>
      var ws :- StateWrites(if rules.Some? then rules.value else [], ctx, eval);
      Success(ApplyWrites(state, ws))
  }

  /** Once a prefix of the rules has failed, the whole list has. */
  lemma {:induction false} StateFailurePersists(rules: seq<StateMapping>, ctx: Context, eval: Evaluator, i: nat)
    requires i <= |rules| && StateWrites(rules[..i], ctx, eval).Failure?
    ensures StateWrites(rules, ctx, eval).Failure?
    decreases |rules| - i
  {
    if i < |rules| {
      var front := rules[..|rules| - 1];
      assert front[..i] == rules[..i];
      StateFailurePersists(front, ctx, eval, i);
    } else {
      assert rules[..i] == rules;
    }
  }

  /** The rules fail iff one of them does, always with `UpdateStateFailed`;
      otherwise there is one write per rule, in order, to the rule's `from`
      key. */
  lemma {:induction false} StateWritesOutcome(rules: seq<StateMapping>, ctx: Context, eval: Evaluator)
    ensures var r := StateWrites(rules, ctx, eval);
      && (r.Failure? <==> exists i :: 0 <= i < |rules| && RuleValue(rules[i], ctx, eval).Failure?)
      && (r.Failure? ==> r.error == UpdateStateFailed)
      && (r.Success? ==>
            && |r.value| == |rules|
            && forall i :: 0 <= i < |rules| ==>
                 r.value[i] == (rules[i].from, JString(RuleValue(rules[i], ctx, eval).value)))
  {
    if |rules| > 0 {
      var n := |rules| - 1;
      var front := rules[..n];
      StateWritesOutcome(front, ctx, eval);
      var prev := StateWrites(front, ctx, eval);
      if prev.Failure? {
        var i :| 0 <= i < |front| && RuleValue(front[i], ctx, eval).Failure?;
        assert rules[i] == front[i];
      } else {
        forall i | 0 <= i < n ensures RuleValue(rules[i], ctx, eval).Success? {
          assert rules[i] == front[i];
        }
        var r := StateWrites(rules, ctx, eval);
        if r.Success? {
          forall i | 0 <= i < |rules|
            ensures r.value[i] == (rules[i].from, JString(RuleValue(rules[i], ctx, eval).value))
          {
            if i < n {
              assert rules[i] == front[i];
              assert r.value[i] == prev.value[i];
            }
          }
        }
      }
    }
  }

  /** `update_state_core`. The rules are applied to the parsed state in
      order, each inserting a string under its `from` key; the loop stops at
      the first rule whose script fails. The extracted items are passed in
      but not read. */
  method UpdateStateCore(result: seq<ExportItem>, stateText: string, stateMapping: Option<seq<StateMapping>>,
                         ctx: Context, parse: JsonParser, eval: Evaluator)
    returns (r: Result<map<string, Json>, JobError>)
    ensures r == ComputeState(stateText, stateMapping, ctx, parse, eval)
  {
    var parsed := ParseObject(stateText, parse);
    if parsed.None? {
      return Failure(StateNotAnObject);
    }
    var state := parsed.value;
    if stateMapping.Some? {
      var mapping := stateMapping.value;
      var i := 0;
      while i < |mapping|
        invariant 0 <= i <= |mapping|
        invariant StateWrites(mapping[..i], ctx, eval).Success?
        invariant state == ApplyWrites(parsed.value, StateWrites(mapping[..i], ctx, eval).value)
      {
        var m := mapping[i];
        assert mapping[..i + 1][..i] == mapping[..i];
        var value: string;
        if IsScript(m) {
          var evaluated := eval(m.update[1..], ctx.start);
          if !(evaluated.Some? && evaluated.value.JString?) {
            StateFailurePersists(mapping, ctx, eval, i + 1);
            StateWritesOutcome(mapping, ctx, eval);
            return Failure(UpdateStateFailed);
          }
          value := evaluated.value.s;
        } else {
          value := m.from;
        }
        state := state[m.from := JString(value)];
        i := i + 1;
      }
      assert mapping[..i] == mapping;
    }
    return Success(state);
  }

  /** `update_state`: the state and rules of a typed-actor job. */
  method UpdateState(result: seq<ExportItem>, job: JobCreation, ctx: Context,
                     parse: JsonParser, eval: Evaluator)
    returns (r: Result<map<string, Json>, JobError>)
    ensures r == ComputeState(job.state, job.settings.stateMapping, ctx, parse, eval)
  {
    r := UpdateStateCore(result, job.state, job.settings.stateMapping, ctx, parse, eval);
  }

  /** The update fails with `StateNotAnObject` iff the state text is not a
      JSON object, and with `UpdateStateFailed` iff it is one and some rule's
      script fails; those are the only errors. */
  lemma UpdateErrors(stateText: string, rules: seq<StateMapping>, ctx: Context,
                     parse: JsonParser, eval: Evaluator)
    ensures var r := ComputeState(stateText, Some(rules), ctx, parse, eval);
      && (r == Failure(StateNotAnObject) <==> ParseObject(stateText, parse).None?)
      && (r == Failure(UpdateStateFailed) <==>
            ParseObject(stateText, parse).Some?
            && exists i :: 0 <= i < |rules| && RuleValue(rules[i], ctx, eval).Failure?)
      && (r.Failure? ==> r.error in {StateNotAnObject, UpdateStateFailed})
  {
    StateWritesOutcome(rules, ctx, eval);
  }

  /** Without rules, the state comes back as parsed. */
  lemma NoRulesKeepState(stateText: string, rules: Option<seq<StateMapping>>, ctx: Context,
                         parse: JsonParser, eval: Evaluator)
    requires rules.None? || rules == Some([])
    requires ParseObject(stateText, parse).Some?
    ensures ComputeState(stateText, rules, ctx, parse, eval) == Success(ParseObject(stateText, parse).value)
  {
  }

  /** After a successful update, key `k` is present iff it was in the state
      or is some rule's `from`; the last rule with that `from` decides its
      value, and a key no rule names keeps its old value. */
  lemma StateAt(stateText: string, rules: seq<StateMapping>, ctx: Context,
                parse: JsonParser, eval: Evaluator, k: string)
    requires ComputeState(stateText, Some(rules), ctx, parse, eval).Success?
    ensures ParseObject(stateText, parse).Some?
    ensures var before := ParseObject(stateText, parse).value;
            var now := ComputeState(stateText, Some(rules), ctx, parse, eval).value;
            && (k in now <==> k in before || exists i :: 0 <= i < |rules| && rules[i].from == k)
            && ((forall i :: 0 <= i < |rules| ==> rules[i].from != k) ==> k in before ==> now[k] == before[k])
            && (forall i ::
                  (0 <= i < |rules| && rules[i].from == k && forall j :: i < j < |rules| ==> rules[j].from != k)
                  ==> RuleValue(rules[i], ctx, eval).Success? && now[k] == JString(RuleValue(rules[i], ctx, eval).value))
  {
    var before := ParseObject(stateText, parse).value;
    assert ComputeState(stateText, Some(rules), ctx, parse, eval).value
           == ApplyWrites(before, StateWrites(rules, ctx, eval).value);
    WrittenStateAt(before, rules, ctx, eval, k);
  }

  /** `StateAt` for the writes of successful rules on an already parsed state. */
  lemma WrittenStateAt(before: map<string, Json>, rules: seq<StateMapping>, ctx: Context, eval: Evaluator, k: string)
    requires StateWrites(rules, ctx, eval).Success?
    ensures var now := ApplyWrites(before, StateWrites(rules, ctx, eval).value);
            && (k in now <==> k in before || exists i :: 0 <= i < |rules| && rules[i].from == k)
            && ((forall i :: 0 <= i < |rules| ==> rules[i].from != k) ==> k in before ==> now[k] == before[k])
            && (forall i ::
                  (0 <= i < |rules| && rules[i].from == k && forall j :: i < j < |rules| ==> rules[j].from != k)
                  ==> RuleValue(rules[i], ctx, eval).Success? && now[k] == JString(RuleValue(rules[i], ctx, eval).value))
  {
    var ws := StateWrites(rules, ctx, eval).value;
    StateWritesOutcome(rules, ctx, eval);
    ApplyWritesAt(before, ws, k);
    var w := LastWrite(ws, k);
    assert w.Some? <==> exists i :: 0 <= i < |rules| && rules[i].from == k by {
      if exists i :: 0 <= i < |rules| && rules[i].from == k {
        var i :| 0 <= i < |rules| && rules[i].from == k;
        assert ws[i].0 == k;
      }
      if w.Some? {
        var p :| 0 <= p < |ws| && ws[p] == (k, w.value);
        assert rules[p].from == k;
      }
    }
    forall i | 0 <= i < |rules| && rules[i].from == k && (forall j :: i < j < |rules| ==> rules[j].from != k)
      ensures RuleValue(rules[i], ctx, eval).Success? && ApplyWrites(before, ws)[k] == JString(RuleValue(rules[i], ctx, eval).value)
    {
      assert ws[i].0 == k;
      var p :| 0 <= p < |ws| && ws[p] == (k, w.value) && forall j :: p < j < |ws| ==> ws[j].0 != k;
      assert ws[p].0 == rules[p].from;
      assert p == i;
    }
  }

  /** A literal rule stores its own `from` text under its `from` key (the
      `to` field plays no part). */
  lemma LiteralStoresFrom(rule: StateMapping, ctx: Context, eval: Evaluator)
    requires !IsScript(rule)
    ensures RuleValue(rule, ctx, eval) == Success(rule.from)
  {
  }

  /** No rule's `to` field affects the new state. */
  lemma {:induction false} TargetIgnored(rules: seq<StateMapping>, retargeted: seq<StateMapping>,
                                         ctx: Context, eval: Evaluator)
    requires |retargeted| == |rules|
    requires forall i :: 0 <= i < |rules| ==>
               retargeted[i].from == rules[i].from && retargeted[i].update == rules[i].update
    ensures StateWrites(rules, ctx, eval) == StateWrites(retargeted, ctx, eval)
  {
    if |rules| > 0 {
      var n := |rules| - 1;
      forall i | 0 <= i < n
        ensures retargeted[..n][i].from == rules[..n][i].from && retargeted[..n][i].update == rules[..n][i].update
      {
        assert retargeted[..n][i] == retargeted[i] && rules[..n][i] == rules[i];
      }
      TargetIgnored(rules[..n], retargeted[..n], ctx, eval);
      assert RuleValue(rules[n], ctx, eval) == RuleValue(retargeted[n], ctx, eval);
    }
  }

  /** The rule {from "a", to "b", update "literal"} ... */
  const ExampleRules: seq<StateMapping> := [StateMapping("a", "b", "literal")]

  /** ... writes the string "a" under key "a", ... */
  lemma ExampleLiteralWrites(ctx: Context, eval: Evaluator)
    ensures StateWrites(ExampleRules, ctx, eval).Success?
    ensures StateWrites(ExampleRules, ctx, eval).value == [("a", JString("a"))]
  {
    var rules := ExampleRules;
    assert rules[..0] == [];
    assert "literal"[0] != '$';
    assert RuleValue(rules[0], ctx, eval) == Success("a");
  }

  /** ... so on the state {} it gives {"a": "a"}, and "b" stays absent. */
  lemma ExampleLiteralRule(stateText: string, ctx: Context, parse: JsonParser, eval: Evaluator)
    requires parse(stateText) == Some(JObject(map[]))
    ensures ComputeState(stateText, Some(ExampleRules), ctx, parse, eval) == Success(map["a" := JString("a")])
  {
    ExampleLiteralWrites(ctx, eval);
    var ws := StateWrites(ExampleRules, ctx, eval).value;
    var empty: map<string, Json> := map[];
    assert ApplyWrites(empty, ws) == map["a" := JString("a")] by {
      assert ws[..0] == [];
    }
  }
}
