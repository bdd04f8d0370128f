/**
 * Goal planning: accepting an LLM plan, the fallback step, `{goal}` templating
 * of stored patterns, and loading context files named by goal keywords.
 * The LLM reply, the parsed plan, the clock and the knowledge files are inputs.
 */
module GoalPlanner {
  import opened Wrappers
  import opened Text
  import opened Values

  /** An entry of the stored breakdown list; `success` stays None until the goal completes. */
  datatype Breakdown = Breakdown(goal: string, plan: Dict, timestamp: string, success: Option<bool>)

  /** A parsed reply is accepted as a plan when it is a non-empty dict with "steps". */
  predicate Acceptable(parsed: Json) {
    parsed.JObj? && Truthy(parsed) && "steps" in Keys(parsed.fields)
  }

  /** The planner's stored breakdowns (a JSON file in the source). */
  class Planner {
    var breakdowns: seq<Breakdown>

    constructor (stored: seq<Breakdown>)
      ensures breakdowns == stored
    {
      breakdowns := stored;
    }

    /** Append one breakdown record; earlier entries are unchanged. */
    method StoreGoalBreakdown(goal: string, plan: Dict, now: string)
      modifies this
      ensures breakdowns == old(breakdowns) + [Breakdown(goal, plan, now, None)]
    {
      breakdowns := breakdowns + [Breakdown(goal, plan, now, None)];
    }

    /** Accept or reject the LLM's reply. `error` is the error half of the
        reply; `parsed` is the parsed response, None when parsing raises.
        A truthy error, a falsy parse, a reply without "steps", or one that is
        not a dict (setting the step index then raises, which is caught) gives
        None with nothing stored; there is no retry and no fallback. */
    method BreakDownGoal(goal: string, error: Json, parsed: Option<Json>, now: string) returns (plan: Option<Dict>)
      modifies this
      ensures plan.Some? <==> !Truthy(error) && parsed.Some? && Acceptable(parsed.value)
      ensures plan.None? ==> breakdowns == old(breakdowns)
      ensures plan.Some? ==> plan.value == Set(parsed.value.fields, "current_step_index", JInt(0))
      ensures plan.Some? ==> breakdowns == old(breakdowns) + [Breakdown(goal, plan.value, now, None)]
    {
      if Truthy(error) {
        return None;
      }
      if parsed.None? {
        return None;
      }
      var p := parsed.value;
      var has := In("steps", p);
      if !Truthy(p) || has != Some(true) {
        return None;
      }
      if !p.JObj? {
        return None;
      }
      var accepted := Set(p.fields, "current_step_index", JInt(0));
      StoreGoalBreakdown(goal, accepted, now);
      return Some(accepted);
    }
  }

  /** An accepted plan starts at step 0 and keeps its steps, even an empty list. */
  lemma AcceptedPlanStartsAtZero(parsed: Json)
    requires Acceptable(parsed)
    ensures Lookup(Set(parsed.fields, "current_step_index", JInt(0)), "current_step_index") == Some(JInt(0))
    ensures Lookup(Set(parsed.fields, "current_step_index", JInt(0)), "steps") == Lookup(parsed.fields, "steps")
    ensures Acceptable(JObj([("steps", JList([]))]))
  {
    assert ("steps", JList([])) in [("steps", JList([]))];
  }

  /** The single fallback step. */
  function CreateFallbackSteps(goal: string): (steps: seq<Dict>)
    ensures |steps| == 1
    ensures Keys(steps[0]) == {"name", "description", "verification"}
    ensures Lookup(steps[0], "name") == Some(JStr("analyze_goal"))
    ensures Lookup(steps[0], "description") == Some(JStr("Analyze requirements for: " + goal))
    ensures Lookup(steps[0], "verification") == Some(JStr("requirements_understood"))
  {
    var step := [("name", JStr("analyze_goal")),
                 ("description", JStr("Analyze requirements for: " + goal)),
                 ("verification", JStr("requirements_understood"))];
    assert step[0] in step && step[1] in step && step[2] in step;
    [step]
  }

  /** A pattern step that can be adapted: a dict whose description is a string. */
  predicate Adaptable(step: Json) {
    step.JObj? && Lookup(step.fields, "description").Some? && Lookup(step.fields, "description").value.JStr?
  }

  /** The step with every "{goal}" in its description replaced. */
  function AdaptStep(step: Json, goal: string): (r: Dict)
    requires Adaptable(step)
    ensures Keys(r) == Keys(step.fields) && |r| == |step.fields|
    ensures forall k :: k != "description" ==> Lookup(r, k) == Lookup(step.fields, k)
    ensures Lookup(r, "description") == Some(JStr(Replace(Lookup(step.fields, "description").value.s, "{goal}", goal)))
  {
    Set(step.fields, "description", JStr(Replace(Lookup(step.fields, "description").value.s, "{goal}", goal)))
  }

  /** Copy each step, replacing "{goal}" in its description. A step that is not
      a dict with a string description raises; the model returns None. */
  method AdaptPatternToGoal(patternSteps: seq<Json>, goal: string) returns (adapted: Option<seq<Dict>>)
    ensures adapted.Some? <==> forall i :: 0 <= i < |patternSteps| ==> Adaptable(patternSteps[i])
    ensures adapted.Some? ==> |adapted.value| == |patternSteps|
    ensures adapted.Some? ==> forall i :: 0 <= i < |patternSteps| ==> adapted.value[i] == AdaptStep(patternSteps[i], goal)
  {
    var result: seq<Dict> := [];
    var k := 0;
    while k < |patternSteps|
      invariant 0 <= k <= |patternSteps|
      invariant forall i :: 0 <= i < k ==> Adaptable(patternSteps[i])
      invariant |result| == k
      invariant forall i :: 0 <= i < k ==> result[i] == AdaptStep(patternSteps[i], goal)
    {
      var step := patternSteps[k];
      if !Adaptable(step) {
        return None;
      }
      var a := AdaptStep(step, goal);
      forall i | 0 <= i < k + 1
        ensures (result + [a])[i] == AdaptStep(patternSteps[i], goal)
      {
        if i < k {
          assert (result + [a])[i] == result[i];
        }
      }
      result := result + [a];
      k := k + 1;
    }
    return Some(result);
  }

  /** A description without "{goal}" is left as it is. */
  lemma AdaptWithoutPlaceholder(step: Json, goal: string)
    requires Adaptable(step) && !Contains(Lookup(step.fields, "description").value.s, "{goal}")
    ensures Lookup(AdaptStep(step, goal), "description") == Lookup(step.fields, "description")
  {
    ReplaceAbsent(Lookup(step.fields, "description").value.s, "{goal}", goal);
  }

  /** `keywords[n]` is the first keyword whose context file exists but cannot be read. */
  predicate FirstUnreadable(keywords: seq<string>, files: map<string, Option<Json>>, n: nat)
    requires n < |keywords|
  {
    keywords[n] in files && files[keywords[n]].None? &&
    forall i :: 0 <= i < n && keywords[i] in files ==> files[keywords[i]].Some?
  }

  /** Load the context file of each keyword that has one. `files` maps a keyword
      to its context file: Some(content), or None when reading it raises, which
      ends the loading (the error is caught and the context so far is kept). */
  method LoadGoalContext(keywords: seq<string>, files: map<string, Option<Json>>) returns (context: map<string, Json>)
    ensures forall k :: k in context ==> k in keywords && k in files && files[k] == Some(context[k])
    ensures (forall i :: 0 <= i < |keywords| && keywords[i] in files ==> files[keywords[i]].Some?) ==>
              context.Keys == (set i | 0 <= i < |keywords| && keywords[i] in files :: keywords[i])
    ensures forall n :: 0 <= n < |keywords| && FirstUnreadable(keywords, files, n) ==>
              context.Keys == (set i | 0 <= i < n && keywords[i] in files :: keywords[i])
  {
    context := map[];
    var n := 0;
    while n < |keywords|
      invariant 0 <= n <= |keywords|
      invariant forall k :: k in context ==> k in keywords[..n] && k in files && files[k] == Some(context[k])
      invariant context.Keys == (set i | 0 <= i < n && keywords[i] in files :: keywords[i])
      invariant forall i :: 0 <= i < n && keywords[i] in files ==> files[keywords[i]].Some?
    {
      var keyword := keywords[n];
      if keyword in files {
        match files[keyword]
        case None =>
          assert forall k :: k in context ==> k in keywords;
          assert forall m :: 0 <= m < |keywords| && FirstUnreadable(keywords, files, m) ==> m == n;
          return;
        case Some(content) =>
          context := context[keyword := content];
      }
      n := n + 1;
    }
  }
}
