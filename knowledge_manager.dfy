/**
 * The knowledge store: append-only lists of action outcomes, state
 * transitions, verification failures and goal attempts, plus the success
 * patterns learned from successful goals. The JSON files the source reads and
 * rewrites are fields here (a missing file is an empty list); clock readings
 * are inputs.
 */
module KnowledgeManager {
  import opened Wrappers
  import opened Text
  import opened Values

  /** A knowledge file as the loader finds it. */
  datatype FileState = Absent | Unreadable | Holds(content: Json)

  /** `load_json`: the file's content when it exists and parses, otherwise the
      default, with None (the default default) meaning an empty dict. */
  function LoadJson(file: FileState, default: Json): (r: Json)
    ensures file.Holds? ==> r == file.content
    ensures !file.Holds? && !default.JNull? ==> r == default
    ensures !file.Holds? && default.JNull? ==> r == JObj([])
  {
    match file
    case Holds(content) => content
    case _ => if default.JNull? then JObj([]) else default
  }

  // ---------------------------------------------------------------- similarity

  const KeyAttrs: seq<string> := ["active_window", "paint_open", "paint_ready"]

  /** `_similar_states`: both states are dicts (`.get` raises otherwise, None
      here) and agree, by `==`, on every key attribute, a missing one reading
      as None. */
  function SimilarStates(s1: Json, s2: Json): (r: Option<bool>)
    ensures r.Some? <==> s1.JObj? && s2.JObj?
  {
    if !s1.JObj? || !s2.JObj? then None
    else Some(forall i :: 0 <= i < |KeyAttrs| ==> PyEq(Get(s1.fields, KeyAttrs[i], JNull), Get(s2.fields, KeyAttrs[i], JNull)))
  }

  /** Similar means equal on active_window, paint_open and paint_ready. */
  lemma SimilarStatesIff(d1: Dict, d2: Dict)
    ensures SimilarStates(JObj(d1), JObj(d2)) == Some(true) <==>
              PyEq(Get(d1, "active_window", JNull), Get(d2, "active_window", JNull)) &&
              PyEq(Get(d1, "paint_open", JNull), Get(d2, "paint_open", JNull)) &&
              PyEq(Get(d1, "paint_ready", JNull), Get(d2, "paint_ready", JNull))
  {
    assert KeyAttrs[0] == "active_window" && KeyAttrs[1] == "paint_open" && KeyAttrs[2] == "paint_ready";
  }

  /** Keys other than the three key attributes do not affect similarity, and a
      missing key is the same as an explicit None. */
  lemma SimilarStatesIgnoresOtherKeys(d: Dict, k: string, v: Json, other: Json)
    requires k !in KeyAttrs
    ensures SimilarStates(JObj(Set(d, k, v)), other) == SimilarStates(JObj(d), other)
  {
    forall i | 0 <= i < |KeyAttrs| ensures Get(Set(d, k, v), KeyAttrs[i], JNull) == Get(d, KeyAttrs[i], JNull) {
      assert KeyAttrs[i] != k;
    }
  }

  lemma SimilarStatesMissingIsNone()
    ensures SimilarStates(JObj([]), JObj([("active_window", JNull)])) == Some(true)
  {
    assert ("active_window", JNull) in [("active_window", JNull)];
    SimilarStatesIff([], [("active_window", JNull)]);
  }

  // ---------------------------------------------------------------- alternatives

  /** What one stored success contributes: its action when its pre-state is
      similar; None when reading the entry raises. */
  function Alternative(entry: Json, current: Json): Option<seq<Json>> {
    if !entry.JObj? || "pre_state" !in Keys(entry.fields) then None
    else match SimilarStates(Lookup(entry.fields, "pre_state").value, current)
      case None => None
      case Some(false) => Some([])
      case Some(true) => if "action" in Keys(entry.fields) then Some([Lookup(entry.fields, "action").value]) else None
  }

  /** The contributions of the entries, concatenated in order; None as soon as one raises. */
  function Collect(entries: seq<Json>, f: Json -> Option<seq<Json>>): Option<seq<Json>> {
    if entries == [] then Some([])
    else match f(entries[0])
      case None => None
      case Some(a) =>
        match Collect(entries[1..], f)
        case None => None
        case Some(rest) => Some(a + rest)
  }

  lemma {:induction false} CollectAppend(entries: seq<Json>, e: Json, f: Json -> Option<seq<Json>>)
    requires f(e).Some? && forall i :: 0 <= i < |entries| ==> f(entries[i]).Some?
    ensures Collect(entries, f).Some?
    ensures Collect(entries + [e], f) == Some(Collect(entries, f).value + f(e).value)
  {
    if entries == [] {
      assert entries + [e] == [e];
      assert [e][1..] == [];
      assert Collect([e][1..], f) == Some([]);
      assert f(e).value + [] == f(e).value == [] + f(e).value;
      assert Collect([e], f) == Some(f(e).value + []);
    } else {
      assert (entries + [e])[1..] == entries[1..] + [e];
      assert (entries + [e])[0] == entries[0];
      CollectAppend(entries[1..], e, f);
      assert f(entries[0]).value + (Collect(entries[1..], f).value + f(e).value)
          == (f(entries[0]).value + Collect(entries[1..], f).value) + f(e).value;
    }
  }

  lemma {:induction false} CollectMembers(entries: seq<Json>, f: Json -> Option<seq<Json>>, x: Json)
    requires forall i :: 0 <= i < |entries| ==> f(entries[i]).Some?
    ensures Collect(entries, f).Some?
    ensures x in Collect(entries, f).value <==> exists i :: 0 <= i < |entries| && x in f(entries[i]).value
  {
    if entries != [] {
      assert forall i :: 1 <= i < |entries| ==> entries[i] == entries[1..][i - 1];
      CollectMembers(entries[1..], f, x);
      if exists i :: 0 <= i < |entries[1..]| && x in f(entries[1..][i]).value {
        var i :| 0 <= i < |entries[1..]| && x in f(entries[1..][i]).value;
        assert entries[i + 1] == entries[1..][i];
      }
    }
  }

  /** `found` in front of a collection, None staying None. */
  function PrependTo(found: seq<Json>, o: Option<seq<Json>>): Option<seq<Json>> {
    match o
    case None => None
    case Some(rest) => Some(found + rest)
  }

  lemma PrependEmpty(o: Option<seq<Json>>)
    ensures PrependTo([], o) == o
  {
    if o.Some? {
      assert [] + o.value == o.value;
    }
  }

  lemma PrependTwice(a: seq<Json>, b: seq<Json>, o: Option<seq<Json>>)
    ensures PrependTo(a, PrependTo(b, o)) == PrependTo(a + b, o)
  {
    if o.Some? {
      assert a + (b + o.value) == (a + b) + o.value;
    }
  }

  /** One step of `Collect`: the first entry's contribution goes in front, or the whole raises. */
  lemma CollectUnfold(entries: seq<Json>, f: Json -> Option<seq<Json>>)
    requires entries != []
    ensures f(entries[0]).None? ==> Collect(entries, f).None?
    ensures f(entries[0]).Some? ==> Collect(entries, f) == PrependTo(f(entries[0]).value, Collect(entries[1..], f))
  {
  }

  /** The alternatives collected from the stored successes in order; None when
      some entry raises. */
  function Alternatives(entries: seq<Json>, current: Json): Option<seq<Json>> {
    Collect(entries, e => Alternative(e, current))
  }

  /** A stored success whose fields can all be read. */
  predicate WellFormed(entry: Json) {
    entry.JObj? && "pre_state" in Keys(entry.fields) && "action" in Keys(entry.fields) &&
    Lookup(entry.fields, "pre_state").value.JObj?
  }

  predicate SimilarEntry(entry: Json, current: Json)
    requires WellFormed(entry)
  {
    SimilarStates(Lookup(entry.fields, "pre_state").value, current) == Some(true)
  }

  lemma AlternativeWellFormed(entry: Json, current: Json)
    requires current.JObj? && WellFormed(entry)
    ensures Alternative(entry, current) ==
            Some(if SimilarEntry(entry, current) then [Lookup(entry.fields, "action").value] else [])
  {
  }

  /** Storing one more success extends the alternatives at the end, by its
      action exactly when its pre-state is similar. */
  lemma AlternativesAppend(entries: seq<Json>, e: Json, current: Json)
    requires current.JObj? && WellFormed(e)
    requires forall i :: 0 <= i < |entries| ==> WellFormed(entries[i])
    ensures Alternatives(entries, current).Some?
    ensures Alternatives(entries + [e], current) ==
            Some(Alternatives(entries, current).value + (if SimilarEntry(e, current) then [Lookup(e.fields, "action").value] else []))
  {
    var f := e => Alternative(e, current);
    AlternativeWellFormed(e, current);
    forall i | 0 <= i < |entries| ensures f(entries[i]).Some? {
      AlternativeWellFormed(entries[i], current);
    }
    CollectAppend(entries, e, f);
  }

  /** With readable entries, an action is an alternative exactly when some
      stored success with a similar pre-state holds it. */
  lemma AlternativesMembers(entries: seq<Json>, current: Json, x: Json)
    requires current.JObj?
    requires forall i :: 0 <= i < |entries| ==> WellFormed(entries[i])
    ensures Alternatives(entries, current).Some?
    ensures x in Alternatives(entries, current).value <==>
              exists i :: 0 <= i < |entries| && SimilarEntry(entries[i], current) && Lookup(entries[i].fields, "action").value == x
  {
    var f := e => Alternative(e, current);
    forall i | 0 <= i < |entries|
      ensures f(entries[i]).Some?
      ensures x in f(entries[i]).value <==> SimilarEntry(entries[i], current) && Lookup(entries[i].fields, "action").value == x
    {
      AlternativeWellFormed(entries[i], current);
    }
    CollectMembers(entries, f, x);
  }

  // ---------------------------------------------------------------- entries

  function ActionEntry(action: Json, pre: Json, post: Json, now: string): Json {
    JObj([("action", action), ("pre_state", pre), ("post_state", post), ("timestamp", JStr(now))])
  }

  function TransitionEntry(state: Json, now: string): Json {
    JObj([("state", state), ("timestamp", JStr(now))])
  }

  function VerificationFailureEntry(action: Json, state: Json, now: string): Json {
    JObj([("action", action), ("state", state), ("timestamp", JStr(now))])
  }

  function FailedAttemptEntry(goal: Json, verification: Json, now: string): Json {
    JObj([("goal", goal), ("verification", verification), ("timestamp", JStr(now))])
  }

  function AttemptEntry(goal: Json, steps: Json, success: Json, now: string): Json {
    JObj([("timestamp", JStr(now)), ("goal", goal), ("steps", steps), ("success", success), ("context", JObj([]))])
  }

  /** A stored success entry is readable, and its pre-state is its own. */
  lemma ActionEntryWellFormed(action: Json, pre: Json, post: Json, now: string)
    requires pre.JObj?
    ensures WellFormed(ActionEntry(action, pre, post, now))
    ensures Lookup(ActionEntry(action, pre, post, now).fields, "action") == Some(action)
  {
    var fs := ActionEntry(action, pre, post, now).fields;
    assert fs[0] in fs && fs[1] in fs;
  }

  // ---------------------------------------------------------------- generalisation

  /** `categorize_goal` asks nothing yet: every goal is a "general_task". */
  function CategorizeGoal(goal: Json): (category: string)
    ensures category == "general_task"
  {
    "general_task"
  }

  /** A step that can be generalised: a dict with a description. */
  predicate Generalizable(step: Json) {
    step.JObj? && "description" in Keys(step.fields)
  }

  /** The generalised step; `generalize_description` returns its input. */
  function GeneralStep(step: Json): Dict
    requires Generalizable(step)
  {
    [("type", Get(step.fields, "verification", JStr("action"))),
     ("description", Lookup(step.fields, "description").value),
     ("required_states", Get(step.fields, "required_state", JObj([]))),
     ("success_pattern", Get(step.fields, "success_pattern", JObj([])))]
  }

  /** A lookup passes over a pair with another key. */
  lemma LookupSkip(p: (string, Json), d: Dict, k: string)
    requires p.0 != k
    ensures Lookup([p] + d, k) == Lookup(d, k)
  {
    assert ([p] + d)[1..] == d;
  }

  /** A generalised step has four entries; its type defaults to "action" and its description is kept. */
  lemma GeneralStepShape(step: Json)
    requires Generalizable(step)
    ensures |GeneralStep(step)| == 4
    ensures Lookup(GeneralStep(step), "type") == Some(Get(step.fields, "verification", JStr("action")))
    ensures Lookup(GeneralStep(step), "description") == Lookup(step.fields, "description")
  {
    var g := GeneralStep(step);
    assert Lookup(g, "description") == Lookup(g[1..], "description");
  }

  /** The required states and the success pattern of a generalised step default to `{}`. */
  lemma GeneralStepDefaults(step: Json)
    requires Generalizable(step)
    ensures Lookup(GeneralStep(step), "required_states") == Some(Get(step.fields, "required_state", JObj([])))
    ensures Lookup(GeneralStep(step), "success_pattern") == Some(Get(step.fields, "success_pattern", JObj([])))
  {
    var g := GeneralStep(step);
    LookupSkip(g[0], g[1..], "required_states");
    LookupSkip(g[0], g[1..], "success_pattern");
    LookupSkip(g[1], g[2..], "required_states");
    LookupSkip(g[1], g[2..], "success_pattern");
    LookupSkip(g[2], g[3..], "success_pattern");
  }

  /** `generalize_steps` over the items the loop takes from `steps`; None when
      they are not iterable or some step is not a dict with a description. */
  method GeneralizeSteps(steps: Json) returns (generalized: Option<seq<Dict>>)
    ensures generalized.Some? <==> AllGeneralizable(steps)
    ensures generalized.Some? ==> |generalized.value| == |Iterate(steps).value|
    ensures generalized.Some? ==> forall i :: 0 <= i < |generalized.value| ==>
              generalized.value[i] == GeneralStep(Iterate(steps).value[i])
  {
    var items := Iterate(steps);
    if items.None? {
      return None;
    }
    var xs := items.value;
    var out: seq<Dict> := [];
    var k := 0;
    while k < |xs|
      invariant 0 <= k <= |xs|
      invariant |out| == k
      invariant forall i :: 0 <= i < k ==> Generalizable(xs[i]) && out[i] == GeneralStep(xs[i])
    {
      if !Generalizable(xs[k]) {
        return None;
      }
      out := out + [GeneralStep(xs[k])];
      k := k + 1;
    }
    return Some(out);
  }

  /** A learned success pattern. */
  datatype Pattern = Pattern(goalType: string, steps: seq<Dict>, context: Dict, lastSuccess: string, successCount: int)

  /** Every item the loop of `generalize_steps` takes from `steps` can be generalised. */
  predicate AllGeneralizable(steps: Json) {
    Iterate(steps).Some? && forall i :: 0 <= i < |Iterate(steps).value| ==> Generalizable(Iterate(steps).value[i])
  }

  /** The patterns after learning from a success with `steps` at time `now`:
      every goal falls under "general_task"; a known pattern counts one more
      success and takes the new time, keeping its steps (`merge_steps` does
      nothing); a new one holds the category, the generalised steps, the
      attempt's empty context, the time and count 1. Other patterns are kept. */
  predicate Learned(before: map<string, Pattern>, after: map<string, Pattern>, steps: Json, now: string)
    requires AllGeneralizable(steps)
  {
    after.Keys == before.Keys + {"general_task"} &&
    (forall t :: t in before && t != "general_task" ==> after[t] == before[t]) &&
    if "general_task" in before then
      after["general_task"] == before["general_task"].(
        successCount := before["general_task"].successCount + 1, lastSuccess := now)
    else
      var p := after["general_task"];
      p.goalType == "general_task" && p.context == [] && p.lastSuccess == now && p.successCount == 1 &&
      |p.steps| == |Iterate(steps).value| &&
      forall i :: 0 <= i < |p.steps| ==> p.steps[i] == GeneralStep(Iterate(steps).value[i])
  }

  /** The knowledge files. */
  datatype Stores = Stores(
    successes: seq<Json>,             // actions/successful_actions.json
    failures: seq<Json>,              // actions/failed_actions.json
    transitions: seq<Json>,           // states/transitions.json
    verificationFailures: seq<Json>,  // verifications/failures.json
    failedAttempts: seq<Json>,        // goals/failed_attempts.json
    history: seq<Json>,               // goals/history.json
    patterns: map<string, Pattern>)   // goals/patterns.json

  class Knowledge {
    var stores: Stores

    constructor (initial: Stores)
      ensures stores == initial
    {
      stores := initial;
    }

    method StoreSuccessfulAction(action: Json, pre: Json, post: Json, now: string)
      modifies this
      ensures stores == old(stores).(successes := old(stores).successes + [ActionEntry(action, pre, post, now)])
    {
      stores := stores.(successes := stores.successes + [ActionEntry(action, pre, post, now)]);
    }

    method StoreFailedAction(action: Json, pre: Json, post: Json, now: string)
      modifies this
      ensures stores == old(stores).(failures := old(stores).failures + [ActionEntry(action, pre, post, now)])
    {
      stores := stores.(failures := stores.failures + [ActionEntry(action, pre, post, now)]);
    }

    method StoreStateTransition(state: Json, now: string)
      modifies this
      ensures stores == old(stores).(transitions := old(stores).transitions + [TransitionEntry(state, now)])
    {
      stores := stores.(transitions := stores.transitions + [TransitionEntry(state, now)]);
    }

    method StoreVerificationFailure(action: Json, state: Json, now: string)
      modifies this
      ensures stores == old(stores).(verificationFailures := old(stores).verificationFailures + [VerificationFailureEntry(action, state, now)])
    {
      stores := stores.(verificationFailures := stores.verificationFailures + [VerificationFailureEntry(action, state, now)]);
    }

    method StoreFailedAttempt(goal: Json, verification: Json, now: string)
      modifies this
      ensures stores == old(stores).(failedAttempts := old(stores).failedAttempts + [FailedAttemptEntry(goal, verification, now)])
    {
      stores := stores.(failedAttempts := stores.failedAttempts + [FailedAttemptEntry(goal, verification, now)]);
    }

    /** The actions of the stored successes whose pre-state is similar to the
        current state, in stored order; any exception gives []. */
    method GetAlternativeActions(current: Json) returns (alternatives: seq<Json>)
      ensures alternatives == Alternatives(stores.successes, current).GetOr([])
    {
      var entries := stores.successes;
      var f := e => Alternative(e, current);
      var found: seq<Json> := [];
      var k := 0;
      assert entries[0..] == entries;
      PrependEmpty(Collect(entries, f));
      while k < |entries|
        invariant 0 <= k <= |entries|
        invariant Collect(entries, f) == PrependTo(found, Collect(entries[k..], f))
      {
        CollectUnfold(entries[k..], f);
        assert entries[k..][1..] == entries[k + 1..];
        var a := Alternative(entries[k], current);
        if a.None? {
          return [];
        }
        PrependTwice(found, a.value, Collect(entries[k + 1..], f));
        found := found + a.value;
        k := k + 1;
      }
      assert found + [] == found;
      return found;
    }

    /** Learn from a successful attempt's steps. The generalised steps are
        computed first, so steps that cannot be generalised raise even for a
        known goal type (`ok` false, nothing changed). A known type has its
        count raised by one and its last-success time updated, its steps kept
        (`merge_steps` does nothing); a new type is inserted with count 1. */
    method LearnFromSuccess(goal: Json, steps: Json, now: string) returns (ok: bool)
      modifies this
      ensures stores.(patterns := old(stores).patterns) == old(stores)
      ensures ok <==> AllGeneralizable(steps)
      ensures !ok ==> stores == old(stores)
      ensures ok ==> Learned(old(stores).patterns, stores.patterns, steps, now)
    {
      var generalized := GeneralizeSteps(steps);
      if generalized.None? {
        return false;
      }
      var goalType := CategorizeGoal(goal);
      var patterns := stores.patterns;
      if goalType in patterns {
        var p := patterns[goalType];
        patterns := patterns[goalType := p.(successCount := p.successCount + 1, lastSuccess := now)];
      } else {
        patterns := patterns[goalType := Pattern(goalType, generalized.value, [], now, 1)];
      }
      stores := stores.(patterns := patterns);
      return true;
    }

    /** Append the attempt, stamped `now`, to the history, then learn from it
        when `success` is truthy, with the later clock reading `learnedAt` as the
        pattern's last success. `ok` is false when learning raises; the history
        entry stays. */
    method StoreGoalAttempt(goal: Json, steps: Json, success: Json, now: string, learnedAt: string) returns (ok: bool)
      modifies this
      ensures stores.history == old(stores).history + [AttemptEntry(goal, steps, success, now)]
      ensures stores.(history := old(stores).history, patterns := old(stores).patterns) == old(stores)
      ensures !Truthy(success) ==> ok && stores.patterns == old(stores).patterns
      ensures Truthy(success) ==> (ok <==> AllGeneralizable(steps))
      ensures Truthy(success) && !ok ==> stores.patterns == old(stores).patterns
      ensures Truthy(success) && ok ==> Learned(old(stores).patterns, stores.patterns, steps, learnedAt)
    {
      stores := stores.(history := stores.history + [AttemptEntry(goal, steps, success, now)]);
      ok := true;
      if Truthy(success) {
        ok := LearnFromSuccess(goal, steps, learnedAt);
      }
    }
  }
}
