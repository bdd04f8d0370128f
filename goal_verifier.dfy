/**
 * The goal-level verifier: three checks (visual templates, state requirements,
 * a goal-specific check chosen by keyword) combined into a weighted confidence,
 * one re-check on a fresh screenshot when confidence is very low, and a pass
 * threshold. Confidence is counted in tenths: the weights 0.4, 0.3 and 0.3 are
 * 4, 3 and 3, the re-check threshold 0.5 is 5 and the pass threshold 0.8 is 8.
 */
module GoalVerifier {
  import opened Wrappers
  import opened Text

  /** One expected pattern for the goal: whether its template image loaded, and
      whether its best template match reached the pattern's threshold. */
  datatype Template = Template(name: string, loaded: bool, matched: bool)

  /** One entry of the dict the visual check builds. */
  datatype PatternResult = PatternResult(name: string, matched: bool)

  /** What one screenshot, and the helpers consulted with it, show the verifier. */
  datatype Observation = Observation(
    grabRaises: bool,           // taking the screenshot raised
    templates: seq<Template>,   // the expected patterns for the goal, in dict order
    visualRaises: bool,         // grey conversion, pattern loading or matching raised
    canvas: Option<seq<int>>,   // grey levels inside the detected canvas; None when no canvas was found
    drawingRaises: bool,        // the drawing check raised
    programWindow: bool)        // the verdict of the program-window helper for the goal

  /** The patterns whose template loaded, with their `matched` flag, in order. */
  function LoadedPatterns(ts: seq<Template>): (r: seq<PatternResult>)
    ensures |r| <= |ts|
  {
    if ts == [] then []
    else (if ts[0].loaded then [PatternResult(ts[0].name, ts[0].matched)] else []) + LoadedPatterns(ts[1..])
  }

  lemma {:induction false} LoadedPatternsNonEmpty(ts: seq<Template>)
    ensures LoadedPatterns(ts) != [] <==> exists i :: 0 <= i < |ts| && ts[i].loaded
  {
    if ts != [] {
      LoadedPatternsNonEmpty(ts[1..]);
      if !ts[0].loaded && LoadedPatterns(ts) == [] {
        forall i | 0 <= i < |ts| ensures !ts[i].loaded {
          if i > 0 { assert ts[1..][i - 1] == ts[i]; }
        }
      }
      if LoadedPatterns(ts) == [] && ts[0].loaded {
        assert false;
      }
      if exists i :: 1 <= i < |ts| && ts[i].loaded {
        var i :| 1 <= i < |ts| && ts[i].loaded;
        assert ts[1..][i - 1].loaded;
      }
    }
  }

  /** The visual check: the dict of loaded patterns, or None when it raised. */
  function VisualState(o: Observation): Option<seq<PatternResult>> {
    if o.visualRaises then None else Some(LoadedPatterns(o.templates))
  }

  /** Truthiness of the visual check's result: a non-empty dict. */
  predicate VisualPassed(v: Option<seq<PatternResult>>) {
    v.Some? && v.value != []
  }

  /** The visual check passes as soon as one template loaded, whatever the match
      flags say; when it raised it fails. */
  lemma VisualPassedIff(o: Observation)
    ensures VisualPassed(VisualState(o)) <==>
      !o.visualRaises && exists i :: 0 <= i < |o.templates| && o.templates[i].loaded
  {
    LoadedPatternsNonEmpty(o.templates);
  }

  /** The number of grey levels strictly below `limit`. */
  function CountBelow(px: seq<int>, limit: int): (n: nat)
    ensures n <= |px|
  {
    if px == [] then 0 else (if px[0] < limit then 1 else 0) + CountBelow(px[1..], limit)
  }

  /** The drawing check: more than 1000 non-white (grey < 250) canvas pixels. */
  predicate DrawingPresent(o: Observation) {
    if o.drawingRaises then false
    else match o.canvas
      case None => false
      case Some(px) => CountBelow(px, 250) > 1000
  }

  /** The positions of the grey levels strictly below `limit`. */
  function BelowIndices(px: seq<int>, limit: int): set<int> {
    set i | 0 <= i < |px| && px[i] < limit
  }

  lemma {:induction false} CountBelowSnoc(q: seq<int>, x: int, limit: int)
    ensures CountBelow(q + [x], limit) == CountBelow(q, limit) + (if x < limit then 1 else 0)
  {
    if q == [] {
      assert [x][1..] == [];
    } else {
      assert (q + [x])[1..] == q[1..] + [x];
      CountBelowSnoc(q[1..], x, limit);
    }
  }

  /** The recursive count agrees with the number of positions holding a grey
      level below the limit, as `np.sum(gray < 250)` counts them. */
  lemma {:induction false} CountBelowIndices(px: seq<int>, limit: int)
    ensures CountBelow(px, limit) == |BelowIndices(px, limit)|
  {
    if px == [] {
      assert BelowIndices(px, limit) == {};
    } else {
      var q, x := px[..|px| - 1], px[|px| - 1];
      assert px == q + [x];
      CountBelowSnoc(q, x, limit);
      CountBelowIndices(q, limit);
      if x < limit {
        assert BelowIndices(px, limit) == BelowIndices(q, limit) + {|q|};
      } else {
        assert BelowIndices(px, limit) == BelowIndices(q, limit);
      }
    }
  }

  /** A drawing is reported iff the check does not raise, a canvas is detected
      and more than 1000 of its pixels are below grey level 250. */
  lemma DrawingPresentIff(o: Observation)
    ensures DrawingPresent(o) <==>
      !o.drawingRaises && o.canvas.Some? && |BelowIndices(o.canvas.value, 250)| > 1000
  {
    if o.canvas.Some? {
      CountBelowIndices(o.canvas.value, 250);
    }
  }

  /** The goal-specific check, dispatched on the lower-cased goal. */
  predicate GoalSpecific(goal: string, o: Observation) {
    var g := Lower(goal);
    if Contains(g, "draw") then DrawingPresent(o)
    else if Contains(g, "open") then o.programWindow
    else true
  }

  /** "draw" selects the drawing check even when "open" is present too; "open"
      alone selects the window check; any other goal passes. The choice ignores
      letter case. */
  lemma GoalSpecificDispatch(goal: string, o: Observation)
    ensures Contains(Lower(goal), "draw") ==> GoalSpecific(goal, o) == DrawingPresent(o)
    ensures !Contains(Lower(goal), "draw") && Contains(Lower(goal), "open") ==> GoalSpecific(goal, o) == o.programWindow
    ensures !Contains(Lower(goal), "draw") && !Contains(Lower(goal), "open") ==> GoalSpecific(goal, o)
    ensures GoalSpecific(Lower(goal), o) == GoalSpecific(goal, o)
  {
    LowerIdempotent(goal);
  }

  /** The three results the verifier combines. */
  datatype Results = Results(visual: Option<seq<PatternResult>>, state: bool, goalSpecific: bool)

  function ResultsFor(goal: string, state: bool, o: Observation): Results {
    Results(VisualState(o), state, GoalSpecific(goal, o))
  }

  /** The weight table, in tenths, in its declared order. */
  const Weights: seq<(string, nat)> := [("visual_check", 4), ("state_check", 3), ("goal_specific", 3)]

  /** Truthiness of `results[key]`. */
  predicate CheckPassed(r: Results, key: string) {
    if key == "visual_check" then VisualPassed(r.visual)
    else if key == "state_check" then r.state
    else r.goalSpecific
  }

  predicate AllPassed(r: Results) {
    VisualPassed(r.visual) && r.state && r.goalSpecific
  }

  /** The weighted sum, in tenths, of the checks that passed. */
  function Score(r: Results): nat {
    (if VisualPassed(r.visual) then 4 else 0) + (if r.state then 3 else 0) + (if r.goalSpecific then 3 else 0)
  }

  /** The confidence calculation: add each weight whose check passed. */
  method CalculateConfidence(r: Results) returns (score: nat)
    ensures score == Score(r)
  {
    score := 0;
    var k := 0;
    while k < |Weights|
      invariant 0 <= k <= |Weights|
      invariant score == (if k > 0 && VisualPassed(r.visual) then 4 else 0)
                       + (if k > 1 && r.state then 3 else 0)
                       + (if k > 2 && r.goalSpecific then 3 else 0)
    {
      var (key, weight) := Weights[k];
      if CheckPassed(r, key) {
        score := score + weight;
      }
      k := k + 1;
    }
  }

  /** Confidence lies in [0, 1] and takes one of six values. */
  lemma ScoreValues(r: Results)
    ensures 0 <= Score(r) <= 10
    ensures Score(r) in {0, 3, 4, 6, 7, 10}
  {
  }

  /** Above the pass threshold exactly when all three checks passed. */
  lemma PassIffAllChecks(r: Results)
    ensures Score(r) > 8 <==> AllPassed(r)
  {
  }

  /** Below the re-check threshold exactly when at most one check passed. */
  lemma RecheckIffAtMostOne(r: Results)
    ensures Score(r) < 5 <==>
      (if VisualPassed(r.visual) then 1 else 0) + (if r.state then 1 else 0) + (if r.goalSpecific then 1 else 0) <= 1
  {
  }

  /** The record the verifier stores and returns (timestamp, screenshot path and
      the two states it echoes are not modelled). */
  datatype Verification = Verification(goal: string, confidence: nat, results: Results)

  /**
   * Goal completion: score the first observation; when confidence is below 0.5,
   * take one fresh observation and recompute the visual and goal-specific checks,
   * keeping the state check. Passed iff confidence exceeds 0.8. Any exception
   * (a screenshot, or the state-requirement helper, raising: `stateCheck` None)
   * yields (False, None).
   */
  method VerifyGoalCompletion(goal: string, stateCheck: Option<bool>, first: Observation, second: Observation)
    returns (passed: bool, data: Option<Verification>)
    ensures first.grabRaises || stateCheck.None? ==> !passed && data.None?
    ensures !first.grabRaises && stateCheck.Some? ==>
      var initial := ResultsFor(goal, stateCheck.value, first);
      var rechecked := ResultsFor(goal, stateCheck.value, second);
      && (Score(initial) >= 5 ==> data == Some(Verification(goal, Score(initial), initial)))
      && (Score(initial) < 5 && second.grabRaises ==> data.None?)
      && (Score(initial) < 5 && !second.grabRaises ==> data == Some(Verification(goal, Score(rechecked), rechecked)))
    ensures data.None? ==> !passed
    ensures data.Some? ==> data.value.confidence <= 10 && data.value.results.state == stateCheck.value
    ensures data.Some? ==> (passed <==> data.value.confidence > 8) && (passed <==> AllPassed(data.value.results))
  {
    if first.grabRaises || stateCheck.None? {
      return false, None;
    }
    var results := ResultsFor(goal, stateCheck.value, first);
    var confidence := CalculateConfidence(results);
    if confidence < 5 {
      if second.grabRaises {
        return false, None;
      }
      results := results.(visual := VisualState(second), goalSpecific := GoalSpecific(goal, second));
      confidence := CalculateConfidence(results);
    }
    ScoreValues(results);
    PassIffAllChecks(results);
    passed := confidence > 8;
    data := Some(Verification(goal, confidence, results));
  }
}
