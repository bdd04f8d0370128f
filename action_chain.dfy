/**
 * A chain of actions executed in order, stopping at the first failure.
 */
module ActionChain {
  import opened Wrappers
  import opened Values

  datatype ActionStep = ActionStep(action: string, params: Dict, verification: Dict, retryStrategy: Dict)

  /** The result dictionary of a step says it succeeded. */
  predicate Succeeded(result: Dict) {
    Lookup(result, "success").Some? && Truthy(Lookup(result, "success").value)
  }

  /** `rs` in front of a chain's outcome; None stays None. */
  function Prepend(rs: seq<Dict>, o: Option<seq<Dict>>): Option<seq<Dict>> {
    if o.None? then None else Some(rs + o.value)
  }

  lemma PrependTwice(a: seq<Dict>, b: seq<Dict>, o: Option<seq<Dict>>)
    ensures Prepend(a, Prepend(b, o)) == Prepend(a + b, o)
  {
    if o.Some? {
      assert a + (b + o.value) == (a + b) + o.value;
    }
  }

  /** A step's result: the executor's, replaced by the retry helper's when the
      first attempt fails and the step has a non-empty retry strategy. None
      when a call raises or a tested result has no "success" key. */
  function Attempt(step: ActionStep, exec: (string, Dict) -> Option<Dict>, retry: ActionStep -> Option<Dict>): Option<Dict> {
    var first := exec(step.action, step.params);
    if first.None? || Lookup(first.value, "success").None? then None
    else if Succeeded(first.value) || step.retryStrategy == [] then first
    else retry(step)
  }

  /** The results of running `steps`, or None when running raises: a step's
      result is appended, and the chain stops after the first that did not
      succeed. */
  function Chain(steps: seq<ActionStep>, exec: (string, Dict) -> Option<Dict>, retry: ActionStep -> Option<Dict>): Option<seq<Dict>>
    decreases |steps|
  {
    if steps == [] then Some([])
    else
      var res := Attempt(steps[0], exec, retry);
      if res.None? || Lookup(res.value, "success").None? then None
      else if !Succeeded(res.value) then Some([res.value])
      else Prepend([res.value], Chain(steps[1..], exec, retry))
  }

  /** The shape `ChainShape` states, of results `rs` for `steps`. */
  predicate ChainShaped(rs: seq<Dict>, steps: seq<ActionStep>, exec: (string, Dict) -> Option<Dict>, retry: ActionStep -> Option<Dict>) {
    |rs| <= |steps| &&
    (forall i :: 0 <= i < |rs| ==> Some(rs[i]) == Attempt(steps[i], exec, retry)) &&
    (forall i :: 0 <= i < |rs| - 1 ==> Succeeded(rs[i])) &&
    (|rs| < |steps| ==> |rs| > 0 && !Succeeded(rs[|rs| - 1]))
  }

  lemma ShapedCons(r: Dict, tail: seq<Dict>, steps: seq<ActionStep>, exec: (string, Dict) -> Option<Dict>, retry: ActionStep -> Option<Dict>)
    requires steps != [] && Some(r) == Attempt(steps[0], exec, retry) && Succeeded(r)
    requires ChainShaped(tail, steps[1..], exec, retry)
    ensures ChainShaped([r] + tail, steps, exec, retry)
  {
    var rs := [r] + tail;
    forall i | 1 <= i < |rs|
      ensures Some(rs[i]) == Attempt(steps[i], exec, retry) && (i < |rs| - 1 ==> Succeeded(rs[i]))
    {
      assert rs[i] == tail[i - 1];
      assert steps[1..][i - 1] == steps[i];
    }
    if |rs| < |steps| {
      assert rs[|rs| - 1] == tail[|tail| - 1];
    }
  }

  /** The results are the steps' attempts, one per step from the first; every
      result but the last succeeded, and the chain stops early only at a
      failure. */
  lemma {:induction false} ChainShape(steps: seq<ActionStep>, exec: (string, Dict) -> Option<Dict>, retry: ActionStep -> Option<Dict>)
    requires Chain(steps, exec, retry).Some?
    ensures var rs := Chain(steps, exec, retry).value;
            |rs| <= |steps| &&
            (forall i :: 0 <= i < |rs| ==> Some(rs[i]) == Attempt(steps[i], exec, retry)) &&
            (forall i :: 0 <= i < |rs| - 1 ==> Succeeded(rs[i])) &&
            (|rs| < |steps| ==> |rs| > 0 && !Succeeded(rs[|rs| - 1]))
  {
    if steps != [] {
      var res := Attempt(steps[0], exec, retry);
      if Succeeded(res.value) {
        ChainShape(steps[1..], exec, retry);
        var tail := Chain(steps[1..], exec, retry).value;
        assert ChainShaped(tail, steps[1..], exec, retry);
        ShapedCons(res.value, tail, steps, exec, retry);
        assert Chain(steps, exec, retry).value == [res.value] + tail;
      }
    }
  }

  /** When every step's first attempt succeeds the chain runs to the end and
      never retries. */
  lemma {:induction false} ChainAllSucceed(steps: seq<ActionStep>, exec: (string, Dict) -> Option<Dict>, retry: ActionStep -> Option<Dict>)
    requires forall i :: 0 <= i < |steps| ==>
               exec(steps[i].action, steps[i].params).Some? && Succeeded(exec(steps[i].action, steps[i].params).value)
    ensures Chain(steps, exec, retry).Some? && |Chain(steps, exec, retry).value| == |steps|
    ensures forall i :: 0 <= i < |steps| ==> Chain(steps, exec, retry).value[i] == exec(steps[i].action, steps[i].params).value
  {
    if steps != [] {
      assert forall i :: 1 <= i < |steps| ==> steps[1..][i - 1] == steps[i];
      ChainAllSucceed(steps[1..], exec, retry);
    }
  }

  /** A failed first attempt of a step with a retry strategy is replaced by
      the retry's result, and the chain goes on exactly when that succeeded. */
  lemma RetryReplacesFirst(step: ActionStep, rest: seq<ActionStep>, exec: (string, Dict) -> Option<Dict>,
                           retry: ActionStep -> Option<Dict>)
    requires exec(step.action, step.params).Some? && Lookup(exec(step.action, step.params).value, "success").Some?
    requires !Succeeded(exec(step.action, step.params).value) && step.retryStrategy != []
    requires retry(step).Some? && Lookup(retry(step).value, "success").Some?
    ensures Succeeded(retry(step).value) ==> Chain([step] + rest, exec, retry) == Prepend([retry(step).value], Chain(rest, exec, retry))
    ensures !Succeeded(retry(step).value) ==> Chain([step] + rest, exec, retry) == Some([retry(step).value])
  {
    assert ([step] + rest)[0] == step && ([step] + rest)[1..] == rest;
  }

  /** Without a retry strategy a failed step ends the chain with its own
      result, whatever the retry helper would do. */
  lemma NoRetryWithoutStrategy(step: ActionStep, rest: seq<ActionStep>, exec: (string, Dict) -> Option<Dict>,
                               retry: ActionStep -> Option<Dict>)
    requires exec(step.action, step.params).Some? && Lookup(exec(step.action, step.params).value, "success").Some?
    requires !Succeeded(exec(step.action, step.params).value) && step.retryStrategy == []
    ensures Chain([step] + rest, exec, retry) == Some([exec(step.action, step.params).value])
  {
    assert ([step] + rest)[0] == step;
  }

  class ActionChain {
    var steps: seq<ActionStep>
    var currentStep: nat

    constructor ()
      ensures steps == [] && currentStep == 0
    {
      steps := [];
      currentStep := 0;
    }

    method AddStep(step: ActionStep)
      modifies this
      ensures steps == old(steps) + [step] && currentStep == old(currentStep)
    {
      steps := steps + [step];
    }

    /** `execute_chain`, proved against `Chain`; `retry` stands for the retry
        helper the chain calls. */
    method ExecuteChain(exec: (string, Dict) -> Option<Dict>, retry: ActionStep -> Option<Dict>) returns (results: Option<seq<Dict>>)
      ensures results == Chain(steps, exec, retry)
    {
      var acc: seq<Dict> := [];
      var i := 0;
      assert steps[0..] == steps;
      assert Chain(steps, exec, retry).Some? ==> [] + Chain(steps, exec, retry).value == Chain(steps, exec, retry).value;
      while i < |steps|
        invariant 0 <= i <= |steps|
        invariant Chain(steps, exec, retry) == Prepend(acc, Chain(steps[i..], exec, retry))
      {
        var step := steps[i];
        assert steps[i..][0] == step && steps[i..][1..] == steps[i + 1..];
        var result := exec(step.action, step.params);
        if result.None? || Lookup(result.value, "success").None? {
          return None;
        }
        if !Truthy(Lookup(result.value, "success").value) && step.retryStrategy != [] {
          result := retry(step);
          if result.None? {
            return None;
          }
        }
        if Lookup(result.value, "success").None? {
          return None;
        }
        if !Truthy(Lookup(result.value, "success").value) {
          return Some(acc + [result.value]);
        }
        PrependTwice(acc, [result.value], Chain(steps[i + 1..], exec, retry));
        acc := acc + [result.value];
        i := i + 1;
      }
      assert acc + [] == acc;
      return Some(acc);
    }
  }
}
