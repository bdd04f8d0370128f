/**
 * The agent's ReAct loop: ask the scripted LLM for a thought and an action,
 * execute the action, feed the result back, and stop when no action comes,
 * or after three consecutive exceptions.
 */
module AgentCore {
  import opened Wrappers
  import opened Values
  import opened LlmInterface
  import opened ActionExecutor

  const MaxRetries: nat := 3

  /** Logging an action reads both keys; an action lacking either raises. */
  predicate WellFormedAction(a: Json) {
    a.JObj? && "function_name" in Keys(a.fields) && "function_params" in Keys(a.fields)
  }

  /** An iteration with a truthy action completes when logging finds both keys
      and the executor's result has a "success" entry, which the loop reads
      before feeding the result back; otherwise it raises and counts a failure. */
  predicate Completes(a: Json, exec: Json -> Dict) {
    WellFormedAction(a) && Lookup(exec(a), "success").Some?
  }

  /** Executing one action on the backend, as the agent's executor does. */
  function Executor(b: Backend): Json -> Dict {
    a => ExecuteAction(a, b).result
  }

  function Thought(r: Response): seq<string> {
    if r.thought != "" then [r.thought] else []
  }

  /** One pass through the loop body over the replies still to come: whether it
      breaks, the retry count after it, the thoughts it records, the results it
      feeds back and the replies it consumes. */
  datatype Pass = Pass(stop: bool, next: nat, thoughts: seq<string>, results: seq<Dict>, consumed: nat)

  function Turn(rs: seq<Response>, retries: nat, exec: Json -> Dict): Pass
  {
    if rs == [] then Pass(true, retries, [], [], 0)
    else if !Truthy(rs[0].action) then Pass(true, retries, Thought(rs[0]), [], 1)
    else if !Completes(rs[0].action, exec) then Pass(false, retries + 1, Thought(rs[0]), [], 1)
    else Pass(false, 0, Thought(rs[0]), [exec(rs[0].action)], 1)
  }

  /** What a run does with the remaining replies: the thoughts it records, the
      results it feeds back, the replies it consumes and the final retry count. */
  datatype Trace = Trace(thoughts: seq<string>, results: seq<Dict>, consumed: nat, retries: nat)

  function Then(thoughts: seq<string>, results: seq<Dict>, consumed: nat, t: Trace): Trace {
    Trace(thoughts + t.thoughts, results + t.results, consumed + t.consumed, t.retries)
  }

  function Extend(acc: Trace, p: Pass): Trace {
    Trace(acc.thoughts + p.thoughts, acc.results + p.results, acc.consumed + p.consumed, acc.retries)
  }

  /** The loop over the replies still to come, starting with `retries` failures:
      it runs while fewer than three consecutive failures have happened. */
  function Loop(rs: seq<Response>, retries: nat, exec: Json -> Dict): Trace
    decreases |rs|
  {
    if retries >= MaxRetries || rs == [] then Trace([], [], 0, retries)
    else if !Truthy(rs[0].action) then Trace(Thought(rs[0]), [], 1, retries)
    else if !Completes(rs[0].action, exec) then Then(Thought(rs[0]), [], 1, Loop(rs[1..], retries + 1, exec))
    else Then(Thought(rs[0]), [exec(rs[0].action)], 1, Loop(rs[1..], 0, exec))
  }

  /** `Loop` is `Turn` repeated while it does not stop. */
  lemma LoopTurn(rs: seq<Response>, retries: nat, exec: Json -> Dict)
    requires retries < MaxRetries
    ensures Turn(rs, retries, exec).stop ==>
              Loop(rs, retries, exec) == Trace(Turn(rs, retries, exec).thoughts, Turn(rs, retries, exec).results,
                                               Turn(rs, retries, exec).consumed, retries)
    ensures !Turn(rs, retries, exec).stop ==>
              Loop(rs, retries, exec) == Then(Turn(rs, retries, exec).thoughts, Turn(rs, retries, exec).results,
                                              1, Loop(rs[1..], Turn(rs, retries, exec).next, exec))
  {
  }

  /** The replies the LLM has not given yet. */
  function Remaining(llm: Llm): seq<Response>
    reads llm
    requires llm.Valid()
  {
    if llm.currentSequence.None? then [] else llm.currentSequence.value[llm.currentStep..]
  }

  function Feedback(results: seq<Dict>): seq<Message> {
    seq(|results|, i requires 0 <= i < |results| => Message("user", "Action_Response: " + Dumps(JObj(results[i]))))
  }

  lemma FeedbackAppend(rs: seq<Dict>, more: seq<Dict>)
    ensures Feedback(rs + more) == Feedback(rs) + Feedback(more)
  {
  }

  /** The loop never counts more than three failures and never consumes more
      replies than there are. */
  lemma {:induction false} LoopBounds(rs: seq<Response>, retries: nat, exec: Json -> Dict)
    requires retries <= MaxRetries
    ensures Loop(rs, retries, exec).retries <= MaxRetries
    ensures Loop(rs, retries, exec).consumed <= |rs|
    ensures |Loop(rs, retries, exec).results| <= Loop(rs, retries, exec).consumed
  {
    if retries < MaxRetries && rs != [] && Truthy(rs[0].action) {
      LoopBounds(rs[1..], if Completes(rs[0].action, exec) then 0 else retries + 1, exec);
    }
  }

  /** With truthy actions that all complete, the loop consumes every reply,
      feeds back one result per reply and ends with no failures. */
  lemma {:induction false} LoopWellFormed(rs: seq<Response>, exec: Json -> Dict)
    requires forall i :: 0 <= i < |rs| ==> Truthy(rs[i].action) && Completes(rs[i].action, exec)
    ensures Loop(rs, 0, exec).consumed == |rs| && |Loop(rs, 0, exec).results| == |rs| && Loop(rs, 0, exec).retries == 0
    ensures forall i :: 0 <= i < |rs| ==> Loop(rs, 0, exec).results[i] == exec(rs[i].action)
  {
    if rs != [] {
      LoopWellFormed(rs[1..], exec);
      assert forall i :: 1 <= i < |rs| ==> rs[1..][i - 1] == rs[i];
    }
  }

  /** Three consecutive iterations that raise end the loop, whatever follows. */
  lemma ThreeFailuresStop(rs: seq<Response>, exec: Json -> Dict)
    requires |rs| >= 3
    requires forall i :: 0 <= i < 3 ==> Truthy(rs[i].action) && !Completes(rs[i].action, exec)
    ensures Loop(rs, 0, exec).consumed == 3 && Loop(rs, 0, exec).retries == 3 && Loop(rs, 0, exec).results == []
  {
    var r1, r2, r3 := rs[1..], rs[2..], rs[3..];
    assert r1[0] == rs[1] && r1[1..] == r2 && r2[0] == rs[2] && r2[1..] == r3;
    assert Loop(r3, 3, exec) == Trace([], [], 0, 3);
    assert Loop(r2, 2, exec).consumed == 1 && Loop(r2, 2, exec).retries == 3 && Loop(r2, 2, exec).results == [];
    assert Loop(r1, 1, exec).consumed == 2 && Loop(r1, 1, exec).retries == 3 && Loop(r1, 1, exec).results == [];
  }

  lemma ThenThen(th: seq<string>, rs: seq<Dict>, c: nat, th2: seq<string>, rs2: seq<Dict>, c2: nat, t: Trace)
    ensures Then(th, rs, c, Then(th2, rs2, c2, t)) == Then(th + th2, rs + rs2, c + c2, t)
  {
    assert th + (th2 + t.thoughts) == (th + th2) + t.thoughts;
    assert rs + (rs2 + t.results) == (rs + rs2) + t.results;
  }

  /** The invariant of `Steps` carried over one more pass: the accumulated trace
      extended by the pass either is the whole loop (when the pass stops) or
      leaves the loop over the rest with the pass's retry count. */
  lemma LoopAdvance(r0: seq<Response>, acc: Trace, retries: nat, exec: Json -> Dict)
    requires acc.consumed <= |r0| && retries < MaxRetries
    requires Loop(r0, 0, exec) == Then(acc.thoughts, acc.results, acc.consumed, Loop(r0[acc.consumed..], retries, exec))
    ensures var p := Turn(r0[acc.consumed..], retries, exec);
            var a := Extend(acc, p);
            p.stop ==> Loop(r0, 0, exec) == Trace(a.thoughts, a.results, a.consumed, retries)
    ensures var p := Turn(r0[acc.consumed..], retries, exec);
            var a := Extend(acc, p);
            !p.stop ==> p.consumed == 1 && a.consumed <= |r0| &&
                        Loop(r0, 0, exec) == Then(a.thoughts, a.results, a.consumed, Loop(r0[a.consumed..], p.next, exec))
  {
    var rest := r0[acc.consumed..];
    var p := Turn(rest, retries, exec);
    LoopTurn(rest, retries, exec);
    assert Extend(acc, p) == Trace(acc.thoughts + p.thoughts, acc.results + p.results, acc.consumed + p.consumed, acc.retries);
    if p.stop {
      ThenThen(acc.thoughts, acc.results, acc.consumed, p.thoughts, p.results, p.consumed, Trace([], [], 0, retries));
      assert p.thoughts + [] == p.thoughts && p.results + [] == p.results;
    } else {
      assert rest[1..] == r0[acc.consumed + 1..];
      ThenThen(acc.thoughts, acc.results, acc.consumed, p.thoughts, p.results, p.consumed, Loop(rest[1..], p.next, exec));
    }
  }

  /** The invariant of the loop of `run` once three failures are counted. */
  lemma LoopExhausted(r0: seq<Response>, acc: Trace, retries: nat, exec: Json -> Dict)
    requires retries >= MaxRetries && acc.consumed <= |r0|
    requires Loop(r0, 0, exec) == Then(acc.thoughts, acc.results, acc.consumed, Loop(r0[acc.consumed..], retries, exec))
    ensures Loop(r0, 0, exec) == Trace(acc.thoughts, acc.results, acc.consumed, retries)
  {
    assert acc.thoughts + [] == acc.thoughts && acc.results + [] == acc.results;
  }

  /** The executor reads an action's arguments under "parameters", but every
      scripted action carries them under "function_params": what a call asks
      for never reaches the handler. */
  lemma ParametersNeverReachHandler(name: string, p: Dict, b: Backend)
    ensures ExecuteAction(Call(name, p), b) == ExecuteAction(Call(name, []), b)
  {
    assert Get(Call(name, p).fields, "parameters", JObj([])) == JObj([]);
    assert Get(Call(name, []).fields, "parameters", JObj([])) == JObj([]);
  }

  /** A scripted call the executor has no handler for reports itself unknown. */
  lemma UnknownCall(name: string, p: Dict, b: Backend)
    requires name !in Handlers
    ensures ExecuteAction(Call(name, p), b).result == Failure("Unknown action: " + name)
  {
    assert Get(Call(name, p).fields, "function_name", JStr("")) == JStr(name);
  }

  /** Every scripted reply carries a truthy, well-formed action. */
  lemma ScriptWellFormed(rs: seq<Response>)
    requires rs == DrawHouse || rs == ChromeEmail
    ensures forall i :: 0 <= i < |rs| ==> Truthy(rs[i].action) && WellFormedAction(rs[i].action)
  {
    forall i | 0 <= i < |rs|
      ensures Truthy(rs[i].action) && WellFormedAction(rs[i].action)
    {
      assert rs[i].action.fields[0].0 == "function_name";
      assert rs[i].action.fields[1].0 == "function_params";
    }
  }

  /** A missing "success" entry makes the iteration raise: nothing is fed
      back and a failure is counted, even for a well-formed action. */
  lemma MissingSuccessCountsFailure(rs: seq<Response>, retries: nat, exec: Json -> Dict)
    requires retries < MaxRetries && rs != [] && Truthy(rs[0].action)
    requires Lookup(exec(rs[0].action), "success").None?
    ensures Loop(rs, retries, exec) == Then(Thought(rs[0]), [], 1, Loop(rs[1..], retries + 1, exec))
  {
  }

  /** The agent's executor always reports "success", so with it an iteration
      on a well-formed action completes. */
  lemma ExecutorCompletes(b: Backend, a: Json)
    requires WellFormedAction(a)
    ensures Completes(a, Executor(b))
  {
    ExecuteActionReports(a, b);
  }

  /** Either scripted sequence is driven to its end by an executor that
      reports "success": every reply is consumed and every action executed, in
      order, with no failure counted. */
  lemma ScriptRunsToEnd(rs: seq<Response>, exec: Json -> Dict)
    requires rs == DrawHouse || rs == ChromeEmail
    requires forall a :: Lookup(exec(a), "success").Some?
    ensures Loop(rs, 0, exec).consumed == |rs| && Loop(rs, 0, exec).retries == 0
    ensures |Loop(rs, 0, exec).results| == |rs|
    ensures forall i :: 0 <= i < |rs| ==> Loop(rs, 0, exec).results[i] == exec(rs[i].action)
  {
    ScriptWellFormed(rs);
    LoopWellFormed(rs, exec);
  }

  /** What the executor makes of the house-drawing script: the program launch,
      the window query and the five drags are unknown actions, and both clicks
      land where a click with no arguments does. */
  lemma DrawHouseExecution(b: Backend)
    ensures forall i :: i in {0, 1, 4, 5, 6, 7, 8} ==>
              ExecuteAction(DrawHouse[i].action, b).result ==
              Failure("Unknown action: " + DrawHouse[i].action.fields[0].1.s)
    ensures forall i :: i in {2, 3} ==>
              ExecuteAction(DrawHouse[i].action, b) == ExecuteAction(Call("click", []), b)
  {
    forall i | i in {0, 1, 4, 5, 6, 7, 8}
      ensures ExecuteAction(DrawHouse[i].action, b).result == Failure("Unknown action: " + DrawHouse[i].action.fields[0].1.s)
    {
      UnknownCall(DrawHouse[i].action.fields[0].1.s, DrawHouse[i].action.fields[1].1.fields, b);
    }
    forall i | i in {2, 3}
      ensures ExecuteAction(DrawHouse[i].action, b) == ExecuteAction(Call("click", []), b)
    {
      ParametersNeverReachHandler("click", DrawHouse[i].action.fields[1].1.fields, b);
    }
  }

  class Agent {
    const llm: Llm
    var currentGoal: Option<string>
    var thoughtHistory: seq<string>
    var actionQueue: seq<Json>
    var running: bool

    constructor (llm: Llm)
      ensures this.llm == llm && currentGoal == None && thoughtHistory == [] && actionQueue == [] && !running
    {
      this.llm := llm;
      currentGoal := None;
      thoughtHistory := [];
      actionQueue := [];
      running := false;
    }

    /** `set_goal`. `systemPrompt` is the formatted prompt, None when formatting
        it raises (reading the executor's action descriptions), in which case
        nothing changes and the result is false. */
    method SetGoal(goal: string, systemPrompt: Option<string>) returns (ok: bool)
      modifies this, llm
      ensures ok <==> systemPrompt.Some?
      ensures !ok ==> currentGoal == old(currentGoal) && thoughtHistory == old(thoughtHistory) &&
                      actionQueue == old(actionQueue) && llm.history == old(llm.history) &&
                      llm.currentStep == old(llm.currentStep) && llm.currentSequence == old(llm.currentSequence)
      ensures ok ==> currentGoal == Some(goal) && thoughtHistory == [] && actionQueue == [] && llm.Valid() &&
                     llm.history == [Message("system", systemPrompt.value), Message("user", goal)] &&
                     llm.currentStep == 0 && llm.currentSequence == SequenceFor(goal)
      ensures running == old(running)
    {
      if systemPrompt.None? {
        return false;
      }
      currentGoal := Some(goal);
      thoughtHistory := [];
      actionQueue := [];
      var _ := llm.StartConversation(systemPrompt.value, goal);
      return true;
    }

    /** The fields after the replies `acc` accounts for, starting from thought
        history `th0`, conversation `h0` and remaining replies `r0`. */
    ghost predicate Tracks(th0: seq<string>, h0: seq<Message>, r0: seq<Response>, acc: Trace)
      reads this, llm
    {
      llm.Valid() && acc.consumed <= |r0| && thoughtHistory == th0 + acc.thoughts &&
      llm.history == h0 + Feedback(acc.results) && Remaining(llm) == r0[acc.consumed..]
    }

    /** One iteration of the loop of `run`: take the next reply, record its
        thought, execute a well-formed truthy action and feed back a result
        that has a "success" entry, as `Turn` says. */
    method Poll(exec: Json -> Dict, retryCount: nat, ghost th0: seq<string>, ghost h0: seq<Message>,
                ghost r0: seq<Response>, ghost acc: Trace) returns (stop: bool, next: nat)
      requires Tracks(th0, h0, r0, acc)
      modifies this, llm
      ensures llm.currentSequence == old(llm.currentSequence)
      ensures currentGoal == old(currentGoal) && running == old(running)
      ensures var p := Turn(r0[acc.consumed..], retryCount, exec);
              stop == p.stop && next == p.next && Tracks(th0, h0, r0, Extend(acc, p))
    {
      ghost var rest := r0[acc.consumed..];
      var thought, action := llm.GetNextAction();
      if action.None? {
        assert rest == [];
        assert acc.thoughts + [] == acc.thoughts && acc.results + [] == acc.results;
        return true, retryCount;
      }
      assert rest != [] && thought == Some(rest[0].thought) && action == Some(rest[0].action);
      assert rest[1..] == r0[acc.consumed + 1..];
      if thought.value != "" {
        thoughtHistory := thoughtHistory + [thought.value];
      }
      assert thoughtHistory == th0 + (acc.thoughts + Thought(rest[0]));
      assert acc.results + [] == acc.results;
      if !Truthy(action.value) {
        return true, retryCount;
      }
      if !WellFormedAction(action.value) {
        return false, retryCount + 1;
      }
      var result := exec(action.value);
      if Lookup(result, "success").None? {
        return false, retryCount + 1;
      }
      llm.AddActionResult(JObj(result));
      FeedbackAppend(acc.results, [result]);
      return false, 0;
    }

    /** The `while` loop of `run`, proved against `Loop`. */
    method Steps(exec: Json -> Dict, ghost r0: seq<Response>) returns (ghost t: Trace)
      requires llm.Valid() && running && r0 == Remaining(llm)
      modifies this, llm
      ensures llm.Valid() && llm.currentSequence == old(llm.currentSequence)
      ensures currentGoal == old(currentGoal) && running
      ensures t == Loop(r0, 0, exec) && t.consumed <= |r0| && Remaining(llm) == r0[t.consumed..]
      ensures thoughtHistory == old(thoughtHistory) + t.thoughts
      ensures llm.history == old(llm.history) + Feedback(t.results)
    {
      ghost var th0 := thoughtHistory;
      ghost var h0 := llm.history;
      ghost var acc := Trace([], [], 0, 0);
      assert r0[0..] == r0 && th0 + [] == th0 && h0 + [] == h0;
      var retryCount: nat := 0;
      while running && retryCount < MaxRetries
        invariant llm.currentSequence == old(llm.currentSequence)
        invariant currentGoal == old(currentGoal) && running
        invariant retryCount <= MaxRetries
        invariant Tracks(th0, h0, r0, acc)
        invariant Loop(r0, 0, exec) == Then(acc.thoughts, acc.results, acc.consumed, Loop(r0[acc.consumed..], retryCount, exec))
        decreases |r0| - acc.consumed
      {
        ghost var p := Turn(r0[acc.consumed..], retryCount, exec);
        var stop, next := Poll(exec, retryCount, th0, h0, r0, acc);
        LoopAdvance(r0, acc, retryCount, exec);
        acc := Extend(acc, p);
        if stop {
          break;
        }
        retryCount := next;
      }
      if retryCount >= MaxRetries {
        LoopExhausted(r0, acc, retryCount, exec);
      }
      t := Loop(r0, 0, exec);
      assert t == Trace(acc.thoughts, acc.results, acc.consumed, retryCount);
    }

    /** `run`, with `exec` standing for the agent's action executor (the
        executor of this model gives `Executor(b)` for a backend `b`). None
        when the first log line raises because no goal was set. Otherwise the
        loop follows `Loop` over the remaining replies, and the result says
        whether any thought was recorded. */
    method Run(exec: Json -> Dict) returns (outcome: Option<bool>)
      requires llm.Valid()
      modifies this, llm
      ensures !running && llm.Valid()
      ensures currentGoal == old(currentGoal) && llm.currentSequence == old(llm.currentSequence)
      ensures old(currentGoal).None? ==>
                outcome == None && thoughtHistory == old(thoughtHistory) &&
                llm.history == old(llm.history) && llm.currentStep == old(llm.currentStep)
      ensures old(currentGoal).Some? ==> thoughtHistory == old(thoughtHistory) + Loop(old(Remaining(llm)), 0, exec).thoughts
      ensures old(currentGoal).Some? ==> llm.history == old(llm.history) + Feedback(Loop(old(Remaining(llm)), 0, exec).results)
      ensures old(currentGoal).Some? ==>
                Loop(old(Remaining(llm)), 0, exec).consumed <= |old(Remaining(llm))| &&
                Remaining(llm) == old(Remaining(llm))[Loop(old(Remaining(llm)), 0, exec).consumed..]
      ensures old(currentGoal).Some? ==> outcome == Some(|thoughtHistory| > 0)
    {
      running := true;
      if currentGoal.None? {
        running := false;
        return None;
      }
      ghost var t := Steps(exec, Remaining(llm));
      running := false;
      return Some(|thoughtHistory| > 0);
    }
  }
}
