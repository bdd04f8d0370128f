/**
 * The scripted stand-in for an LLM: a conversation history and a cursor over
 * one of two canned action sequences, chosen by keywords of the goal.
 */
module LlmInterface {
  import opened Wrappers
  import opened Text
  import opened Values

  datatype Message = Message(role: string, content: string)

  /** One scripted reply: a thought and the action to take. */
  datatype Response = Response(thought: string, action: Json)

  function Call(name: string, params: Dict): Json {
    JObj([("function_name", JStr(name)), ("function_params", JObj(params))])
  }

  function Drag(x0: int, y0: int, x1: int, y1: int): Json {
    Call("drag_mouse", [("start_x", JInt(x0)), ("start_y", JInt(y0)), ("end_x", JInt(x1)), ("end_y", JInt(y1)),
                        ("relative", JBool(true))])
  }

  const DrawHouse: seq<Response> := [
    Response("First, I need to open Paint and maximize it for consistent coordinates",
             Call("launch_program", [("program_name", JStr("paint"))])),
    Response("Now I need to verify the window is active and maximize it",
             Call("get_window_info", [("title", JStr("Untitled - Paint"))])),
    Response("I need to select the pencil tool from the Brushes section",
             Call("click", [("x", JInt(250)), ("y", JInt(80)), ("relative", JBool(true))])),
    Response("Starting to draw the base of the house - bottom left corner",
             Call("click", [("x", JInt(400)), ("y", JInt(500)), ("relative", JBool(true))])),
    Response("Drawing the bottom line of the house", Drag(400, 500, 600, 500)),
    Response("Drawing the right wall", Drag(600, 500, 600, 300)),
    Response("Drawing the left wall", Drag(400, 500, 400, 300)),
    Response("Drawing the roof - left side", Drag(400, 300, 500, 200)),
    Response("Drawing the roof - right side", Drag(500, 200, 600, 300))]

  const ChromeEmail: seq<Response> := [
    Response("First, I need to launch Google Chrome",
             Call("launch_program", [("program_name", JStr("chrome"))])),
    Response("Now I need to wait for Chrome to load and navigate to Gmail",
             Call("type_text", [("text", JStr("gmail.com")), ("enter", JBool(true))]))]

  /** The sequence a goal selects: "draw" and "house" first, then "chrome" and "email". */
  function SequenceFor(goal: string): Option<seq<Response>> {
    var g := Lower(goal);
    if Contains(g, "draw") && Contains(g, "house") then Some(DrawHouse)
    else if Contains(g, "chrome") && Contains(g, "email") then Some(ChromeEmail)
    else None
  }

  lemma SequenceForDispatch(goal: string)
    ensures SequenceFor(goal) == SequenceFor(Lower(goal))
    ensures Contains(Lower(goal), "draw") && Contains(Lower(goal), "house") ==>
              SequenceFor(goal) == Some(DrawHouse) && |DrawHouse| == 9
    ensures !(Contains(Lower(goal), "draw") && Contains(Lower(goal), "house")) &&
              Contains(Lower(goal), "chrome") && Contains(Lower(goal), "email") ==>
              SequenceFor(goal) == Some(ChromeEmail) && |ChromeEmail| == 2
    ensures SequenceFor(goal).None? <==>
              !(Contains(Lower(goal), "draw") && Contains(Lower(goal), "house")) &&
              !(Contains(Lower(goal), "chrome") && Contains(Lower(goal), "email"))
  {
    LowerIdempotent(goal);
  }

  class Llm {
    var history: seq<Message>
    var systemPrompt: Option<string>
    var currentStep: nat
    /** None both before any conversation and when no sequence matched. */
    var currentSequence: Option<seq<Response>>

    /** The cursor never runs past the selected sequence. */
    predicate Valid()
      reads this
    {
      currentSequence.Some? ==> currentStep <= |currentSequence.value|
    }

    constructor ()
      ensures Valid()
      ensures history == [] && systemPrompt == None && currentStep == 0 && currentSequence == None
    {
      history := [];
      systemPrompt := None;
      currentStep := 0;
      currentSequence := None;
    }

    method StartConversation(system: string, goal: string) returns (ok: bool)
      modifies this
      ensures Valid() && ok
      ensures history == [Message("system", system), Message("user", goal)]
      ensures systemPrompt == Some(system) && currentStep == 0 && currentSequence == SequenceFor(goal)
    {
      systemPrompt := Some(system);
      history := [Message("system", system), Message("user", goal)];
      currentStep := 0;
      currentSequence := SequenceFor(goal);
      return true;
    }

    /** The reply at the cursor, advancing it; None, with nothing changed, when
        no sequence is selected or it is exhausted. */
    method GenerateResponse() returns (response: Option<Response>)
      requires Valid()
      modifies this
      ensures Valid()
      ensures history == old(history) && systemPrompt == old(systemPrompt) && currentSequence == old(currentSequence)
      ensures old(currentSequence).Some? && old(currentStep) < |old(currentSequence).value| ==>
                response == Some(old(currentSequence).value[old(currentStep)]) && currentStep == old(currentStep) + 1
      ensures old(currentSequence).None? || old(currentStep) == |old(currentSequence).value| ==>
                response == None && currentStep == old(currentStep)
    {
      if currentSequence.None? || currentSequence.value == [] {
        return None;
      }
      if currentStep < |currentSequence.value| {
        response := Some(currentSequence.value[currentStep]);
        currentStep := currentStep + 1;
        return response;
      }
      return None;
    }

    /** The thought and action of the next reply, or (None, None). */
    method GetNextAction() returns (thought: Option<string>, action: Option<Json>)
      requires Valid()
      modifies this
      ensures Valid()
      ensures history == old(history) && currentSequence == old(currentSequence)
      ensures old(currentSequence).Some? && old(currentStep) < |old(currentSequence).value| ==>
                thought == Some(old(currentSequence).value[old(currentStep)].thought) &&
                action == Some(old(currentSequence).value[old(currentStep)].action) &&
                currentStep == old(currentStep) + 1
      ensures old(currentSequence).None? || old(currentStep) == |old(currentSequence).value| ==>
                thought == None && action == None && currentStep == old(currentStep)
    {
      var response := GenerateResponse();
      if response.Some? {
        return Some(response.value.thought), Some(response.value.action);
      }
      return None, None;
    }

    /** Feed an action result back as one user message. */
    method AddActionResult(result: Json)
      modifies this
      ensures history == old(history) + [Message("user", "Action_Response: " + Dumps(result))]
      ensures currentStep == old(currentStep) && currentSequence == old(currentSequence) && systemPrompt == old(systemPrompt)
    {
      history := history + [Message("user", "Action_Response: " + Dumps(result))];
    }
  }

  /** Driving the cursor: after a conversation starts, the k-th reply (k below
      the sequence length) is the k-th scripted one, and after the last all
      further replies are None. */
  method ReplayAll(llm: Llm, system: string, goal: string) returns (replies: seq<Response>, after: Option<Response>)
    modifies llm
    ensures SequenceFor(goal).Some? ==> replies == SequenceFor(goal).value
    ensures SequenceFor(goal).None? ==> replies == []
    ensures after == None
    ensures llm.Valid()
  {
    var _ := llm.StartConversation(system, goal);
    replies := [];
    var r := llm.GenerateResponse();
    while r.Some?
      invariant llm.Valid() && llm.currentSequence == SequenceFor(goal)
      invariant llm.currentSequence.Some? && r.Some? ==> replies + [r.value] == llm.currentSequence.value[..llm.currentStep]
      invariant llm.currentSequence.Some? && r.None? ==> replies == llm.currentSequence.value[..llm.currentStep] && llm.currentStep == |llm.currentSequence.value|
      invariant llm.currentSequence.None? ==> r.None? && replies == []
      decreases if llm.currentSequence.Some? then |llm.currentSequence.value| - llm.currentStep else 0, r.Some?
    {
      replies := replies + [r.value];
      r := llm.GenerateResponse();
    }
    if llm.currentSequence.Some? {
      assert llm.currentSequence.value[..llm.currentStep] == llm.currentSequence.value;
    }
    after := llm.GenerateResponse();
  }
}
