/**
 * Execution of one agent action: a table from action names to handlers, each
 * reading its parameters with defaults and issuing input commands to the
 * desktop. The desktop is a backend that may refuse a command with an error
 * message; execution never raises, every failure becomes a result dict.
 */
module ActionExecutor {
  import opened Wrappers
  import opened Values
  import opened CoordinateSystem

  /** The input commands the handlers issue. `interval` is None when the
      default of 0.1 seconds applies. */
  datatype Command =
    | MoveTo(x: Json, y: Json)
    | Click(button: Json)
    | TypeWrite(text: Json, interval: Option<Json>)
    | Press(key: Json)
    | DragTo(x: Json, y: Json)
    | Sleep(seconds: Json)
    | SetForeground(handle: Json)

  /** The desktop: the foreground window for coordinate translation, the error
      (if any) each command raises, and the window lookup by title (None when
      no window has that title). */
  datatype Backend = Backend(fg: Foreground, fails: Command -> Option<string>, findWindow: Json -> Option<Json>)

  /** A result dict together with the commands issued, in order. */
  datatype Execution = Execution(result: Dict, calls: seq<Command>)

  function Success(): Dict {
    [("success", JBool(true))]
  }

  function Failure(error: string): Dict {
    [("success", JBool(false)), ("error", JStr(error))]
  }

  /** Issue commands in order, stopping at the first that raises. */
  function Perform(cmds: seq<Command>, b: Backend): (e: Execution)
    ensures |e.calls| <= |cmds| && e.calls == cmds[..|e.calls|]
    ensures e.result == Success() <==> forall i :: 0 <= i < |cmds| ==> b.fails(cmds[i]).None?
    ensures e.result == Success() ==> e.calls == cmds
    ensures e.result != Success() ==>
              e.calls != [] && b.fails(e.calls[|e.calls| - 1]).Some? &&
              e.result == Failure(b.fails(e.calls[|e.calls| - 1]).value) &&
              (forall i :: 0 <= i < |e.calls| - 1 ==> b.fails(e.calls[i]).None?)
  {
    if cmds == [] then Execution(Success(), [])
    else match b.fails(cmds[0])
      case Some(msg) => Execution(Failure(msg), [cmds[0]])
      case None =>
        var rest := Perform(cmds[1..], b);
        assert forall i :: 1 <= i < |cmds| ==> cmds[i] == cmds[1..][i - 1];
        Execution(rest.result, [cmds[0]] + rest.calls)
  }

  const Handlers: set<string> := {"click", "type", "press", "move", "drag", "wait", "focus_window", "stop"}

  /** The commands a handler issues for dict parameters, before any failure. */
  function Planned(name: string, p: Dict, b: Backend): seq<Command> {
    if name == "click" then
      var pt := ToScreenCoords(Get(p, "x", JInt(0)), Get(p, "y", JInt(0)), b.fg);
      [MoveTo(pt.0, pt.1), Click(Get(p, "button", JStr("left")))]
    else if name == "type" then [TypeWrite(Get(p, "text", JStr("")), Lookup(p, "interval"))]
    else if name == "press" then [Press(Get(p, "key", JStr("")))]
    else if name == "move" then
      var pt := ToScreenCoords(Get(p, "x", JInt(0)), Get(p, "y", JInt(0)), b.fg);
      [MoveTo(pt.0, pt.1)]
    else if name == "drag" then
      var start := ToScreenCoords(Get(p, "start_x", JInt(0)), Get(p, "start_y", JInt(0)), b.fg);
      var end := ToScreenCoords(Get(p, "end_x", JInt(0)), Get(p, "end_y", JInt(0)), b.fg);
      [MoveTo(start.0, start.1), DragTo(end.0, end.1)]
    else if name == "wait" then [Sleep(Get(p, "seconds", JInt(1)))]
    else []
  }

  /** One handler applied to the parameters. Reading parameters that are not
      a dict raises AttributeError inside the handler, which reports it. */
  function Handle(name: string, params: Json, b: Backend): Execution
    requires name in Handlers
  {
    if name == "stop" then Execution([("success", JBool(true)), ("message", JStr("Stopping"))], [])
    else if !params.JObj? then Execution(Failure("'" + TypeName(params) + "' object has no attribute 'get'"), [])
    else if name == "focus_window" then
      var title := Get(params.fields, "title", JStr(""));
      match b.findWindow(title)
      case None => Execution(Failure("Window not found: " + Str(title)), [])
      case Some(handle) => Perform([SetForeground(handle)], b)
    else Perform(Planned(name, params.fields, b), b)
  }

  /** `execute_action`: the handler is chosen by "function_name" (default "")
      and receives "parameters" (default {}). */
  function ExecuteAction(action: Json, b: Backend): (e: Execution)
    ensures !action.JObj? ==> e == Execution(Failure("'" + TypeName(action) + "' object has no attribute 'get'"), [])
    ensures action.JObj? && IsScalar(Get(action.fields, "function_name", JStr(""))) &&
            !(Get(action.fields, "function_name", JStr("")).JStr? && Get(action.fields, "function_name", JStr("")).s in Handlers) ==>
              e == Execution(Failure("Unknown action: " + Show(Get(action.fields, "function_name", JStr("")))), [])
    ensures action.JObj? && Get(action.fields, "function_name", JStr("")) == JStr("stop") ==>
              e == Execution([("success", JBool(true)), ("message", JStr("Stopping"))], [])
  {
    if !action.JObj? then Execution(Failure("'" + TypeName(action) + "' object has no attribute 'get'"), [])
    else
      var name := Get(action.fields, "function_name", JStr(""));
      var params := Get(action.fields, "parameters", JObj([]));
      if !IsScalar(name) then Execution(Failure("unhashable type: '" + TypeName(name) + "'"), [])
      else if name.JStr? && name.s in Handlers then Handle(name.s, params, b)
      else Execution(Failure("Unknown action: " + Show(name)), [])
  }

  /** Every result says whether it succeeded, and only a successful handler run
      issues all of its planned commands. */
  lemma ExecuteActionReports(action: Json, b: Backend)
    ensures Lookup(ExecuteAction(action, b).result, "success").Some?
    ensures action.JObj? && Get(action.fields, "function_name", JStr("")).JStr? &&
            Get(action.fields, "function_name", JStr("")).s in Handlers - {"stop", "focus_window"} &&
            Get(action.fields, "parameters", JObj([])).JObj? ==>
              var p := Get(action.fields, "parameters", JObj([])).fields;
              var planned := Planned(Get(action.fields, "function_name", JStr("")).s, p, b);
              var e := ExecuteAction(action, b);
              e.calls == planned[..|e.calls|] &&
              (Lookup(e.result, "success") == Some(JBool(true)) <==> forall i :: 0 <= i < |planned| ==> b.fails(planned[i]).None?)
  {
    var e := ExecuteAction(action, b);
    assert ("success", JBool(true)) in Success();
    assert ("success", JBool(true)) in [("success", JBool(true)), ("message", JStr("Stopping"))];
    forall msg: string ensures Lookup(Failure(msg), "success") == Some(JBool(false)) {
      assert ("success", JBool(false)) in Failure(msg);
    }
  }

  /** Missing parameters take their defaults: a click goes to the translated
      origin with the left button, a wait sleeps one second, text and keys
      default to the empty string. */
  lemma HandlerDefaults(b: Backend)
    ensures Planned("click", [], b) == [MoveTo(ToScreenCoords(JInt(0), JInt(0), b.fg).0, ToScreenCoords(JInt(0), JInt(0), b.fg).1), Click(JStr("left"))]
    ensures Planned("wait", [], b) == [Sleep(JInt(1))]
    ensures Planned("type", [], b) == [TypeWrite(JStr(""), None)]
    ensures Planned("press", [], b) == [Press(JStr(""))]
    ensures Planned("drag", [], b) == [MoveTo(ToScreenCoords(JInt(0), JInt(0), b.fg).0, ToScreenCoords(JInt(0), JInt(0), b.fg).1),
                                      DragTo(ToScreenCoords(JInt(0), JInt(0), b.fg).0, ToScreenCoords(JInt(0), JInt(0), b.fg).1)]
  {
  }

  /** A drag translates its start and end points independently. */
  lemma DragTranslatesBothEnds(p: Dict, b: Backend)
    ensures Planned("drag", p, b) ==
      [MoveTo(ToScreenCoords(Get(p, "start_x", JInt(0)), Get(p, "start_y", JInt(0)), b.fg).0,
              ToScreenCoords(Get(p, "start_x", JInt(0)), Get(p, "start_y", JInt(0)), b.fg).1),
       DragTo(ToScreenCoords(Get(p, "end_x", JInt(0)), Get(p, "end_y", JInt(0)), b.fg).0,
              ToScreenCoords(Get(p, "end_x", JInt(0)), Get(p, "end_y", JInt(0)), b.fg).1)]
  {
  }

  /** A window lookup that finds nothing fails with "Window not found". */
  lemma FocusWindowNotFound(title: string, b: Backend)
    requires b.findWindow(JStr(title)).None?
    ensures ExecuteAction(JObj([("function_name", JStr("focus_window")), ("parameters", JObj([("title", JStr(title))]))]), b)
            == Execution(Failure("Window not found: " + title), [])
  {
    var p := [("title", JStr(title))];
    var a := [("function_name", JStr("focus_window")), ("parameters", JObj(p))];
    assert a[0] in a && a[1] in a;
    assert Get(a, "function_name", JStr("")) == JStr("focus_window");
    assert Get(a, "parameters", JObj([])) == JObj(p);
    assert "focus_window" in Handlers;
    assert ("title", JStr(title)) in p;
    assert Get(p, "title", JStr("")) == JStr(title);
    assert Handle("focus_window", JObj(p), b) == Execution(Failure("Window not found: " + title), []);
  }
}
