/**
 * Action-level verification: a dispatch from a verification type to one of the
 * `verify_*` checks, each a predicate over the observed desktop (process names,
 * window titles, the foreground title, files, screen pixels), and the
 * state-requirement check that walks its requirements in order and reports the
 * first failure. Returned messages are constructors named after the message
 * text they stand for; Python's formatting of the argument is not modelled.
 */
module ActionVerifier {
  import opened Wrappers
  import opened Text
  import opened Values

  datatype Window = Window(title: string, visible: bool)

  /** What the operating system reports when a check runs. */
  datatype Desktop = Desktop(
    processes: seq<string>,                 // process names, in enumeration order
    windows: seq<Window>,                   // top-level windows, in enumeration order
    foreground: string,                     // title of the foreground window
    desktopFocused: bool,                   // the foreground window is the desktop window
    files: set<string>,                     // paths that exist
    openFds: set<int>,                      // file descriptors that are open
    locate: Json -> Option<bool>,           // screen search for a UI element; None when it raises
    pixel: (Json, Json) -> Option<seq<int>>, // the colour at a position; None when it raises
    controlText: Option<string>)            // text of the focused control; None when reading it raises

  datatype Message =
    | UnknownMethod
    | ProgramIsRunning(program: Json) | ProgramNotRunning(program: Json)
    | WindowFound(title: Json) | WindowNotFound(title: Json)
    | WindowIsActive(title: Json) | WindowNotActive(title: Json)
    | UiElementFound | UiElementNotFound | UiElementError
    | FileExists | FileMissing
    | ColorMatch | ColorMismatch
    | NoStateRequirements | AllStateRequirementsMet
    | RequiredWindowNotActive(value: Json) | RequiredProgramNotRunning(value: Json) | DesktopNotFocused
    | WindowNotFocused(title: Json) | ExpectedTextNotFound(text: Json) | TextError

  /** The `(success, message)` pair every check returns. */
  datatype Verdict = Verdict(ok: bool, message: Message)

  /** A check either returns a verdict or lets an exception escape to its caller. */
  datatype Outcome = Returned(verdict: Verdict) | Raised

  // ---------------------------------------------------------------- processes

  /** Some process name equals the program name, ignoring case (not a substring test). */
  predicate IsRunning(program: string, processes: seq<string>) {
    exists i :: 0 <= i < |processes| && Lower(processes[i]) == Lower(program)
  }

  /** The process check. The program name is lower-cased only once a process is
      compared, so a non-string name raises only when there is some process. */
  function ProgramRunning(program: Json, d: Desktop): Outcome {
    if d.processes == [] then Returned(Verdict(false, ProgramNotRunning(program)))
    else if !program.JStr? then Raised
    else if IsRunning(program.s, d.processes) then Returned(Verdict(true, ProgramIsRunning(program)))
    else Returned(Verdict(false, ProgramNotRunning(program)))
  }

  method VerifyProgramRunning(program: Json, d: Desktop) returns (o: Outcome)
    ensures o == ProgramRunning(program, d)
    ensures program.JStr? ==> o.Returned? && (o.verdict.ok <==> IsRunning(program.s, d.processes))
  {
    var k := 0;
    while k < |d.processes|
      invariant 0 <= k <= |d.processes|
      invariant k > 0 ==> program.JStr?
      invariant forall j :: 0 <= j < k ==> Lower(d.processes[j]) != Lower(program.s)
    {
      if !program.JStr? {
        return Raised;
      }
      if Lower(d.processes[k]) == Lower(program.s) {
        return Returned(Verdict(true, ProgramIsRunning(program)));
      }
      k := k + 1;
    }
    return Returned(Verdict(false, ProgramNotRunning(program)));
  }

  /** A process named like the program only by substring does not count. */
  lemma SubstringIsNotRunning()
    ensures !IsRunning("paint", ["mspaint.exe"])
  {
    assert Lower("mspaint.exe") != Lower("paint") by {
      assert |Lower("mspaint.exe")| != |Lower("paint")|;
    }
  }

  // ---------------------------------------------------------------- windows

  predicate TitleMatches(title: string, wanted: string) {
    Contains(Lower(title), Lower(wanted))
  }

  predicate SomeVisible(ws: seq<Window>) {
    exists i :: 0 <= i < |ws| && ws[i].visible
  }

  predicate SomeVisibleMatch(ws: seq<Window>, wanted: string) {
    exists i :: 0 <= i < |ws| && ws[i].visible && TitleMatches(ws[i].title, wanted)
  }

  /** The window-existence check: the wanted title occurs, ignoring case, in the
      title of some visible window. The enumeration callback lower-cases the
      wanted title for each visible window, so a non-string title raises only
      when some window is visible. */
  function WindowExists(title: Json, d: Desktop): Outcome {
    if !title.JStr? then
      (if SomeVisible(d.windows) then Raised else Returned(Verdict(false, WindowNotFound(title))))
    else if SomeVisibleMatch(d.windows, title.s) then Returned(Verdict(true, WindowFound(title)))
    else Returned(Verdict(false, WindowNotFound(title)))
  }

  /** Enumerate the windows, collecting the visible ones whose title matches. */
  method VerifyWindowExists(title: Json, d: Desktop) returns (o: Outcome)
    ensures o == WindowExists(title, d)
  {
    var found: seq<nat> := [];
    var k := 0;
    while k < |d.windows|
      invariant 0 <= k <= |d.windows|
      invariant !title.JStr? ==> !SomeVisible(d.windows[..k])
      invariant forall n :: n in found ==> n < k && d.windows[n].visible && TitleMatches(d.windows[n].title, title.s)
      invariant title.JStr? && SomeVisibleMatch(d.windows[..k], title.s) ==> found != []
    {
      var w := d.windows[k];
      if w.visible {
        if !title.JStr? {
          assert d.windows[..k + 1][k] == w;
          return Raised;
        }
        if TitleMatches(w.title, title.s) {
          found := found + [k];
        }
      }
      assert d.windows[..k + 1] == d.windows[..k] + [w];
      k := k + 1;
    }
    assert d.windows[..k] == d.windows;
    if found != [] {
      assert found[0] in found;
      return Returned(Verdict(true, WindowFound(title)));
    }
    return Returned(Verdict(false, WindowNotFound(title)));
  }

  /** The active-window check: the wanted title occurs, ignoring case, in the
      foreground title. */
  function WindowActive(title: Json, d: Desktop): (o: Outcome)
    ensures title.JStr? ==> o.Returned? && (o.verdict.ok <==> TitleMatches(d.foreground, title.s))
    ensures !title.JStr? ==> o == Raised
  {
    if !title.JStr? then Raised
    else if TitleMatches(d.foreground, title.s) then Returned(Verdict(true, WindowIsActive(title)))
    else Returned(Verdict(false, WindowNotActive(title)))
  }

  // ---------------------------------------------------------------- UI elements, files

  /** The UI-element check; every exception becomes a failed verdict. */
  function UiElement(info: Json, d: Desktop): (v: Verdict)
    ensures v.ok <==> info.JObj? && "image_path" in Keys(info.fields) && d.locate(info) == Some(true)
  {
    if !info.JObj? || "image_path" !in Keys(info.fields) then Verdict(false, UiElementError)
    else match d.locate(info)
      case None => Verdict(false, UiElementError)
      case Some(found) => Verdict(found, if found then UiElementFound else UiElementNotFound)
  }

  /** `os.path.exists`: a string names a path; an int (or a bool, as 0 or 1)
      names a file descriptor, which exists while it is open; any other value
      makes `os.stat` raise. */
  function FileCheck(path: Json, d: Desktop): (o: Outcome)
    ensures path.JStr? ==> o.Returned? && (o.verdict.ok <==> path.s in d.files)
    ensures IsNumber(path) ==> o.Returned? && (o.verdict.ok <==> NumberOf(path) in d.openFds)
    ensures !path.JStr? && !IsNumber(path) ==> o == Raised
    ensures o.Returned? ==> o.verdict.message == (if o.verdict.ok then FileExists else FileMissing)
  {
    var found :=
      if path.JStr? then Some(path.s in d.files)
      else if IsNumber(path) then Some(NumberOf(path) in d.openFds)
      else None;
    match found
    case None => Raised
    case Some(e) => Returned(Verdict(e, if e then FileExists else FileMissing))
  }

  // ---------------------------------------------------------------- pixels

  function Abs(n: int): nat {
    if n < 0 then -n else n
  }

  /** Every channel pair taken by `zip` (so up to the shorter list) differs by
      strictly less than the tolerance. */
  function ColorMatches(actual: seq<int>, expected: seq<int>, tolerance: int): (r: bool)
    ensures r <==> forall i :: 0 <= i < |actual| && i < |expected| ==> Abs(actual[i] - expected[i]) < tolerance
  {
    if actual == [] || expected == [] then true
    else
      var rest := ColorMatches(actual[1..], expected[1..], tolerance);
      assert forall i :: 1 <= i < |actual| && i < |expected| ==>
        actual[i] == actual[1..][i - 1] && expected[i] == expected[1..][i - 1];
      Abs(actual[0] - expected[0]) < tolerance && rest
  }

  /** The tolerance is strict: a difference equal to it is a mismatch. */
  lemma ToleranceIsStrict(c: int, tolerance: int)
    ensures !ColorMatches([c], [c + tolerance], tolerance)
    ensures tolerance > 0 ==> ColorMatches([c], [c + tolerance - 1], tolerance)
  {
  }


  /** `all(abs(a - b) < tolerance for a, b in zip(actual, expected))`, evaluated
      left to right and stopping at the first mismatch; a non-number met before
      that raises. */
  function ZipCheck(actual: seq<int>, expected: seq<Json>, tolerance: Json): Option<bool>
  {
    if actual == [] || expected == [] then Some(true)
    else if !IsNumber(expected[0]) || !IsNumber(tolerance) then None
    else if Abs(actual[0] - NumberOf(expected[0])) < NumberOf(tolerance) then ZipCheck(actual[1..], expected[1..], tolerance)
    else Some(false)
  }

  function Ints(xs: seq<int>): seq<Json> {
    seq(|xs|, i requires 0 <= i < |xs| => JInt(xs[i]))
  }

  /** On integer colours the evaluated check is the channel comparison. */
  lemma {:induction false} ZipCheckOnInts(actual: seq<int>, expected: seq<int>, tolerance: int)
    ensures ZipCheck(actual, Ints(expected), JInt(tolerance)) == Some(ColorMatches(actual, expected, tolerance))
  {
    if actual != [] && expected != [] {
      assert Ints(expected)[1..] == Ints(expected[1..]);
      ZipCheckOnInts(actual[1..], expected[1..], tolerance);
    }
  }

  /** The pixel check on `{"position": [x, y], "color": [...], "tolerance": t}`,
      the tolerance defaulting to 5. Missing keys raise, so does a position that
      does not unpack into two values, and `zip` raises on a colour that cannot
      be iterated, whatever the pixel is. */
  function PixelColor(params: Json, d: Desktop): Outcome {
    if !params.JObj? then Raised
    else
      var fs := params.fields;
      match Lookup(fs, "position")
      case None => Raised
      case Some(pos) =>
        var xy := Iterate(pos);
        if xy.None? || |xy.value| != 2 then Raised
        else match Lookup(fs, "color")
          case None => Raised
          case Some(color) =>
            match d.pixel(xy.value[0], xy.value[1])
            case None => Raised
            case Some(actual) =>
              match Iterate(color)
              case None => Raised
              case Some(expected) =>
                match ZipCheck(actual, expected, Get(fs, "tolerance", JInt(5)))
                case None => Raised
                case Some(m) => Returned(Verdict(m, if m then ColorMatch else ColorMismatch))
  }

  /** With integer channels and no explicit tolerance, the pixel check is the
      channel comparison with tolerance 5. */
  lemma PixelColorDefaultTolerance(x: Json, y: Json, color: seq<int>, d: Desktop)
    requires d.pixel(x, y).Some?
    ensures PixelColor(JObj([("position", JList([x, y])), ("color", JList(Ints(color)))]), d)
      == Returned(Verdict(ColorMatches(d.pixel(x, y).value, color, 5),
                          if ColorMatches(d.pixel(x, y).value, color, 5) then ColorMatch else ColorMismatch))
  {
    ZipCheckOnInts(d.pixel(x, y).value, color, 5);
  }

  /** A colour that cannot be iterated makes `zip` raise, whatever the pixel. */
  lemma PixelColorScalarColorRaises(x: Json, y: Json, color: Json, d: Desktop)
    requires Iterate(color).None?
    ensures PixelColor(JObj([("position", JList([x, y])), ("color", color)]), d) == Raised
  {
  }

  // ---------------------------------------------------------------- text

  /** The text check: the foreground title must contain the window title (ignoring
      case); then the focused control's text must equal the expected text exactly.
      Exceptions are caught and fail the check. */
  function TextEntered(title: Json, expected: Json, d: Desktop): (v: Verdict)
    ensures v.ok <==> title.JStr? && TitleMatches(d.foreground, title.s)
                      && d.controlText.Some? && PyEq(JStr(d.controlText.value), expected)
    ensures title.JStr? && !TitleMatches(d.foreground, title.s) ==> v.message == WindowNotFocused(title)
  {
    if !title.JStr? then Verdict(false, TextError)
    else if !TitleMatches(d.foreground, title.s) then Verdict(false, WindowNotFocused(title))
    else match d.controlText
      case None => Verdict(false, TextError)
      case Some(text) => Verdict(PyEq(JStr(text), expected), ExpectedTextNotFound(expected))
  }

  // ---------------------------------------------------------------- state requirements

  /** What one requirement does to the walk: let it continue, or end it with an outcome. */
  datatype Step = Continue | Stop(outcome: Outcome)

  /** One requirement of the state check. `window_active` and `program_running`
      are always enforced; `desktop_focused` and `text_entered` only when their
      value is truthy; other keys are ignored. `text_entered` reads the context
      dict whatever its value, so a context that is not a dict raises. */
  function Requirement(key: string, value: Json, context: Json, d: Desktop): Step {
    if key == "window_active" then
      match WindowActive(value, d)
      case Raised => Stop(Raised)
      case Returned(v) => if v.ok then Continue else Stop(Returned(Verdict(false, RequiredWindowNotActive(value))))
    else if key == "program_running" then
      match ProgramRunning(value, d)
      case Raised => Stop(Raised)
      case Returned(v) => if v.ok then Continue else Stop(Returned(Verdict(false, RequiredProgramNotRunning(value))))
    else if key == "desktop_focused" then
      if !d.desktopFocused && Truthy(value) then Stop(Returned(Verdict(false, DesktopNotFocused))) else Continue
    else if key == "text_entered" then
      if !context.JObj? then Stop(Raised)
      else
        var v := TextEntered(Get(context.fields, "window", JNull), Get(context.fields, "expected_text", JNull), d);
        if !v.ok && Truthy(value) then Stop(Returned(Verdict(false, v.message))) else Continue
    else Continue
  }

  /** The walk over the requirements, in dict order. */
  function Requirements(reqs: Dict, context: Json, d: Desktop): Outcome {
    if reqs == [] then Returned(Verdict(true, AllStateRequirementsMet))
    else match Requirement(reqs[0].0, reqs[0].1, context, d)
      case Stop(o) => o
      case Continue => Requirements(reqs[1..], context, d)
  }

  /** The whole state check: no requirements pass at once; a truthy value that is
      not a dict raises. */
  function StateCheck(required: Json, context: Json, d: Desktop): Outcome {
    if !Truthy(required) then Returned(Verdict(true, NoStateRequirements))
    else if !required.JObj? then Raised
    else Requirements(required.fields, context, d)
  }

  method VerifyState(required: Json, context: Json, d: Desktop) returns (o: Outcome)
    ensures o == StateCheck(required, context, d)
  {
    if !Truthy(required) {
      return Returned(Verdict(true, NoStateRequirements));
    }
    if !required.JObj? {
      return Raised;
    }
    var reqs := required.fields;
    var k := 0;
    while k < |reqs|
      invariant 0 <= k <= |reqs|
      invariant Requirements(reqs, context, d) == Requirements(reqs[k..], context, d)
    {
      var (key, value) := reqs[k];
      if key == "window_active" {
        var r := WindowActive(value, d);
        if r.Raised? { return Raised; }
        if !r.verdict.ok { return Returned(Verdict(false, RequiredWindowNotActive(value))); }
      } else if key == "program_running" {
        var r := VerifyProgramRunning(value, d);
        if r.Raised? { return Raised; }
        if !r.verdict.ok { return Returned(Verdict(false, RequiredProgramNotRunning(value))); }
      } else if key == "desktop_focused" {
        if !d.desktopFocused && Truthy(value) { return Returned(Verdict(false, DesktopNotFocused)); }
      } else if key == "text_entered" {
        if !context.JObj? { return Raised; }
        var v := TextEntered(Get(context.fields, "window", JNull), Get(context.fields, "expected_text", JNull), d);
        if !v.ok && Truthy(value) { return Returned(Verdict(false, v.message)); }
      }
      assert Requirement(key, value, context, d) == Continue;
      assert reqs[k..][1..] == reqs[k + 1..];
      k := k + 1;
    }
    return Returned(Verdict(true, AllStateRequirementsMet));
  }

  /** The walk reports the first requirement that stops it, and succeeds with
      "All state requirements met" when none does. */
  lemma {:induction false} RequirementsFirstStop(reqs: Dict, context: Json, d: Desktop)
    ensures (forall i :: 0 <= i < |reqs| ==> Requirement(reqs[i].0, reqs[i].1, context, d) == Continue)
            ==> Requirements(reqs, context, d) == Returned(Verdict(true, AllStateRequirementsMet))
    ensures forall i :: (0 <= i < |reqs| && Requirement(reqs[i].0, reqs[i].1, context, d).Stop? &&
                         (forall j :: 0 <= j < i ==> Requirement(reqs[j].0, reqs[j].1, context, d) == Continue))
                        ==> Requirements(reqs, context, d) == Requirement(reqs[i].0, reqs[i].1, context, d).outcome
  {
    if reqs != [] {
      RequirementsFirstStop(reqs[1..], context, d);
      forall i | 0 <= i < |reqs| && Requirement(reqs[i].0, reqs[i].1, context, d).Stop? &&
                (forall j :: 0 <= j < i ==> Requirement(reqs[j].0, reqs[j].1, context, d) == Continue)
        ensures Requirements(reqs, context, d) == Requirement(reqs[i].0, reqs[i].1, context, d).outcome
      {
        if i > 0 {
          assert reqs[1..][i - 1] == reqs[i];
          forall j | 0 <= j < i - 1 ensures Requirement(reqs[1..][j].0, reqs[1..][j].1, context, d) == Continue {
            assert reqs[1..][j] == reqs[j + 1];
          }
        }
      }
      if forall i :: 0 <= i < |reqs| ==> Requirement(reqs[i].0, reqs[i].1, context, d) == Continue {
        forall i | 0 <= i < |reqs| - 1 ensures Requirement(reqs[1..][i].0, reqs[1..][i].1, context, d) == Continue {
          assert reqs[1..][i] == reqs[i + 1];
        }
      }
    }
  }

  /** A failure is only ever reported for an enforced requirement: unknown keys,
      and falsy `desktop_focused` or `text_entered` values (given a dict context),
      never stop the walk. */
  lemma RequirementsEnforced(key: string, value: Json, context: Json, d: Desktop)
    ensures key !in {"window_active", "program_running", "desktop_focused", "text_entered"}
            ==> Requirement(key, value, context, d) == Continue
    ensures key == "desktop_focused" && !Truthy(value) ==> Requirement(key, value, context, d) == Continue
    ensures key == "text_entered" && !Truthy(value) && context.JObj? ==> Requirement(key, value, context, d) == Continue
    ensures key == "window_active" && value.JStr? ==>
              (Requirement(key, value, context, d) == Continue <==> TitleMatches(d.foreground, value.s))
  {
  }

  // ---------------------------------------------------------------- dispatch

  /** The check names `verify_<type>` resolves to. */
  const Methods: set<string> := {"action", "program_running", "window_exists", "window_active",
                                 "ui_element_exists", "file_exists", "pixel_color", "state", "text_entered"}

  function Depth(params: Json, context: Json): nat {
    (if params.JNull? then 0 else 1) + (if context.JNull? then 0 else 2)
  }

  /** Dispatch on the verification type. Each check receives `(params, context)`;
      `verify_text_entered` therefore takes `params` as the window title and
      `context` as the expected text, and for the type "action" the dispatcher
      calls itself with `params` as the type and `context` as the parameters. */
  method VerifyAction(actionType: string, params: Json, context: Json, d: Desktop) returns (o: Outcome)
    ensures actionType !in Methods ==> o == Returned(Verdict(false, UnknownMethod))
    ensures actionType == "program_running" ==> o == ProgramRunning(params, d)
    ensures actionType == "window_exists" ==> o == WindowExists(params, d)
    ensures actionType == "window_active" ==> o == WindowActive(params, d)
    ensures actionType == "ui_element_exists" ==> o == Returned(UiElement(params, d))
    ensures actionType == "file_exists" ==> o == FileCheck(params, d)
    ensures actionType == "pixel_color" ==> o == PixelColor(params, d)
    ensures actionType == "state" ==> o == StateCheck(params, context, d)
    ensures actionType == "text_entered" ==> o == Returned(TextEntered(params, context, d))
    ensures actionType == "action" && (!IsScalar(params) || params.JNull? || Show(params) !in Methods) ==>
              o == Returned(Verdict(false, UnknownMethod))
    decreases Depth(params, context)
  {
    if actionType == "program_running" {
      o := VerifyProgramRunning(params, d);
    } else if actionType == "window_exists" {
      o := VerifyWindowExists(params, d);
    } else if actionType == "window_active" {
      o := WindowActive(params, d);
    } else if actionType == "ui_element_exists" {
      o := Returned(UiElement(params, d));
    } else if actionType == "file_exists" {
      o := FileCheck(params, d);
    } else if actionType == "pixel_color" {
      o := PixelColor(params, d);
    } else if actionType == "state" {
      o := VerifyState(params, context, d);
    } else if actionType == "text_entered" {
      o := Returned(TextEntered(params, context, d));
    } else if actionType == "action" && IsScalar(params) && !params.JNull? {
      o := VerifyAction(Show(params), context, JNull, d);
    } else {
      o := Returned(Verdict(false, UnknownMethod));
    }
  }

  /** One entry of the verification log. */
  datatype LogEntry = LogEntry(timestamp: int, actionType: string, success: bool, message: Message)

  /** The verifier's log of verification results (a JSON file in the source). */
  class Verifier {
    var log: seq<LogEntry>

    constructor ()
      ensures log == []
    {
      log := [];
    }

    /** Append one entry; earlier entries are unchanged. */
    method LogVerification(now: int, actionType: string, result: bool, message: Message)
      modifies this
      ensures log == old(log) + [LogEntry(now, actionType, result, message)]
    {
      log := log + [LogEntry(now, actionType, result, message)];
    }
  }
}
