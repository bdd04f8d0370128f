/**
 * One step of the planning agent: ask for a plan, launch the first required
 * program that the screen description does not show, or else run the planned
 * action.
 */
module Agent {
  import opened Wrappers
  import opened Text
  import opened Values

  /** The screen description names a window or title starting with the
      program's name, ignoring ASCII case. */
  function IsProgramOpen(program: string, visionOutput: string): (r: bool)
    ensures r <==> (exists i :: OccursAt(Lower(visionOutput), "window: " + Lower(program), i)) ||
                   (exists i :: OccursAt(Lower(visionOutput), "title: " + Lower(program), i))
  {
    ContainsIff(Lower(visionOutput), "window: " + Lower(program));
    ContainsIff(Lower(visionOutput), "title: " + Lower(program));
    Contains(Lower(visionOutput), "window: " + Lower(program)) || Contains(Lower(visionOutput), "title: " + Lower(program))
  }

  lemma LowerConcatTag(tag: string, p: string)
    requires Lower(tag) == tag
    ensures Lower(tag + p) == tag + Lower(p)
  {
  }

  /** The check does not depend on the case of either string. */
  lemma IsProgramOpenIgnoresCase(program: string, visionOutput: string)
    ensures IsProgramOpen(program, visionOutput) == IsProgramOpen(Lower(program), Lower(visionOutput))
  {
    LowerIdempotent(program);
    LowerIdempotent(visionOutput);
  }

  /** A window whose title merely contains the name later on does not count. */
  lemma NameInsideTitleIsNotOpen()
    ensures !IsProgramOpen("paint", "window: mspaint")
  {
    var v := Lower("window: mspaint");
    assert v == "window: mspaint";
    assert Lower("paint") == "paint";
    assert "window: " + Lower("paint") == "window: paint" && "title: " + Lower("paint") == "title: paint";
    forall i: int
      ensures !OccursAt(v, "window: paint", i)
    {
      if 0 <= i && i + 13 <= |v| {
        if i == 0 {
          assert v[i..i + 13][8] == 'm';
        } else {
          assert v[i..i + 13][0] != 'w';
        }
      }
    }
    forall i: int
      ensures !OccursAt(v, "title: paint", i)
    {
      if 0 <= i && i + 12 <= |v| {
        assert v[i..i + 12][0] != 't';
      }
    }
  }

  /** Scanning the required programs: all open, the first one to launch, or a
      name that is not a string (its `lower()` raises). */
  datatype Scan = AllOpen | Launch(program: Json) | BadProgram

  function ScanPrograms(programs: seq<Json>, visionOutput: string): Scan
    decreases |programs|
  {
    if programs == [] then AllOpen
    else if !programs[0].JStr? then BadProgram
    else if !IsProgramOpen(programs[0].s, visionOutput) then Launch(programs[0])
    else ScanPrograms(programs[1..], visionOutput)
  }

  /** `ScanPrograms` picks the first program that is not a string or not open. */
  lemma {:induction false} ScanFirst(programs: seq<Json>, visionOutput: string)
    ensures ScanPrograms(programs, visionOutput).AllOpen? <==>
              forall i :: 0 <= i < |programs| ==> programs[i].JStr? && IsProgramOpen(programs[i].s, visionOutput)
    ensures ScanPrograms(programs, visionOutput).Launch? ==>
              exists k :: 0 <= k < |programs| && programs[k] == ScanPrograms(programs, visionOutput).program &&
                          programs[k].JStr? && !IsProgramOpen(programs[k].s, visionOutput) &&
                          forall i :: 0 <= i < k ==> programs[i].JStr? && IsProgramOpen(programs[i].s, visionOutput)
    decreases |programs|
  {
    if programs != [] && programs[0].JStr? && IsProgramOpen(programs[0].s, visionOutput) {
      ScanFirst(programs[1..], visionOutput);
      assert forall i :: 1 <= i < |programs| ==> programs[1..][i - 1] == programs[i];
      if ScanPrograms(programs, visionOutput).Launch? {
        var k :| 0 <= k < |programs[1..]| && programs[1..][k] == ScanPrograms(programs, visionOutput).program &&
                 programs[1..][k].JStr? && !IsProgramOpen(programs[1..][k].s, visionOutput) &&
                 forall i :: 0 <= i < k ==> programs[1..][i].JStr? && IsProgramOpen(programs[1..][i].s, visionOutput);
        assert programs[k + 1] == programs[1..][k];
        assert forall i :: 1 <= i < k + 1 ==> programs[i] == programs[1..][i - 1];
      }
    } else if programs != [] && programs[0].JStr? {
      assert !IsProgramOpen(programs[0].s, visionOutput);
    }
  }

  /** An executor call: the action name and its parameters. */
  datatype Call = Call(name: Json, params: Json)

  const LaunchProgram: Json := JStr("launch_program")

  function LaunchCall(program: Json): Call {
    Call(LaunchProgram, JObj([("name", program)]))
  }

  /** `execute_next_action` given the plan (None when planning raises), the
      screen description and the executor (None when it raises): the
      returned value and the executor calls made. Every exception inside the
      step is caught and returns False. */
  function NextAction(plan: Option<Json>, visionOutput: string, exec: Call -> Option<Dict>): (Json, seq<Call>) {
    if plan.None? || !Truthy(plan.value) || !plan.value.JObj? then (JBool(false), [])
    else
      var required := Iterate(Get(plan.value.fields, "required_programs", JList([])));
      if required.None? then (JBool(false), [])
      else
        var scan := ScanPrograms(required.value, visionOutput);
        if scan.BadProgram? then (JBool(false), [])
        else if scan.Launch? then
          (if exec(LaunchCall(scan.program)).None? then JBool(false) else JBool(true), [LaunchCall(scan.program)])
        else
          var action := Get(plan.value.fields, "next_action", JObj([]));
          if !action.JObj? then (JBool(false), [])
          else
            var name := Get(action.fields, "action", JNull);
            var params := Get(action.fields, "params", JObj([]));
            if !Truthy(name) then (JBool(false), [])
            else
              var result := exec(Call(name, params));
              (if result.None? then JBool(false) else Get(result.value, "success", JBool(false)), [Call(name, params)])
  }

  /** A falsy plan returns False and executes nothing. */
  lemma FalsyPlanDoesNothing(plan: Json, visionOutput: string, exec: Call -> Option<Dict>)
    requires !Truthy(plan)
    ensures NextAction(Some(plan), visionOutput, exec) == (JBool(false), [])
  {
  }

  /** The first required program that is not open is launched alone, and the
      step reports True without running the planned action (False only when
      the launch itself raises). */
  lemma LaunchesFirstMissing(fields: Dict, programs: seq<Json>, k: nat, visionOutput: string, exec: Call -> Option<Dict>)
    requires fields != [] && Get(fields, "required_programs", JList([])) == JList(programs)
    requires k < |programs| && programs[k].JStr? && !IsProgramOpen(programs[k].s, visionOutput)
    requires forall i :: 0 <= i < k ==> programs[i].JStr? && IsProgramOpen(programs[i].s, visionOutput)
    ensures NextAction(Some(JObj(fields)), visionOutput, exec).1 == [LaunchCall(programs[k])]
    ensures NextAction(Some(JObj(fields)), visionOutput, exec).0 == JBool(exec(LaunchCall(programs[k])).Some?)
  {
    LaunchAt(programs, k, visionOutput);
  }

  lemma {:induction false} LaunchAt(programs: seq<Json>, k: nat, visionOutput: string)
    requires k < |programs| && programs[k].JStr? && !IsProgramOpen(programs[k].s, visionOutput)
    requires forall i :: 0 <= i < k ==> programs[i].JStr? && IsProgramOpen(programs[i].s, visionOutput)
    ensures ScanPrograms(programs, visionOutput) == Launch(programs[k])
    decreases k
  {
    if k > 0 {
      assert forall i :: 0 <= i < k - 1 ==> programs[1..][i] == programs[i + 1];
      LaunchAt(programs[1..], k - 1, visionOutput);
    }
  }

  /** With every required program open, a missing or falsy action name gives
      False and no call; otherwise exactly the planned action runs and its
      "success" is returned, False when absent. */
  lemma RunsPlannedAction(fields: Dict, visionOutput: string, exec: Call -> Option<Dict>)
    requires fields != [] && Iterate(Get(fields, "required_programs", JList([]))).Some?
    requires ScanPrograms(Iterate(Get(fields, "required_programs", JList([]))).value, visionOutput).AllOpen?
    requires Get(fields, "next_action", JObj([])).JObj?
    ensures var action := Get(fields, "next_action", JObj([])).fields;
            var name := Get(action, "action", JNull);
            var call := Call(name, Get(action, "params", JObj([])));
            (!Truthy(name) ==> NextAction(Some(JObj(fields)), visionOutput, exec) == (JBool(false), [])) &&
            (Truthy(name) ==> NextAction(Some(JObj(fields)), visionOutput, exec).1 == [call]) &&
            (Truthy(name) && exec(call).Some? ==>
               NextAction(Some(JObj(fields)), visionOutput, exec).0 == Get(exec(call).value, "success", JBool(false)))
  {
  }

  /** `execute_next_action`: the loop over the required programs, with its
      early returns, proved against `NextAction`. */
  method ExecuteNextAction(plan: Option<Json>, visionOutput: string, exec: Call -> Option<Dict>)
    returns (ok: Json, calls: seq<Call>)
    ensures (ok, calls) == NextAction(plan, visionOutput, exec)
  {
    if plan.None? || !Truthy(plan.value) || !plan.value.JObj? {
      return JBool(false), [];
    }
    var required := Iterate(Get(plan.value.fields, "required_programs", JList([])));
    if required.None? {
      return JBool(false), [];
    }
    var programs := required.value;
    var i := 0;
    while i < |programs|
      invariant 0 <= i <= |programs|
      invariant ScanPrograms(programs, visionOutput) == ScanPrograms(programs[i..], visionOutput)
    {
      assert programs[i..][0] == programs[i] && programs[i..][1..] == programs[i + 1..];
      var program := programs[i];
      if !program.JStr? {
        return JBool(false), [];
      }
      if !IsProgramOpen(program.s, visionOutput) {
        var launched := exec(LaunchCall(program));
        return (if launched.None? then JBool(false) else JBool(true)), [LaunchCall(program)];
      }
      i := i + 1;
    }
    assert programs[i..] == [];
    var action := Get(plan.value.fields, "next_action", JObj([]));
    if !action.JObj? {
      return JBool(false), [];
    }
    var name := Get(action.fields, "action", JNull);
    var params := Get(action.fields, "params", JObj([]));
    if !Truthy(name) {
      return JBool(false), [];
    }
    var result := exec(Call(name, params));
    if result.None? {
      return JBool(false), [Call(name, params)];
    }
    return Get(result.value, "success", JBool(false)), [Call(name, params)];
  }
}
