/**
 * Validation of LLM responses against the two declared schemas. Fields are
 * checked in declared order and the first violation is reported. `in` and
 * indexing follow Python on whatever value the response holds: a value that
 * does not support them raises, and the exception's text becomes the message
 * (the model keeps only that it was an error).
 */
module SchemaValidator {
  import opened Wrappers
  import opened Text
  import opened Values

  /** A schema: the top-level fields, the field holding the entries, the
      fields every entry needs, and the two messages of its entry check. */
  datatype Schema = Schema(requiredFields: seq<string>, entries: string, entryFields: seq<string>,
                           notAList: string, entryMissing: string)

  const Schemas: map<string, Schema> := map[
    "goal_breakdown" := Schema(["steps"], "steps", ["name", "description", "verification"],
                               "Steps must be a list", "Step missing required field: "),
    "state_check" := Schema(["required_states"], "required_states", ["type", "value"],
                            "Required states must be a list", "State missing required field: ")]

  datatype Validation =
    | Valid                  // (True, None)
    | Invalid(message: string)
    | Errored                // (False, str(e)) for an exception other than a JSON decode error

  /** Result of testing a list of fields against one container. */
  datatype Probe = AllPresent | Missing(field: string) | NotContainer

  /** The first field not `in` the container, in order. */
  function FirstMissing(fields: seq<string>, container: Json): (r: Probe)
    ensures r == AllPresent <==> forall i :: 0 <= i < |fields| ==> In(fields[i], container) == Some(true)
    ensures r.Missing? ==> exists i :: 0 <= i < |fields| && fields[i] == r.field && In(fields[i], container) == Some(false) &&
                                     forall j :: 0 <= j < i ==> In(fields[j], container) == Some(true)
    ensures r == NotContainer ==> fields != [] && In(fields[0], container).None?
  {
    if fields == [] then AllPresent
    else match In(fields[0], container)
      case None => NotContainer
      case Some(false) => Missing(fields[0])
      case Some(true) =>
        var r := FirstMissing(fields[1..], container);
        assert forall i :: 1 <= i < |fields| ==> fields[i] == fields[1..][i - 1];
        if r.Missing? then MissingShift(fields, container, r.field); r else r
  }

  lemma MissingShift(fields: seq<string>, container: Json, f: string)
    requires fields != [] && In(fields[0], container) == Some(true)
    requires exists i :: 0 <= i < |fields[1..]| && fields[1..][i] == f && In(fields[1..][i], container) == Some(false) &&
                         forall j :: 0 <= j < i ==> In(fields[1..][j], container) == Some(true)
    ensures exists i :: 0 <= i < |fields| && fields[i] == f && In(fields[i], container) == Some(false) &&
                        forall j :: 0 <= j < i ==> In(fields[j], container) == Some(true)
  {
    var i :| 0 <= i < |fields[1..]| && fields[1..][i] == f && In(fields[1..][i], container) == Some(false) &&
             forall j :: 0 <= j < i ==> In(fields[1..][j], container) == Some(true);
    assert fields[i + 1] == f;
    forall j | 1 <= j < i + 1 ensures In(fields[j], container) == Some(true) {
      assert fields[j] == fields[1..][j - 1];
    }
  }

  /** The first entry lacking a field decides the result. */
  function FirstBadEntry(entries: seq<Json>, fields: seq<string>): (r: Probe)
    ensures r == AllPresent <==> forall i :: 0 <= i < |entries| ==> FirstMissing(fields, entries[i]) == AllPresent
    ensures r != AllPresent ==> exists i :: 0 <= i < |entries| && FirstMissing(fields, entries[i]) == r &&
                                     forall j :: 0 <= j < i ==> FirstMissing(fields, entries[j]) == AllPresent
  {
    if entries == [] then AllPresent
    else
      var first := FirstMissing(fields, entries[0]);
      if first != AllPresent then first
      else
        var r := FirstBadEntry(entries[1..], fields);
        assert forall i :: 1 <= i < |entries| ==> entries[i] == entries[1..][i - 1];
        if r != AllPresent then BadEntryShift(entries, fields, r); r else r
  }

  lemma BadEntryShift(entries: seq<Json>, fields: seq<string>, r: Probe)
    requires entries != [] && FirstMissing(fields, entries[0]) == AllPresent
    requires exists i :: 0 <= i < |entries[1..]| && FirstMissing(fields, entries[1..][i]) == r &&
                         forall j :: 0 <= j < i ==> FirstMissing(fields, entries[1..][j]) == AllPresent
    ensures exists i :: 0 <= i < |entries| && FirstMissing(fields, entries[i]) == r &&
                        forall j :: 0 <= j < i ==> FirstMissing(fields, entries[j]) == AllPresent
  {
    var i :| 0 <= i < |entries[1..]| && FirstMissing(fields, entries[1..][i]) == r &&
             forall j :: 0 <= j < i ==> FirstMissing(fields, entries[1..][j]) == AllPresent;
    assert entries[i + 1] == entries[1..][i];
    forall j | 1 <= j < i + 1 ensures FirstMissing(fields, entries[j]) == AllPresent {
      assert entries[j] == entries[1..][j - 1];
    }
  }

  /** Check parsed data against a schema. */
  function CheckSchema(schema: Schema, data: Json): Validation {
    match FirstMissing(schema.requiredFields, data)
    case NotContainer => Errored
    case Missing(f) => Invalid("Missing required field: " + f)
    case AllPresent =>
      if !data.JObj? then Errored                            // indexing a list or string by a name
      else match Lookup(data.fields, schema.entries)
        case None => Errored
        case Some(collection) =>
          if !collection.JList? then Invalid(schema.notAList)
          else match FirstBadEntry(collection.items, schema.entryFields)
            case NotContainer => Errored
            case Missing(f) => Invalid(schema.entryMissing + f)
            case AllPresent => Valid
  }

  /** `validate_response`. A string is parsed first with `parse`, which gives
      None on malformed JSON; an unknown type is rejected before any parsing. */
  function ValidateResponse(responseType: string, data: Json, parse: string -> Option<Json>): (r: Validation)
    ensures responseType !in Schemas ==> r == Invalid("Unknown schema type: " + responseType)
    ensures responseType in Schemas && data.JStr? && parse(data.s).None? ==> r == Invalid("Invalid JSON")
    ensures responseType in Schemas && data.JStr? && parse(data.s).Some? ==> r == CheckSchema(Schemas[responseType], parse(data.s).value)
    ensures responseType in Schemas && !data.JStr? ==> r == CheckSchema(Schemas[responseType], data)
  {
    if responseType !in Schemas then Invalid("Unknown schema type: " + responseType)
    else if data.JStr? then
      match parse(data.s)
      case None => Invalid("Invalid JSON")
      case Some(parsed) => CheckSchema(Schemas[responseType], parsed)
    else CheckSchema(Schemas[responseType], data)
  }

  /** The entries under `key`, when they form a list, are all dicts. */
  predicate EntriesAreDicts(d: Dict, key: string) {
    match Lookup(d, key)
    case Some(JList(xs)) => forall i :: 0 <= i < |xs| ==> xs[i].JObj?
    case _ => true
  }

  /** Every field of `fields` is a key of the dict. */
  predicate HasAll(d: Json, fields: seq<string>) {
    d.JObj? && forall i :: 0 <= i < |fields| ==> fields[i] in Keys(d.fields)
  }

  /** A schema whose one required field holds its entries accepts a dict whose
      entries are dicts exactly when that field is a list of dicts having every
      entry field. */
  lemma CheckSchemaValidIff(schema: Schema, d: Dict)
    requires schema.requiredFields == [schema.entries]
    requires EntriesAreDicts(d, schema.entries)
    ensures CheckSchema(schema, JObj(d)) == Valid <==>
              schema.entries in Keys(d) && Lookup(d, schema.entries).value.JList? &&
              forall i :: 0 <= i < |Lookup(d, schema.entries).value.items| ==>
                HasAll(Lookup(d, schema.entries).value.items[i], schema.entryFields)
  {
    if schema.entries in Keys(d) && Lookup(d, schema.entries).value.JList? {
      assert FirstMissing(schema.requiredFields, JObj(d)) == AllPresent;
      var xs := Lookup(d, schema.entries).value.items;
      forall i | 0 <= i < |xs|
        ensures FirstMissing(schema.entryFields, xs[i]) == AllPresent <==> HasAll(xs[i], schema.entryFields)
      {
        assert xs[i].JObj?;
      }
    }
  }

  /** A goal breakdown given as a dict whose steps are dicts is valid exactly
      when "steps" is a list and every step has name, description and
      verification ("actions" is not required). */
  lemma GoalBreakdownValidIff(d: Dict, parse: string -> Option<Json>)
    requires EntriesAreDicts(d, "steps")
    ensures ValidateResponse("goal_breakdown", JObj(d), parse) == Valid <==>
              "steps" in Keys(d) && Lookup(d, "steps").value.JList? &&
              forall i :: 0 <= i < |Lookup(d, "steps").value.items| ==>
                HasAll(Lookup(d, "steps").value.items[i], ["name", "description", "verification"])
  {
    var schema := Schemas["goal_breakdown"];
    assert schema.entries == "steps" && schema.requiredFields == ["steps"];
    assert schema.entryFields == ["name", "description", "verification"];
    CheckSchemaValidIff(schema, d);
  }

  /** The same for a state check whose entries are dicts: each needs type and value. */
  lemma StateCheckValidIff(d: Dict, parse: string -> Option<Json>)
    requires EntriesAreDicts(d, "required_states")
    ensures ValidateResponse("state_check", JObj(d), parse) == Valid <==>
              "required_states" in Keys(d) && Lookup(d, "required_states").value.JList? &&
              forall i :: 0 <= i < |Lookup(d, "required_states").value.items| ==>
                HasAll(Lookup(d, "required_states").value.items[i], ["type", "value"])
  {
    var schema := Schemas["state_check"];
    assert schema.entries == "required_states" && schema.requiredFields == ["required_states"];
    assert schema.entryFields == ["type", "value"];
    CheckSchemaValidIff(schema, d);
  }

  /** A step lacking a field is reported by the first field it lacks, in the
      declared order name, description, verification. */
  lemma StepReportsFirstMissingField(step: Dict, parse: string -> Option<Json>)
    requires "name" in Keys(step) && "description" !in Keys(step)
    ensures ValidateResponse("goal_breakdown", JObj([("steps", JList([JObj(step)]))]), parse)
            == Invalid("Step missing required field: " + "description")
  {
    var entries := [JObj(step)];
    var d := [("steps", JList(entries))];
    var schema := Schemas["goal_breakdown"];
    assert schema.requiredFields == ["steps"] && schema.entries == "steps";
    assert schema.entryFields == ["name", "description", "verification"];
    assert schema.entryMissing == "Step missing required field: ";
    assert ("steps", JList(entries)) in d;
    assert FirstMissing(schema.requiredFields, JObj(d)) == AllPresent;
    assert Lookup(d, "steps") == Some(JList(entries));
    var fields := schema.entryFields;
    assert FirstMissing(fields[1..], JObj(step)) == Missing("description");
    assert FirstMissing(fields, JObj(step)) == Missing("description");
    assert FirstBadEntry(entries, fields) == Missing("description");
    assert CheckSchema(schema, JObj(d)) == Invalid(schema.entryMissing + "description");
  }

  /** An empty steps list is valid. */
  lemma EmptyStepsValid(parse: string -> Option<Json>)
    ensures ValidateResponse("goal_breakdown", JObj([("steps", JList([]))]), parse) == Valid
  {
    var d := [("steps", JList([]))];
    assert ("steps", JList([])) in d;
  }
}
