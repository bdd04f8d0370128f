/**
 * The start-up self tests of the application: which Python modules import,
 * whether the display reports a positive size, and whether the local model
 * server offers the vision model (by parsing its list of model tags).
 */
module AppCore {
  import opened Wrappers
  import opened Text
  import opened Values

  /** The model the vision test looks for. */
  const VisionModel: string := "llama3.2-vision"

  /** The modules `_test_imports` requires, in the order it tries them. */
  const RequiredModules: seq<string> := ["tkinter", "PIL", "win32gui", "win32con", "win32api"]

  /** The list of models in the server's reply: a dict's `models` entry (default `[]`), any other value as it is. */
  function ModelEntries(response: Json): (r: Json)
    ensures response.JObj? && "models" !in Keys(response.fields) ==> r == JList([])
    ensures response.JObj? && "models" in Keys(response.fields) ==> ("models", r) in response.fields
    ensures !response.JObj? ==> r == response
  {
    if response.JObj? then Get(response.fields, "models", JList([])) else response
  }

  /** `model.get('name', '').split(':')[0]`; None when the name is not a string (`split` raises). */
  function EntryName(entry: Dict): (r: Option<string>)
    ensures r.Some? ==> ':' !in r.value
  {
    match Get(entry, "name", JStr(""))
    case JStr(name) =>
      SplitPartsLackSeparator(name, ':');
      Some(Split(name, ':')[0])
    case _ => None
  }

  /** The comprehension over the entries: dict entries give their name, others are skipped. */
  function Names(entries: seq<Json>): Option<seq<string>>
  {
    if entries == [] then Some([])
    else
      match Names(entries[1..])
      case None => None
      case Some(rest) =>
        if !entries[0].JObj? then Some(rest)
        else
          match EntryName(entries[0].fields)
          case None => None
          case Some(n) => Some([n] + rest)
  }

  /** The names of `available_models`; None when the comprehension raises. */
  function ParseModelNames(response: Json): Option<seq<string>> {
    match Iterate(ModelEntries(response))
    case None => None
    case Some(entries) => Names(entries)
  }

  /**
   * The parse fails exactly when some dict entry has a name that is not a string;
   * otherwise `x` is among the names iff some dict entry's name has `x` before its
   * first ':', and no name keeps a ':'.
   */
  lemma {:induction false} NamesSpec(entries: seq<Json>)
    ensures Names(entries).None? <==>
              exists i :: 0 <= i < |entries| && entries[i].JObj? && EntryName(entries[i].fields).None?
    ensures Names(entries).Some? ==>
              forall x :: x in Names(entries).value <==>
                exists i :: 0 <= i < |entries| && entries[i].JObj? && EntryName(entries[i].fields) == Some(x)
    ensures Names(entries).Some? ==> forall x :: x in Names(entries).value ==> ':' !in x
    decreases |entries|
  {
    if entries != [] {
      var tail := entries[1..];
      NamesSpec(tail);
      forall i | 1 <= i < |entries|
        ensures entries[i] == tail[i - 1]
      {
      }
      if Names(tail).Some? && entries[0].JObj? && EntryName(entries[0].fields).None? {
        assert Names(entries).None?;
      }
      if Names(tail).None? {
        var i :| 0 <= i < |tail| && tail[i].JObj? && EntryName(tail[i].fields).None?;
        assert entries[i + 1] == tail[i];
      }
      if Names(entries).Some? {
        forall x | exists i :: 0 <= i < |tail| && tail[i].JObj? && EntryName(tail[i].fields) == Some(x)
          ensures exists i :: 0 <= i < |entries| && entries[i].JObj? && EntryName(entries[i].fields) == Some(x)
        {
          var i :| 0 <= i < |tail| && tail[i].JObj? && EntryName(tail[i].fields) == Some(x);
          assert entries[i + 1] == tail[i];
        }
      }
    }
  }

  /** A dict reply without a `models` entry, or a reply that is a string, offers no models. */
  lemma NoModelsListed(response: Json)
    requires (response.JObj? && "models" !in Keys(response.fields)) || response.JStr?
    ensures ParseModelNames(response) == Some([])
  {
    if response.JStr? {
      NoDictEntries(Iterate(response).value);
    }
  }

  /** Entries that are not dicts contribute nothing. */
  lemma {:induction false} NoDictEntries(entries: seq<Json>)
    requires forall i :: 0 <= i < |entries| ==> !entries[i].JObj?
    ensures Names(entries) == Some([])
    decreases |entries|
  {
    if entries != [] {
      assert forall i :: 1 <= i < |entries| ==> entries[i] == entries[1..][i - 1];
      NoDictEntries(entries[1..]);
    }
  }

  /** A reply that cannot be iterated (a number, a bool, null) makes the parse raise. */
  lemma ScalarReplyRaises(response: Json)
    requires response.JInt? || response.JBool? || response.JNull?
    ensures ParseModelNames(response).None?
  {
  }

  /** A tag such as "llama3.2-vision:latest" is listed under the bare model name. */
  lemma TaggedVisionModelFound(tag: string, others: seq<Json>)
    requires Names(others).Some?
    ensures var entry := JObj([("name", JStr(VisionModel + ":" + tag))]);
            var names := ParseModelNames(JObj([("models", JList([entry] + others))]));
            names.Some? && VisionModel in names.value
  {
    assert ':' !in VisionModel by {
      forall k | 0 <= k < |VisionModel|
        ensures VisionModel[k] != ':'
      {
      }
    }
    var name := VisionModel + ":" + tag;
    SplitHead(VisionModel, ':', tag);
    assert EntryName([("name", JStr(name))]) == Some(VisionModel);
    var entries := [JObj([("name", JStr(name))])] + others;
    assert entries[1..] == others;
    assert Names(entries) == Some([VisionModel] + Names(others).value);
    var response := JObj([("models", JList(entries))]);
    assert ModelEntries(response) == JList(entries);
    assert ParseModelNames(response) == Names(entries);
  }

  /** Every required module can be imported. */
  ghost predicate AllImportable(importable: string -> bool) {
    forall i :: 0 <= i < |RequiredModules| ==> importable(RequiredModules[i])
  }

  /** `_test_imports`: tries the required modules in order and stops at the first that fails to import. */
  method TestImports(importable: string -> bool) returns (r: bool)
    ensures r == AllImportable(importable)
  {
    var i := 0;
    while i < |RequiredModules|
      invariant 0 <= i <= |RequiredModules|
      invariant forall j :: 0 <= j < i ==> importable(RequiredModules[j])
    {
      if !importable(RequiredModules[i]) {
        return false;
      }
      i := i + 1;
    }
    return true;
  }

  /** `_test_display`: `metrics` is the (width, height) reported, None when the call raises. */
  function TestDisplay(metrics: Option<(int, int)>): (r: bool)
    ensures r <==> metrics.Some? && metrics.value.0 > 0 && metrics.value.1 > 0
  {
    match metrics
    case None => false
    case Some((w, h)) => w > 0 && h > 0
  }

  class AppCore {
    /** The vision model found by the vision test; None while unset (later read with the default "llama2"). */
    var visionModel: Option<string>

    constructor()
      ensures visionModel == None
    {
      visionModel := None;
    }

    /**
     * `_test_vision`. `response` is the decoded reply of the tags endpoint, None when
     * the request, the status check or the decoding raises.
     */
    method TestVision(response: Option<Json>) returns (ok: bool)
      modifies this
      ensures ok <==> response.Some? && ParseModelNames(response.value).Some? &&
                      VisionModel in ParseModelNames(response.value).value
      ensures ok ==> visionModel == Some(VisionModel)
      ensures !ok ==> visionModel == old(visionModel)
    {
      if response.None? {
        return false;
      }
      var names := ParseModelNames(response.value);
      if names.None? {
        return false;
      }
      if VisionModel in names.value {
        visionModel := Some(VisionModel);
        return true;
      }
      return false;
    }

    /**
     * `run_system_tests`: the four results under exactly the keys imports, display,
     * coordinates and vision, in that order. Building a `CoordinateSystem` only stores the logger, so
     * the coordinates test always passes.
     */
    method RunSystemTests(importable: string -> bool, metrics: Option<(int, int)>, response: Option<Json>)
      returns (results: Dict)
      modifies this
      ensures |results| == 4
      ensures results[0] == ("imports", JBool(AllImportable(importable)))
      ensures results[1] == ("display", JBool(TestDisplay(metrics)))
      ensures results[2] == ("coordinates", JBool(true))
      ensures var found := response.Some? && ParseModelNames(response.value).Some? &&
                           VisionModel in ParseModelNames(response.value).value;
              results[3] == ("vision", JBool(found)) &&
              visionModel == (if found then Some(VisionModel) else old(visionModel))
    {
      var imports := TestImports(importable);
      var display := TestDisplay(metrics);
      var vision := TestVision(response);
      results := [("imports", JBool(imports)), ("display", JBool(display)),
                  ("coordinates", JBool(true)), ("vision", JBool(vision))];
    }
  }
}
