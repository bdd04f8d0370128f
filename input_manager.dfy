/**
 * Keyboard input with bounded retries and an append-only record of what was attempted.
 * The keystroke synthesis itself (pyautogui, the keyboard hooks, the sleeps between
 * steps) is outside the model: the outcome of each attempt, the run-dialog sequence, the
 * foreground title and the key-state probe are inputs.
 */
module InputManager {
  import opened Wrappers
  import opened Text

  /** `max_retries`: every retry loop makes at most this many attempts. */
  const MaxRetries: nat := 3

  /** One entry of `action_history` / `failed_actions`, with its `success` flag. */
  datatype Record =
    | KeyCombination(keys: string, timestamp: int, success: bool)
    | TypedText(text: string, timestamp: int, success: bool)

  /** `key_map.get(k, k)`: the special names this manager knows; any other key passes through. */
  function MapKey(k: string): string {
    if k == "win" || k == "windows" then "windows"
    else if k == "esc" then "escape"
    else k
  }

  /** The key map rewrites exactly win/windows and esc, and leaves every other key alone. */
  lemma MapKeyCases(k: string)
    ensures MapKey(k) == "windows" <==> k == "win" || k == "windows"
    ensures MapKey(k) == "escape" <==> k == "esc" || k == "escape"
    ensures k != "win" && k != "esc" ==> MapKey(k) == k
  {
  }

  /** `key_parts`: split on '+', strip and lower-case each part, then apply the key map. */
  function KeyParts(keys: string): (parts: seq<string>)
    ensures |parts| == |Split(keys, '+')|
  {
    var raw := Split(keys, '+');
    seq(|raw|, i requires 0 <= i < |raw| => MapKey(Lower(Strip(raw[i]))))
  }

  /** `strip()` only removes characters: everything left was in the input. */
  lemma {:induction false} StripKeepsMembers(s: string)
    ensures forall c :: c in Strip(s) ==> c in TrimStart(s)
    ensures forall c :: c in TrimStart(s) ==> c in s
  {
    TrimStartKeepsMembers(s);
    TrimEndKeepsMembers(TrimStart(s));
  }

  lemma {:induction false} TrimStartKeepsMembers(s: string)
    ensures forall c :: c in TrimStart(s) ==> c in s
    decreases |s|
  {
    if s != [] && IsSpace(s[0]) {
      TrimStartKeepsMembers(s[1..]);
      forall c | c in s[1..]
        ensures c in s
      {
        var k :| 0 <= k < |s[1..]| && s[1..][k] == c;
        assert s[k + 1] == c;
      }
    }
  }

  lemma {:induction false} TrimEndKeepsMembers(s: string)
    ensures forall c :: c in TrimEnd(s) ==> c in s
    decreases |s|
  {
    if s != [] && IsSpace(s[|s| - 1]) {
      TrimEndKeepsMembers(s[..|s| - 1]);
      forall c | c in s[..|s| - 1]
        ensures c in s
      {
        var k :| 0 <= k < |s| - 1 && s[..|s| - 1][k] == c;
        assert s[k] == c;
      }
    }
  }

  /** Stripping and lower-casing only remove spaces and rewrite letters: no '+' appears. */
  lemma StripLowerKeepsPlusOut(s: string)
    requires '+' !in s
    ensures '+' !in Lower(Strip(s))
  {
    StripKeepsMembers(s);
    var t := Strip(s);
    forall k | 0 <= k < |t|
      ensures Lower(t)[k] != '+'
    {
      assert t[k] in t;
    }
  }

  /**
   * Parsing keeps one part per '+'-separated piece, in order, and no part holds a '+':
   * the combination is never re-joined or re-split on the way to the keyboard.
   */
  lemma KeyPartsShape(keys: string)
    ensures |KeyParts(keys)| == multiset(keys)['+'] + 1
    ensures forall i :: 0 <= i < |KeyParts(keys)| ==> '+' !in KeyParts(keys)[i]
  {
    SplitCount(keys, '+');
    SplitPartsLackSeparator(keys, '+');
    var raw := Split(keys, '+');
    forall i | 0 <= i < |raw|
      ensures '+' !in KeyParts(keys)[i]
    {
      StripLowerKeepsPlusOut(raw[i]);
    }
  }

  /**
   * The index of the first successful attempt among `a`, ..., `MaxRetries - 1`, or None:
   * the reference for both retry loops.
   */
  function FirstSuccess<T>(x: T, attempt: (T, nat) -> bool, a: nat): Option<nat>
    decreases MaxRetries - a
  {
    if a >= MaxRetries then None
    else if attempt(x, a) then Some(a)
    else FirstSuccess(x, attempt, a + 1)
  }

  /** Some attempt in range succeeds iff there is a first one, and then it is the earliest. */
  lemma {:induction false} FirstSuccessSpec<T>(x: T, attempt: (T, nat) -> bool, a: nat)
    requires a <= MaxRetries
    ensures FirstSuccess(x, attempt, a).Some? <==> exists j :: a <= j < MaxRetries && attempt(x, j)
    ensures FirstSuccess(x, attempt, a).Some? ==>
              var k := FirstSuccess(x, attempt, a).value;
              a <= k < MaxRetries && attempt(x, k) && forall j :: a <= j < k ==> !attempt(x, j)
    decreases MaxRetries - a
  {
    if a < MaxRetries && !attempt(x, a) {
      FirstSuccessSpec(x, attempt, a + 1);
    }
  }

  /**
   * `for attempt in range(self.max_retries)`, returning at the first attempt that succeeds.
   * `tries` is how many attempts were made.
   */
  method RetryLoop<T>(x: T, attempt: (T, nat) -> bool) returns (ok: bool, ghost tries: nat)
    ensures ok <==> exists j :: 0 <= j < MaxRetries && attempt(x, j)
    ensures 1 <= tries <= MaxRetries
    ensures ok ==> attempt(x, tries - 1)
    ensures forall j :: 0 <= j < tries - 1 ==> !attempt(x, j)
    ensures !ok ==> tries == MaxRetries
  {
    FirstSuccessSpec(x, attempt, 0);
    var a: nat := 0;
    while a < MaxRetries
      invariant a <= MaxRetries
      invariant FirstSuccess(x, attempt, 0) == FirstSuccess(x, attempt, a)
      invariant forall j :: 0 <= j < a ==> !attempt(x, j)
    {
      if attempt(x, a) {
        return true, a + 1;
      }
      a := a + 1;
    }
    return false, MaxRetries;
  }

  /** `keyboard.is_pressed` for every key, stopping at the first that is down; a raised probe is `None`. */
  method VerifyKeysReleased(keys: seq<string>, pressed: string -> Option<bool>) returns (r: bool)
    ensures r <==> forall i :: 0 <= i < |keys| ==> pressed(keys[i]) == Some(false)
  {
    var i := 0;
    while i < |keys|
      invariant 0 <= i <= |keys|
      invariant forall j :: 0 <= j < i ==> pressed(keys[j]) == Some(false)
    {
      var p := pressed(keys[i]);
      if p.None? || p.value {
        return false;
      }
      i := i + 1;
    }
    return true;
  }

  /** `_verify_window_title`: `current` is the foreground title, None when win32 raises. */
  function VerifyWindowTitle(expected: string, current: Option<string>): (r: bool)
    ensures r <==> current.Some? && exists i :: OccursAt(Lower(current.value), Lower(expected), i)
  {
    match current
    case None => false
    case Some(title) =>
      ContainsIff(Lower(title), Lower(expected));
      Contains(Lower(title), Lower(expected))
  }

  /** The title check ignores case on both sides. */
  lemma WindowTitleIgnoresCase(expected: string, title: string)
    ensures VerifyWindowTitle(expected, Some(title)) == VerifyWindowTitle(Lower(expected), Some(Lower(title)))
  {
    LowerIdempotent(expected);
    LowerIdempotent(title);
  }

  class InputManager {
    var actionHistory: seq<Record>
    var failedActions: seq<Record>

    constructor()
      ensures actionHistory == [] && failedActions == []
    {
      actionHistory := [];
      failedActions := [];
    }

    /** Every failed action is also in the history, and failures are recorded as such. */
    ghost predicate Valid()
      reads this
    {
      (forall r :: r in failedActions ==> r in actionHistory) &&
      (forall r :: r in failedActions ==> !r.success)
    }

    /**
     * `execute_key_combination`. `now` is `time.time()`, `runDialog` the outcome of the
     * run-dialog sequence, and `attempt(parts, a)` whether attempt `a` (hotkey, or direct
     * presses, then the key-release check) succeeds for the parsed keys `parts`.
     */
    method ExecuteKeyCombination(keys: string, now: int, runDialog: bool,
                                 attempt: (seq<string>, nat) -> bool) returns (ok: bool)
      requires Valid()
      modifies this
      ensures Valid()
      ensures keys == [] ==> !ok && actionHistory == old(actionHistory) && failedActions == old(failedActions)
      ensures keys != [] && Lower(keys) == "win+r" ==>
                ok == runDialog &&
                actionHistory == old(actionHistory) + [KeyCombination(keys, now, runDialog)] &&
                failedActions == old(failedActions)
      ensures keys != [] && Lower(keys) != "win+r" ==>
                (ok <==> exists j :: 0 <= j < MaxRetries && attempt(KeyParts(keys), j)) &&
                actionHistory == old(actionHistory) + [KeyCombination(keys, now, ok)] &&
                failedActions == old(failedActions) + (if ok then [] else [KeyCombination(keys, now, false)])
    {
      if keys == [] {
        return false;
      }
      if Lower(keys) == "win+r" {
        actionHistory := actionHistory + [KeyCombination(keys, now, runDialog)];
        return runDialog;
      }
      var parts := KeyParts(keys);
      ghost var tries;
      ok, tries := RetryLoop(parts, attempt);
      if ok {
        actionHistory := actionHistory + [KeyCombination(keys, now, true)];
      } else {
        actionHistory := actionHistory + [KeyCombination(keys, now, false)];
        failedActions := failedActions + [KeyCombination(keys, now, false)];
      }
    }

    /**
     * `type_text`. `attempt(text, a)` is whether attempt `a` (typewrite, or per-character
     * writes, each followed by the optional Enter) completes without raising.
     */
    method TypeText(text: string, now: int, attempt: (string, nat) -> bool) returns (ok: bool)
      requires Valid()
      modifies this
      ensures Valid()
      ensures ok <==> exists j :: 0 <= j < MaxRetries && attempt(text, j)
      ensures actionHistory == old(actionHistory) + [TypedText(text, now, ok)]
      ensures failedActions == old(failedActions) + (if ok then [] else [TypedText(text, now, false)])
    {
      ghost var tries;
      ok, tries := RetryLoop(text, attempt);
      if ok {
        actionHistory := actionHistory + [TypedText(text, now, true)];
      } else {
        actionHistory := actionHistory + [TypedText(text, now, false)];
        failedActions := failedActions + [TypedText(text, now, false)];
      }
    }

    /** `clear_history` empties both lists. */
    method ClearHistory()
      modifies this
      ensures Valid()
      ensures actionHistory == [] && failedActions == []
    {
      actionHistory := [];
      failedActions := [];
    }
  }
}
