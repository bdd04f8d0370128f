/**
 * Snapshots of the desktop, keeping the latest and the one before it.
 */
module StateManager {
  import opened Wrappers

  datatype SystemState = SystemState(activeWindow: string, windowList: seq<string>, runningProcesses: seq<string>,
                                     cursorPosition: (int, int), screenResolution: (int, int))

  /** The snapshot `k` places before the last one, if there is one. */
  function Back(snapshots: seq<SystemState>, k: nat): (r: Option<SystemState>)
    ensures r.Some? <==> k < |snapshots|
    ensures r.Some? ==> r.value in snapshots
  {
    if k < |snapshots| then Some(snapshots[|snapshots| - 1 - k]) else None
  }

  /** One more snapshot shifts every earlier one back by one place. */
  lemma BackShift(snapshots: seq<SystemState>, s: SystemState, k: nat)
    ensures Back(snapshots + [s], 0) == Some(s)
    ensures Back(snapshots + [s], k + 1) == Back(snapshots, k)
  {
  }

  class StateManager {
    var previousState: Option<SystemState>
    var currentState: Option<SystemState>
    /** Every snapshot captured so far, oldest first. */
    ghost var captured: seq<SystemState>

    /** The current snapshot is the last one captured and the previous one the
        one before it. */
    ghost predicate Valid()
      reads this
    {
      currentState == Back(captured, 0) && previousState == Back(captured, 1)
    }

    constructor ()
      ensures Valid() && captured == [] && previousState == None && currentState == None
    {
      previousState := None;
      currentState := None;
      captured := [];
    }

    /** `capture_state`, with the snapshot the desktop queries would give as
        input. */
    method CaptureState(snapshot: SystemState) returns (state: SystemState)
      requires Valid()
      modifies this
      ensures Valid() && captured == old(captured) + [snapshot]
      ensures state == snapshot && currentState == Some(snapshot) && previousState == old(currentState)
    {
      BackShift(captured, snapshot, 0);
      previousState := currentState;
      currentState := Some(snapshot);
      captured := captured + [snapshot];
      return snapshot;
    }
  }

  /** After the first capture there is still no previous snapshot; after a
      second, the previous one is the first. */
  method CaptureTwice(a: SystemState, b: SystemState) returns (m: StateManager)
    ensures m.Valid() && m.captured == [a, b]
    ensures m.previousState == Some(a) && m.currentState == Some(b)
  {
    m := new StateManager();
    var first := m.CaptureState(a);
    assert m.previousState == None;
    var second := m.CaptureState(b);
  }

  /** In any reachable state, after n >= 2 captures the previous snapshot is
      the (n-1)th and the current one the nth. */
  lemma ValidLastTwo(m: StateManager)
    requires m.Valid() && |m.captured| >= 2
    ensures m.previousState == Some(m.captured[|m.captured| - 2])
    ensures m.currentState == Some(m.captured[|m.captured| - 1])
  {
  }
}
