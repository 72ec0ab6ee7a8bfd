/**
 * Scenes (action_group.cpp). A scene runs in its own task; the task
 * handle doubles as a "running" flag that refuses a second run. Entering
 * a scene with a mode name switches the current mode; when the task ends
 * it flushes the indicator queue and clears the handle. The task is
 * modelled as the `running` flag plus a separate `Finish` event; in this
 * snapshot the task's per-action loop body is commented out, so finishing
 * does not operate any device.
 */
module ActionGroups {
  import ManagerBase
  import Indicator

  /** One step of a scene: an operation and parameter for a target device. */
  datatype AtomicAction = AtomicAction(targetDevice: int, operation: string, parameter: string)

  /** What a run request touches: the run flag, the report flag and the global mode name. */
  datatype RunState = RunState(running: bool, requireReport: bool, currMode: string)

  /** The effect of `executeAllAtomicAction(modeName)`; `spawned` says whether `xTaskCreate` succeeded. */
  function Requested(s: RunState, modeName: string, spawned: bool): RunState
  {
    if s.running then s
    else
      var switchMode := modeName != "" && (s.currMode == "" || s.currMode != modeName);
      RunState(spawned,
               s.requireReport || switchMode,
               if switchMode then modeName else s.currMode)
  }

  /** While a run is active a request changes nothing, so two requests start at most one run. */
  lemma ActiveRunRefusesRequests(s: RunState, m1: string, m2: string, ok1: bool, ok2: bool)
    requires s.running
    ensures Requested(s, m1, ok1) == s
    ensures Requested(Requested(s, m1, ok1), m2, ok2) == s
  {
  }

  /** From idle, a successful request is running afterwards and a second request is refused. */
  lemma SecondRequestRefused(s: RunState, m1: string, m2: string, ok2: bool)
    requires !s.running
    ensures Requested(s, m1, true).running
    ensures Requested(Requested(s, m1, true), m2, ok2) == Requested(s, m1, true)
  {
  }

  /** A failed task creation leaves no run behind, so the next request is accepted. */
  lemma FailedSpawnIsRetried(s: RunState, m1: string, m2: string)
    requires !s.running
    ensures !Requested(s, m1, false).running
    ensures Requested(Requested(s, m1, false), m2, true).running
  {
  }

  /**
   * Mode handling: a non-empty name that differs from the current mode
   * becomes the mode and asks for a report; an equal name or an empty one
   * leaves both alone.
   */
  lemma ModeSwitching(s: RunState, modeName: string, spawned: bool)
    requires !s.running
    ensures modeName != "" && modeName != s.currMode ==>
      Requested(s, modeName, spawned).currMode == modeName && Requested(s, modeName, spawned).requireReport
    ensures modeName == "" || modeName == s.currMode ==>
      Requested(s, modeName, spawned).currMode == s.currMode
      && Requested(s, modeName, spawned).requireReport == s.requireReport
  {
  }

  /** `ActionGroup`: a scene with its run guard. */
  class ActionGroup {
    const aid: int
    const name: string
    const isMode: bool
    const atomicActions: seq<AtomicAction>
    /** `task_handle != nullptr`. */
    var running: bool
    var requireReport: bool

    constructor (aid: int, name: string, isMode: bool, actions: seq<AtomicAction>)
      ensures this.aid == aid && this.name == name && this.isMode == isMode && atomicActions == actions
      ensures !running && !requireReport
    {
      this.aid, this.name, this.isMode, atomicActions := aid, name, isMode, actions;
      running, requireReport := false, false;
    }

    function State(modes: ManagerBase.LordManager): RunState
      reads this, modes
    {
      RunState(running, requireReport, modes.currMode)
    }

    /** `executeAllAtomicAction(mode_name)`; `spawned` is the outcome of creating the task. */
    method ExecuteAllAtomicAction(modeName: string, modes: ManagerBase.LordManager, spawned: bool)
      modifies this, modes`currMode
      ensures State(modes) == Requested(old(State(modes)), modeName, spawned)
    {
      if running {
        return;
      }
      var currentMode := modes.GetCurrMode();
      if modeName != "" {
        if currentMode == "" || currentMode != modeName {
          modes.SetCurrMode(modeName);
          requireReport := true;
        }
      }
      running := spawned;
    }

    /**
     * The end of the scene task: flush the indicator queue once, drop the
     * report request and clear the handle. Returns the closures flushed.
     */
    method Finish(holder: Indicator.IndicatorHolder) returns (flushed: seq<Indicator.Publish>)
      requires running && holder.Valid()
      modifies this, holder
      ensures holder.Valid() && holder.functions == [] && holder.registeredPanels == {}
      ensures flushed == old(holder.functions)
      ensures !running && !requireReport
    {
      flushed := holder.CallAllAndClear();
      if requireReport {
        requireReport := false;
      }
      running := false;
    }

    /**
     * `suicide`: always flush the indicator queue; if a run is active,
     * clear the handle (deleting the task). The report flag is not touched.
     */
    method Suicide(holder: Indicator.IndicatorHolder) returns (flushed: seq<Indicator.Publish>)
      requires holder.Valid()
      modifies this`running, holder
      ensures holder.Valid() && holder.functions == [] && holder.registeredPanels == {}
      ensures flushed == old(holder.functions)
      ensures !running
    {
      flushed := holder.CallAllAndClear();
      if running {
        running := false;
      }
    }
  }
}
