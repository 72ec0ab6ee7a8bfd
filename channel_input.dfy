/**
 * Inputs wired to an I/O-board channel (channel_input.cpp, channel_input.h):
 * level inputs that run their scenes round-robin, and infrared presence
 * sensors driven by a three-state machine with a one-shot "uncertain"
 * timer. When the timer of the occupancy channel expires, the lord runs
 * every infrared-timeout input on the same channel, but only once the door
 * guards agree that the guest has left.
 *
 * The clock readings the source takes itself (`esp_timer_get_time`,
 * `time`, `localtime_r`) are parameters here: `nowMs` is the uptime in
 * milliseconds, `wallClock` the raw calendar clock and `localHour` the
 * local hour of that reading.
 */
module ChannelInput {
  import opened Bytes
  import opened Wrappers
  import Commons
  import Inputs
  import ActionGroups
  import ManagerBase
  import LordContext

  const U32: int := 0x1_0000_0000
  const U64: int := 0x1_0000_0000_0000_0000

  /** The scenes that keep a room occupied are not re-run within this many milliseconds. */
  const RECENT_SCENE_MS: int := 10000

  /** `SensorState`. */
  datatype SensorState = Idle | Active | Uncertain

  /**
   * `is_daytime_now` with the local hour passed in: a day window that does
   * not wrap is `[dayStart, nightStart)`; otherwise the day wraps past
   * midnight.
   */
  predicate IsDaytime(h: int, dayStart: int, nightStart: int)
  {
    if dayStart < nightStart then dayStart <= h < nightStart
    else h >= dayStart || h < nightStart
  }

  /** Swapping the two bounds swaps day and night, whichever of them wraps past midnight. */
  lemma DayNightSwap(h: int, dayStart: int, nightStart: int)
    requires dayStart != nightStart
    ensures IsDaytime(h, dayStart, nightStart) <==> !IsDaytime(h, nightStart, dayStart)
  {
  }

  /** Equal bounds make every hour daytime. */
  lemma EqualBoundsAreAllDay(h: int, start: int)
    ensures IsDaytime(h, start, start)
  {
  }

  /**
   * `calc_uncertain_ticks` before the tick conversion. With an unknown
   * time (`timestamp == 0`) it is `duration` seconds in milliseconds as a
   * `uint64_t` product; with a known time that product, doubled at night,
   * is stored in a `uint32_t`.
   */
  function UncertainMs(duration: nat, timestamp: int, localHour: int, dayStart: int, nightStart: int): (ms: nat)
    ensures ms < U64
    ensures timestamp != 0 ==> ms < U32
  {
    if timestamp == 0 then (duration * 1000) % U64
    else
      var factor := if IsDaytime(localHour, dayStart, nightStart) then 1 else 2;
      (duration * 1000 * factor) % U32
  }

  /**
   * Without wrap-around, the night timeout is twice the day timeout, and
   * the day timeout is the one used when the time is unknown.
   */
  lemma NightDoublesTimeout(duration: nat, timestamp: int, localHour: int, dayStart: int, nightStart: int)
    requires duration * 2000 < U32
    ensures UncertainMs(duration, 0, localHour, dayStart, nightStart) == duration * 1000
    ensures timestamp != 0 && !IsDaytime(localHour, dayStart, nightStart) ==>
      UncertainMs(duration, timestamp, localHour, dayStart, nightStart) == 2 * UncertainMs(duration, 0, localHour, dayStart, nightStart)
    ensures timestamp == 0 || IsDaytime(localHour, dayStart, nightStart) ==>
      UncertainMs(duration, timestamp, localHour, dayStart, nightStart) == UncertainMs(duration, 0, localHour, dayStart, nightStart)
  {
  }

  /**
   * A duration of 3000000 s fits in 32 bits by day, but its doubled night
   * value wraps and comes out shorter; without a clock the 64-bit product
   * of 5000000 s does not wrap.
   */
  lemma NightTimeoutCanWrap()
    ensures UncertainMs(3000000, Commons.SYNCED_EPOCH, 23, 7, 22) == 1705032704
    ensures UncertainMs(3000000, Commons.SYNCED_EPOCH, 12, 7, 22) == 3000000000
    ensures UncertainMs(5000000, 0, 12, 7, 22) == 5000000000
  {
    assert !IsDaytime(23, 7, 22) && IsDaytime(12, 7, 22);
    assert 3000000 * 1000 * 2 == 1 * U32 + 1705032704;
  }

  /** What an occupancy-channel expiry reads from the lord: the door state and the uptime stamps in milliseconds. */
  datatype Guard = Guard(doorOpen: bool, lastDoorCloseTime: int, lastPresenceTime: int, lastActionGroupTime: int, nowMs: int)

  /** The outcome of the three occupancy guards: cut the power, retry later, or stay as is. */
  datatype Verdict = Pass | Retry | Hold

  /**
   * The guards in their order: an open door re-arms; no door close after
   * the last presence gives up; a scene within the last ten seconds
   * (`uint64_t` difference) re-arms.
   */
  function Judged(g: Guard): (v: Verdict)
    ensures v == Pass <==> !g.doorOpen && g.lastDoorCloseTime > g.lastPresenceTime
                           && (g.nowMs - g.lastActionGroupTime) % U64 >= RECENT_SCENE_MS
    ensures v == Retry <==> g.doorOpen || (g.lastDoorCloseTime > g.lastPresenceTime
                                           && (g.nowMs - g.lastActionGroupTime) % U64 < RECENT_SCENE_MS)
  {
    if g.doorOpen then Retry
    else if !(g.lastDoorCloseTime > g.lastPresenceTime) then Hold
    else if (g.nowMs - g.lastActionGroupTime) % U64 < RECENT_SCENE_MS then Retry
    else Pass
  }

  /** The guard view of the lord's state at uptime `nowMs`. */
  function GuardOf(ctx: LordContext.Context, nowMs: int): Guard
    reads ctx
  {
    Guard(ctx.doorOpen, ctx.lastDoorCloseTime, ctx.lastPresenceTime, ctx.lastActionGroupTime, nowMs)
  }

  /** What a timer expiry does: the next sensor state, whether the timeout scenes run, whether the timer is re-armed. */
  datatype Expiry = Expiry(state: SensorState, fire: bool, rearm: bool)

  /**
   * `uncertain_timer_callback` as written: an expiry outside `Uncertain`
   * does nothing; otherwise the state becomes `Idle` before the guards of
   * an occupancy channel (`occupancy`) are evaluated.
   */
  function ExpiredAsWritten(s: SensorState, occupancy: bool, g: Guard): Expiry
  {
    if s != Uncertain then Expiry(s, false, false)
    else if !occupancy then Expiry(Idle, true, false)
    else match Judged(g)
      case Pass => Expiry(Idle, true, false)
      case Retry => Expiry(Idle, false, true)
      case Hold => Expiry(Idle, false, false)
  }

  /**
   * The expiry as evidently intended: a re-arm keeps the sensor
   * `Uncertain`, so that the re-armed timer checks the guards again.
   */
  function Expired(s: SensorState, occupancy: bool, g: Guard): Expiry
  {
    if s != Uncertain then Expiry(s, false, false)
    else if !occupancy then Expiry(Idle, true, false)
    else match Judged(g)
      case Pass => Expiry(Idle, true, false)
      case Retry => Expiry(Uncertain, false, true)
      case Hold => Expiry(Idle, false, false)
  }

  /** Both versions agree on whether the scenes run and the timer is re-armed; the timeout scenes run exactly when the guards pass. */
  lemma ExpiryFiresWhenGuardsPass(s: SensorState, occupancy: bool, g: Guard)
    ensures Expired(s, occupancy, g).fire == ExpiredAsWritten(s, occupancy, g).fire
    ensures Expired(s, occupancy, g).rearm == ExpiredAsWritten(s, occupancy, g).rearm
    ensures Expired(s, occupancy, g).fire <==> s == Uncertain && (!occupancy || Judged(g) == Pass)
    ensures Expired(s, occupancy, g).rearm <==> s == Uncertain && occupancy && Judged(g) == Retry
    ensures s != Uncertain ==> Expired(s, occupancy, g) == ExpiredAsWritten(s, occupancy, g) == Expiry(s, false, false)
  {
  }

  /**
   * As written, a re-armed timer is a dead end: when it expires again, the
   * sensor is already `Idle`, so nothing runs whatever the door has done
   * since, even if every guard now passes.
   */
  lemma RetryIsLostAsWritten(g1: Guard, g2: Guard)
    requires Judged(g1) == Retry
    ensures ExpiredAsWritten(Uncertain, true, g1).rearm
    ensures var again := ExpiredAsWritten(ExpiredAsWritten(Uncertain, true, g1).state, true, g2);
      !again.fire && !again.rearm
  {
  }

  /** Corrected, the re-armed timer's expiry is a fresh expiry of an uncertain sensor, so it cuts the power once the guards pass. */
  lemma RetryRechecks(g1: Guard, g2: Guard)
    requires Judged(g1) == Retry
    ensures Expired(Uncertain, true, g1).rearm
    ensures Expired(Expired(Uncertain, true, g1).state, true, g2) == Expired(Uncertain, true, g2)
    ensures Judged(g2) == Pass ==> Expired(Expired(Uncertain, true, g1).state, true, g2).fire
  {
  }

  /** The timer is armed exactly while the sensor is uncertain. */
  predicate TimerInStep(s: SensorState, armed: bool)
  {
    armed <==> s == Uncertain
  }

  /** Corrected, an expiry of an armed timer keeps the timer in step with the sensor state; as written it does not. */
  lemma ExpiryKeepsTimerInStep(occupancy: bool, g: Guard)
    ensures TimerInStep(Expired(Uncertain, occupancy, g).state, Expired(Uncertain, occupancy, g).rearm)
    ensures Judged(g) == Retry && occupancy ==>
      !TimerInStep(ExpiredAsWritten(Uncertain, occupancy, g).state, ExpiredAsWritten(Uncertain, occupancy, g).rearm)
  {
  }

  /** What one infrared reading does: the next state, and whether it stamps presence, runs a scene, arms or stops the timer. */
  datatype Sensing = Sensing(state: SensorState, present: bool, runScene: bool, arm: bool, stop: bool)

  /** `execute_infrared(state)`: readings other than 0 and 1 are ignored. */
  function Sensed(s: SensorState, bit: byte): Sensing
  {
    match s
      case Idle =>
        if bit == 1 then Sensing(Active, true, true, false, false)
        else if bit == 0 then Sensing(Uncertain, false, false, true, false)
        else Sensing(Idle, false, false, false, false)
      case Active =>
        if bit == 0 then Sensing(Uncertain, false, false, true, false)
        else Sensing(Active, false, false, false, false)
      case Uncertain =>
        if bit == 1 then Sensing(Active, true, false, false, true)
        else Sensing(Uncertain, false, false, false, false)
  }

  /** The timer's armed flag after a reading. */
  function ArmedAfter(st: Sensing, armed: bool): bool
  {
    if st.arm then true else if st.stop then false else armed
  }

  /**
   * Only a person arriving at an idle sensor runs a scene; presence is
   * stamped whenever a 1 ends an idle or uncertain spell; a 0 from idle or
   * active starts the uncertain spell and a 1 while uncertain ends it.
   */
  lemma SensingEffects(s: SensorState, bit: byte)
    ensures Sensed(s, bit).runScene <==> s == Idle && bit == 1
    ensures Sensed(s, bit).present <==> bit == 1 && s != Active
    ensures Sensed(s, bit).arm <==> bit == 0 && s != Uncertain
    ensures Sensed(s, bit).stop <==> bit == 1 && s == Uncertain
    ensures Sensed(s, bit).state == Uncertain <==> (bit == 0 && s != Uncertain) || (s == Uncertain && bit != 1)
  {
  }

  /** Every reading keeps the timer in step with the sensor state. */
  lemma SensingKeepsTimerInStep(s: SensorState, armed: bool, bit: byte)
    requires TimerInStep(s, armed)
    ensures TimerInStep(Sensed(s, bit).state, ArmedAfter(Sensed(s, bit), armed))
  {
  }

  /** A false alarm: absence then presence returns to `Active`, with the timer stopped and no scene run. */
  lemma FalseAlarmCancels()
    ensures Sensed(Active, 0).state == Uncertain && Sensed(Active, 0).arm
    ensures var back := Sensed(Sensed(Active, 0).state, 1);
      back.state == Active && back.stop && !back.runScene && !ArmedAfter(back, ArmedAfter(Sensed(Active, 0), false))
  {
  }

  /** An input on a board channel. */
  class ChannelInput {
    /** The constructor takes the id as a `uint8_t`, so the input keeps eight bits of it. */
    const iid: byte
    const kind: Inputs.InputType
    const name: string
    const tags: set<Inputs.InputTag>
    const channel: byte
    const triggerType: Inputs.TriggerType
    /** Seconds of absence before an infrared sensor's timeout, `uint64_t`. */
    const duration: nat
    const actionGroups: seq<ActionGroups.ActionGroup>
    var currentIndex: byte
    var currentState: SensorState
    /** Whether the one-shot uncertain timer is running, and its last period. */
    var timerArmed: bool
    var timerPeriodMs: nat

    /**
     * The header's constructor hands `channel`, `trigger_type` and
     * `duration` to no member; they are taken here as holding the
     * arguments, which is what every reader of them assumes.
     */
    constructor (iid: byte, kind: Inputs.InputType, name: string, tags: set<Inputs.InputTag>, channel: byte,
                 triggerType: Inputs.TriggerType, duration: nat, groups: seq<ActionGroups.ActionGroup>)
      ensures this.iid == iid && this.kind == kind && this.name == name && this.tags == tags
      ensures this.channel == channel && this.triggerType == triggerType && this.duration == duration
      ensures actionGroups == groups && currentIndex == 0
      ensures currentState == Idle && !timerArmed && TimerInStep(currentState, timerArmed)
    {
      this.iid, this.kind, this.name, this.tags := iid, kind, name, tags;
      this.channel, this.triggerType, this.duration := channel, triggerType, duration;
      actionGroups := groups;
      currentIndex := 0;
      currentState := Idle;
      timerArmed, timerPeriodMs := false, 0;
    }

    /** The timeout `arm_uncertain_timer` sets, for the clock readings passed in. */
    function TimeoutMs(ctx: LordContext.Context, wallClock: int, localHour: int): nat
    {
      UncertainMs(duration, Commons.GetCurrentTimestamp(wallClock), localHour, ctx.dayTimeStart, ctx.nightTimeStart)
    }

    /** Run the scene under the cursor and advance the cursor round-robin; without scenes, nothing happens. */
    method RunOwnScene(modes: ManagerBase.LordManager, spawned: bool)
      modifies this`currentIndex, modes`currMode
      modifies if currentIndex < |actionGroups| then {actionGroups[currentIndex]} else {}
      ensures currentIndex == Inputs.Stepped(old(currentIndex), |actionGroups|)
      ensures old(currentIndex) < |actionGroups| ==>
        (var g := actionGroups[old(currentIndex)];
         g.State(modes) == ActionGroups.Requested(old(g.State(modes)), "", spawned))
      ensures old(currentIndex) >= |actionGroups| ==> modes.currMode == old(modes.currMode)
    {
      if currentIndex < |actionGroups| {
        actionGroups[currentIndex].ExecuteAllAtomicAction("", modes, spawned);
        currentIndex := Inputs.NextCursor(currentIndex, |actionGroups|);
      }
    }

    /** An armed "any key" scene takes the trigger and keeps the cursor where it is; otherwise the own scene runs. */
    method RunAnyKeyOrOwnScene(ctx: LordContext.Context, groups: map<int, ActionGroups.ActionGroup>,
                               modes: ManagerBase.LordManager, spawned: bool)
      returns (tookAnyKey: bool)
      modifies ctx`anyKeyAid, this`currentIndex, modes`currMode
      modifies if ctx.anyKeyAid.Some? && ctx.anyKeyAid.value in groups then {groups[ctx.anyKeyAid.value]} else {}
      modifies if currentIndex < |actionGroups| then {actionGroups[currentIndex]} else {}
      ensures tookAnyKey <==> old(ctx.anyKeyAid).Some?
      ensures tookAnyKey ==> ctx.anyKeyAid == None && currentIndex == old(currentIndex)
      ensures tookAnyKey && old(ctx.anyKeyAid).value in groups ==>
        (var g := groups[old(ctx.anyKeyAid).value];
         g.State(modes) == ActionGroups.Requested(old(g.State(modes)), "", spawned))
      ensures tookAnyKey && old(ctx.anyKeyAid).value !in groups ==> modes.currMode == old(modes.currMode)
      ensures !tookAnyKey ==> ctx.anyKeyAid == old(ctx.anyKeyAid)
      ensures !tookAnyKey ==> currentIndex == Inputs.Stepped(old(currentIndex), |actionGroups|)
      ensures !tookAnyKey && old(currentIndex) < |actionGroups| ==>
        (var g := actionGroups[old(currentIndex)];
         g.State(modes) == ActionGroups.Requested(old(g.State(modes)), "", spawned))
      ensures !tookAnyKey && old(currentIndex) >= |actionGroups| ==> modes.currMode == old(modes.currMode)
    {
      tookAnyKey := ctx.ExecuteAnyKeyActionGroup(groups, modes, spawned);
      if !tookAnyKey {
        RunOwnScene(modes, spawned);
      }
    }

    /**
     * `execute`: a sleeping room wakes up (the caller then resynchronises
     * the backlights, reported by `woke`); unless the input carries the
     * ignore-any-key tag, an armed "any key" scene takes the trigger;
     * otherwise the own scene runs round-robin.
     */
    method Execute(ctx: LordContext.Context, groups: map<int, ActionGroups.ActionGroup>,
                   modes: ManagerBase.LordManager, spawned: bool)
      returns (woke: bool, tookAnyKey: bool)
      modifies ctx`heartbeatCode, ctx`anyKeyAid, this`currentIndex, modes`currMode
      modifies if ctx.anyKeyAid.Some? && ctx.anyKeyAid.value in groups then {groups[ctx.anyKeyAid.value]} else {}
      modifies if currentIndex < |actionGroups| then {actionGroups[currentIndex]} else {}
      ensures woke <==> old(ctx.IsSleep())
      ensures ctx.heartbeatCode == if woke then LordContext.ALIVE_BYTES else old(ctx.heartbeatCode)
      ensures tookAnyKey <==> Inputs.IgnoreAnyKeyExecute !in tags && old(ctx.anyKeyAid).Some?
      ensures tookAnyKey ==> ctx.anyKeyAid == None && currentIndex == old(currentIndex)
      ensures tookAnyKey && old(ctx.anyKeyAid).value in groups ==>
        (var g := groups[old(ctx.anyKeyAid).value];
         g.State(modes) == ActionGroups.Requested(old(g.State(modes)), "", spawned))
      ensures !tookAnyKey ==> ctx.anyKeyAid == old(ctx.anyKeyAid)
      ensures !tookAnyKey ==> currentIndex == Inputs.Stepped(old(currentIndex), |actionGroups|)
      ensures !tookAnyKey && old(currentIndex) < |actionGroups| ==>
        (var g := actionGroups[old(currentIndex)];
         g.State(modes) == ActionGroups.Requested(old(g.State(modes)), "", spawned))
      ensures (if tookAnyKey then old(ctx.anyKeyAid).value !in groups else old(currentIndex) >= |actionGroups|) ==>
        modes.currMode == old(modes.currMode)
    {
      woke := ctx.IsSleep();
      if woke {
        ctx.UseAliveHeartBeat();
      }
      if Inputs.IgnoreAnyKeyExecute !in tags {
        tookAnyKey := RunAnyKeyOrOwnScene(ctx, groups, modes, spawned);
      } else {
        tookAnyKey := false;
        RunOwnScene(modes, spawned);
      }
    }

    /** `arm_uncertain_timer`: (re)start the one-shot timer with the current day or night timeout. */
    method ArmUncertainTimer(ctx: LordContext.Context, wallClock: int, localHour: int)
      modifies this`timerArmed, this`timerPeriodMs
      ensures timerArmed && timerPeriodMs == TimeoutMs(ctx, wallClock, localHour)
    {
      timerArmed := true;
      timerPeriodMs := TimeoutMs(ctx, wallClock, localHour);
    }

    /**
     * `execute_infrared(state)` at uptime `nowMs`. An arrival at an idle
     * sensor stamps presence and runs the armed "any key" scene or the own
     * scene; it neither wakes the room nor honours the ignore-any-key tag.
     */
    method ExecuteInfrared(bit: byte, nowMs: int, wallClock: int, localHour: int, ctx: LordContext.Context,
                           groups: map<int, ActionGroups.ActionGroup>, modes: ManagerBase.LordManager, spawned: bool)
      modifies this`currentState, this`currentIndex, this`timerArmed, this`timerPeriodMs
      modifies ctx`lastPresenceTime, ctx`anyKeyAid, modes`currMode
      modifies if ctx.anyKeyAid.Some? && ctx.anyKeyAid.value in groups then {groups[ctx.anyKeyAid.value]} else {}
      modifies if currentIndex < |actionGroups| then {actionGroups[currentIndex]} else {}
      ensures var st := Sensed(old(currentState), bit);
        currentState == st.state
        && ctx.lastPresenceTime == (if st.present then nowMs else old(ctx.lastPresenceTime))
        && timerArmed == ArmedAfter(st, old(timerArmed))
        && timerPeriodMs == (if st.arm then TimeoutMs(ctx, wallClock, localHour) else old(timerPeriodMs))
      ensures TimerInStep(old(currentState), old(timerArmed)) ==> TimerInStep(currentState, timerArmed)
      ensures !Sensed(old(currentState), bit).runScene ==>
        ctx.anyKeyAid == old(ctx.anyKeyAid) && currentIndex == old(currentIndex) && modes.currMode == old(modes.currMode)
      ensures Sensed(old(currentState), bit).runScene && old(ctx.anyKeyAid).Some? ==>
        ctx.anyKeyAid == None && currentIndex == old(currentIndex)
      ensures Sensed(old(currentState), bit).runScene && old(ctx.anyKeyAid).None? ==>
        ctx.anyKeyAid == None && currentIndex == Inputs.Stepped(old(currentIndex), |actionGroups|)
      ensures Sensed(old(currentState), bit).runScene && old(ctx.anyKeyAid).Some? && old(ctx.anyKeyAid).value in groups ==>
        (var g := groups[old(ctx.anyKeyAid).value];
         g.State(modes) == ActionGroups.Requested(old(g.State(modes)), "", spawned))
      ensures Sensed(old(currentState), bit).runScene && old(ctx.anyKeyAid).None? && old(currentIndex) < |actionGroups| ==>
        (var g := actionGroups[old(currentIndex)];
         g.State(modes) == ActionGroups.Requested(old(g.State(modes)), "", spawned))
      ensures Sensed(old(currentState), bit).runScene &&
              (if old(ctx.anyKeyAid).Some? then old(ctx.anyKeyAid).value !in groups else old(currentIndex) >= |actionGroups|) ==>
        modes.currMode == old(modes.currMode)
    {
      ghost var st := Sensed(currentState, bit);
      if TimerInStep(currentState, timerArmed) {
        SensingKeepsTimerInStep(currentState, timerArmed, bit);
      }
      match currentState {
        case Idle =>
          if bit == 1 {
            currentState := Active;
            ctx.lastPresenceTime := nowMs;
            var _ := RunAnyKeyOrOwnScene(ctx, groups, modes, spawned);
          } else if bit == 0 {
            currentState := Uncertain;
            ArmUncertainTimer(ctx, wallClock, localHour);
          }
        case Active =>
          if bit == 0 {
            currentState := Uncertain;
            ArmUncertainTimer(ctx, wallClock, localHour);
          }
        case Uncertain =>
          if bit == 1 {
            currentState := Active;
            ctx.lastPresenceTime := nowMs;
            timerArmed := false;
          }
      }
    }

    /**
     * `uncertain_timer_callback` as written, at uptime `nowMs`: the
     * one-shot timer has expired; `fire` says whether the lord should run
     * the infrared-timeout inputs of this channel.
     */
    method UncertainTimerFiredAsWritten(ctx: LordContext.Context, nowMs: int, wallClock: int, localHour: int)
      returns (fire: bool)
      modifies this`currentState, this`timerArmed, this`timerPeriodMs
      ensures var e := ExpiredAsWritten(old(currentState), Inputs.IsAliveChannel in tags, GuardOf(ctx, nowMs));
        currentState == e.state && fire == e.fire && timerArmed == e.rearm
        && timerPeriodMs == (if e.rearm then TimeoutMs(ctx, wallClock, localHour) else old(timerPeriodMs))
    {
      timerArmed := false;
      fire := false;
      if currentState == Uncertain {
        currentState := Idle;
        if Inputs.IsAliveChannel in tags {
          if ctx.doorOpen {
            ArmUncertainTimer(ctx, wallClock, localHour);
            return;
          }
          if !(ctx.lastDoorCloseTime > ctx.lastPresenceTime) {
            return;
          }
          var idleMs := (nowMs - ctx.lastActionGroupTime) % U64;
          if idleMs < RECENT_SCENE_MS {
            ArmUncertainTimer(ctx, wallClock, localHour);
            return;
          }
        }
        fire := true;
      }
    }

    /** The timer expiry as evidently intended: a re-arm leaves the sensor uncertain, so the timer stays in step with it. */
    method UncertainTimerFired(ctx: LordContext.Context, nowMs: int, wallClock: int, localHour: int)
      returns (fire: bool)
      modifies this`currentState, this`timerArmed, this`timerPeriodMs
      ensures var e := Expired(old(currentState), Inputs.IsAliveChannel in tags, GuardOf(ctx, nowMs));
        currentState == e.state && fire == e.fire && timerArmed == e.rearm
        && timerPeriodMs == (if e.rearm then TimeoutMs(ctx, wallClock, localHour) else old(timerPeriodMs))
      ensures old(timerArmed) && TimerInStep(old(currentState), old(timerArmed)) ==> TimerInStep(currentState, timerArmed)
    {
      ExpiryKeepsTimerInStep(Inputs.IsAliveChannel in tags, GuardOf(ctx, nowMs));
      timerArmed := false;
      fire := false;
      if currentState == Uncertain {
        if Inputs.IsAliveChannel in tags {
          if ctx.doorOpen {
            ArmUncertainTimer(ctx, wallClock, localHour);
            return;
          }
          if !(ctx.lastDoorCloseTime > ctx.lastPresenceTime) {
            currentState := Idle;
            return;
          }
          var idleMs := (nowMs - ctx.lastActionGroupTime) % U64;
          if idleMs < RECENT_SCENE_MS {
            ArmUncertainTimer(ctx, wallClock, localHour);
            return;
          }
        }
        currentState := Idle;
        fire := true;
      }
    }
  }
}
