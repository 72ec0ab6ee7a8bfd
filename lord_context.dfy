/**
 * The state of the lord singleton (lord_manager.h) that inputs and preset
 * devices read and write besides the registries: the heartbeat frame the
 * bus keeps sending, the armed "any key" scene, the presence and door
 * timestamps, the day/night hours and the relay states the I/O board last
 * reported. The registries themselves live in `Lord.LordManager`.
 */
module LordContext {
  import opened Wrappers
  import opened Bytes
  import Commons
  import Rs485Frames
  import ActionGroups
  import ManagerBase

  /** The heartbeat sent while a card is in the slot (every device works). */
  const ALIVE_HEARTBEAT_CODE: string := "7FC0FFFF0080BD7E"
  /** The heartbeat sent while the room sleeps (panels dim their backlights). */
  const SLEEP_HEARTBEAT_CODE: string := "7FC0FFFF00003D7E"

  const ALIVE_BYTES: seq<int> := [0x7F, 0xC0, 0xFF, 0xFF, 0x00, 0x80, 0xBD, 0x7E]
  const SLEEP_BYTES: seq<int> := [0x7F, 0xC0, 0xFF, 0xFF, 0x00, 0x00, 0x3D, 0x7E]

  /** Both configured heartbeat strings parse to their eight bytes. */
  lemma HeartbeatCodesParse()
    ensures Commons.HexToArray(ALIVE_HEARTBEAT_CODE) == ALIVE_BYTES
    ensures Commons.HexToArray(SLEEP_HEARTBEAT_CODE) == SLEEP_BYTES
  {
    Commons.HexDigitsParse(ALIVE_HEARTBEAT_CODE);
    Commons.HexDigitsParse(SLEEP_HEARTBEAT_CODE);
  }

  /** Both heartbeats are well-formed bus frames: header, footer and a checksum the receiver accepts; they differ only in byte 5 and the checksum. */
  lemma HeartbeatsAreFrames()
    ensures Rs485Frames.ChecksumOk(ALIVE_BYTES) && Rs485Frames.ChecksumOk(SLEEP_BYTES)
    ensures ALIVE_BYTES[0] == SLEEP_BYTES[0] == Rs485Frames.FRAME_HEADER
    ensures ALIVE_BYTES[7] == SLEEP_BYTES[7] == Rs485Frames.FRAME_FOOTER
    ensures ALIVE_BYTES != SLEEP_BYTES
  {
    SumOfSix(0x7F, 0xC0, 0xFF, 0xFF, 0x00, 0x80);
    SumOfSix(0x7F, 0xC0, 0xFF, 0xFF, 0x00, 0x00);
    assert ALIVE_BYTES[..6] == [0x7F, 0xC0, 0xFF, 0xFF, 0x00, 0x80];
    assert SLEEP_BYTES[..6] == [0x7F, 0xC0, 0xFF, 0xFF, 0x00, 0x00];
  }

  /** `getAlive`: in this snapshot the card is always taken as present. */
  predicate GetAlive()
  {
    true
  }

  class Context {
    var heartbeatCode: seq<int>
    /** The scene armed by "生成任意键执行", if any. */
    var anyKeyAid: Option<int>
    var lastPresenceTime: int
    var lastDoorOpenTime: int
    var lastDoorCloseTime: int
    /** Written only by code that is commented out in this snapshot, so it keeps its initial value. */
    var lastActionGroupTime: int
    var doorOpen: bool
    /** The hours the day and the night begin, fixed by the configuration. */
    const dayTimeStart: int
    const nightTimeStart: int
    /** Relay channel to the on/off state the I/O board last reported. */
    var relayPhysics: map<int, bool>

    /** The singleton starts with the sleep heartbeat and nothing armed. */
    constructor (dayTimeStart: int, nightTimeStart: int)
      ensures heartbeatCode == Commons.HexToArray(SLEEP_HEARTBEAT_CODE) && anyKeyAid == None
      ensures lastPresenceTime == 0 && lastDoorOpenTime == 0 && lastDoorCloseTime == 0 && lastActionGroupTime == 0
      ensures !doorOpen && relayPhysics == map[]
      ensures this.dayTimeStart == dayTimeStart && this.nightTimeStart == nightTimeStart
    {
      var code := Commons.ParseHexToArray(SLEEP_HEARTBEAT_CODE);
      heartbeatCode := code;
      anyKeyAid := None;
      lastPresenceTime, lastDoorOpenTime, lastDoorCloseTime, lastActionGroupTime := 0, 0, 0, 0;
      doorOpen := false;
      this.dayTimeStart, this.nightTimeStart := dayTimeStart, nightTimeStart;
      relayPhysics := map[];
    }

    /** `useAliveHeartBeat`. */
    method UseAliveHeartBeat()
      modifies this`heartbeatCode
      ensures heartbeatCode == ALIVE_BYTES
    {
      heartbeatCode := Commons.ParseHexToArray(ALIVE_HEARTBEAT_CODE);
      HeartbeatCodesParse();
    }

    /** `useSleepHeartBeat`. */
    method UseSleepHeartBeat()
      modifies this`heartbeatCode
      ensures heartbeatCode == SLEEP_BYTES
    {
      heartbeatCode := Commons.ParseHexToArray(SLEEP_HEARTBEAT_CODE);
      HeartbeatCodesParse();
    }

    /** `isSleep`: the sleep heartbeat is the one being sent. */
    predicate IsSleep()
      reads this
    {
      heartbeatCode == SLEEP_BYTES
    }

    /** `setAnyKeyActionGroup`: the next input that honours "any key" runs scene `aid` instead of its own. */
    method SetAnyKeyActionGroup(aid: int)
      modifies this`anyKeyAid
      ensures anyKeyAid == Some(aid)
    {
      anyKeyAid := Some(aid);
    }

    /** `clearAnyKeyActionGroup`. */
    method ClearAnyKeyActionGroup()
      modifies this`anyKeyAid
      ensures anyKeyAid == None
    {
      anyKeyAid := None;
    }

    /**
     * `execute_any_key_action_group`: if a scene is armed, disarm it and
     * run it (when it is still registered); report whether one was armed.
     */
    method ExecuteAnyKeyActionGroup(groups: map<int, ActionGroups.ActionGroup>, modes: ManagerBase.LordManager, spawned: bool)
      returns (ran: bool)
      modifies this`anyKeyAid, modes`currMode
      modifies if anyKeyAid.Some? && anyKeyAid.value in groups then {groups[anyKeyAid.value]} else {}
      ensures ran <==> old(anyKeyAid).Some?
      ensures anyKeyAid == None
      ensures old(anyKeyAid).Some? && old(anyKeyAid).value in groups ==>
        (var g := groups[old(anyKeyAid).value];
         g.State(modes) == ActionGroups.Requested(old(g.State(modes)), "", spawned))
      ensures !(old(anyKeyAid).Some? && old(anyKeyAid).value in groups) ==> modes.currMode == old(modes.currMode)
    {
      match anyKeyAid {
        case None =>
          return false;
        case Some(aid) =>
          anyKeyAid := None;
          if aid in groups {
            groups[aid].ExecuteAllAtomicAction("", modes, spawned);
          }
          return true;
      }
    }

    /** `onDoorOpened`, at uptime `nowMs`. */
    method OnDoorOpened(nowMs: int)
      modifies this`doorOpen, this`lastDoorOpenTime
      ensures doorOpen && lastDoorOpenTime == nowMs
    {
      doorOpen := true;
      lastDoorOpenTime := nowMs;
    }

    /** `onDoorClosed`, at uptime `nowMs`. */
    method OnDoorClosed(nowMs: int)
      modifies this`doorOpen, this`lastDoorCloseTime
      ensures !doorOpen && lastDoorCloseTime == nowMs
    {
      doorOpen := false;
      lastDoorCloseTime := nowMs;
    }

    /** `updateRelayPhysicsState`: record what the board reports for a relay channel (non-zero is on). */
    method UpdateRelayPhysicsState(channel: int, state: int)
      modifies this`relayPhysics
      ensures relayPhysics == old(relayPhysics)[channel := state != 0]
    {
      relayPhysics := relayPhysics[channel := state != 0];
    }

    /** `readRelayPhysicsState`: a channel the board never reported reads as off. */
    function ReadRelayPhysicsState(channel: int): (on: bool)
      reads this
      ensures on <==> channel in relayPhysics && relayPhysics[channel]
    {
      channel in relayPhysics && relayPhysics[channel]
    }
  }
}
