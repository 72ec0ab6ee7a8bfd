/**
 * Voice commands (voice_command.cpp, voice_command.h): an input that a
 * recognised phrase triggers. It runs its scenes round-robin like a panel
 * key, wakes a sleeping room, and never consults the "any key" scene.
 */
module VoiceCommand {
  import opened Bytes
  import Commons
  import Inputs
  import ActionGroups
  import ManagerBase
  import LordContext

  class VoiceCommand {
    const iid: int
    const name: string
    const tags: set<Inputs.InputTag>
    /** The phrase code, parsed from its hex string and stored as `uint8_t`, so a negative pair such as "-7" wraps. */
    const code: seq<byte>
    const actionGroups: seq<ActionGroups.ActionGroup>
    var currentIndex: byte

    constructor (iid: int, name: string, tags: set<Inputs.InputTag>, code: string, groups: seq<ActionGroups.ActionGroup>)
      ensures this.iid == iid && this.name == name && this.tags == tags
      ensures |this.code| == |Commons.HexToArray(code)|
      ensures forall k :: 0 <= k < |this.code| ==> this.code[k] == LowByte(Commons.HexToArray(code)[k])
      ensures actionGroups == groups && currentIndex == 0
    {
      this.iid, this.name, this.tags := iid, name, tags;
      var parsed := Commons.ParseHexToArray(code);
      this.code := seq(|parsed|, k requires 0 <= k < |parsed| => LowByte(parsed[k]));
      actionGroups := groups;
      currentIndex := 0;
    }

    /**
     * `execute`: a sleeping room switches to the alive heartbeat (`woke`;
     * the dry-contact outputs whose backlights it would resynchronise are
     * never registered, so that pass finds nothing); then the scene under
     * the cursor runs and the cursor advances round-robin. The "any key"
     * scene is neither run nor disarmed.
     */
    method Execute(ctx: LordContext.Context, modes: ManagerBase.LordManager, spawned: bool) returns (woke: bool)
      modifies ctx`heartbeatCode, this`currentIndex, modes`currMode
      modifies if currentIndex < |actionGroups| then {actionGroups[currentIndex]} else {}
      ensures woke <==> old(ctx.IsSleep())
      ensures ctx.heartbeatCode == if woke then LordContext.ALIVE_BYTES else old(ctx.heartbeatCode)
      ensures !ctx.IsSleep()
      ensures ctx.anyKeyAid == old(ctx.anyKeyAid)
      ensures currentIndex == Inputs.Stepped(old(currentIndex), |actionGroups|)
      ensures old(currentIndex) < |actionGroups| ==>
        (var g := actionGroups[old(currentIndex)];
         g.State(modes) == ActionGroups.Requested(old(g.State(modes)), "", spawned))
      ensures old(currentIndex) >= |actionGroups| ==> modes.currMode == old(modes.currMode)
    {
      woke := ctx.IsSleep();
      if woke {
        ctx.UseAliveHeartBeat();
      }
      LordContext.HeartbeatsAreFrames();
      if currentIndex < |actionGroups| {
        actionGroups[currentIndex].ExecuteAllAtomicAction("", modes, spawned);
        currentIndex := Inputs.NextCursor(currentIndex, |actionGroups|);
      }
    }
  }
}
