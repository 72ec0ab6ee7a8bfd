/**
 * A switched lamp (lamp.cpp): a relay channel that also remembers its own
 * state. It accepts only the long spellings "打开"/"关闭", and its link and
 * repel propagation is commented out.
 */
module Lamp {
  import opened Bytes
  import opened Wrappers
  import opened DeviceBase
  import RoomState
  import Indicator
  import PanelInput
  import Stm32Frames
  import LordContext

  /** What `Lamp::execute` does with `operation`, given the remembered state. */
  function LampTarget(operation: string, currentOn: bool): Option<bool>
  {
    if operation == "打开" then Some(true)
    else if operation == "关闭" then Some(false)
    else if operation == "反转" then Some(!currentOn)
    else None
  }

  /** The lamp switches on exactly the operations a relay switches on, except that the short spellings "开"/"关" are ignored. */
  lemma LampAcceptsLongFormsOnly(operation: string, currentOn: bool)
    ensures operation !in {"开", "关"} ==> LampTarget(operation, currentOn) == SwitchTarget(operation, currentOn)
    ensures LampTarget("开", currentOn) == None && LampTarget("关", currentOn) == None
  {
  }

  class Lamp {
    /** `IDevice` keeps the id in a `uint8_t`: the low eight bits of the constructor's `uint16_t` argument. */
    const did: byte
    const name: string
    const carryState: string
    const channel: byte
    var associatedButtons: seq<AssociatedButton>
    /** `current_state == State::ON`. */
    var currentState: bool

    constructor (did: uint16, name: string, carryState: string, channel: byte)
      ensures this.did == LowByte(did) && this.name == name && this.carryState == carryState && this.channel == channel
      ensures associatedButtons == [] && !currentState
    {
      this.did, this.name, this.carryState, this.channel := LowByte(did), name, carryState, channel;
      associatedButtons := [];
      currentState := false;
    }

    /** `addAssBtn`. */
    method AddAssBtn(pair: AssociatedButton)
      modifies this`associatedButtons
      ensures associatedButtons == old(associatedButtons) + [pair]
    {
      associatedButtons := associatedButtons + [pair];
    }

    /** `isOn`, inherited from the relay device: the state the board reported, not `current_state`. */
    predicate IsOn(ctx: LordContext.Context)
      reads ctx
    {
      ctx.ReadRelayPhysicsState(channel)
    }

    /** `open_lamp` (`on`) and `close_lamp` (`!on`): relay parameter 1 or 0, backlights and carried state follow, no propagation. */
    method Switch(on: bool, rooms: RoomState.RoomStates, panels: map<byte, PanelInput.Panel>,
                  holder: Indicator.IndicatorHolder, board: Stm32Frames.Stm32Port)
      requires rooms.Valid() && PanelsValid(panels) && holder.Valid()
      modifies this`currentState, rooms, panels.Values`buttonBlStates, holder, board
      ensures rooms.Valid() && PanelsValid(panels) && holder.Valid()
      ensures currentState == on
      ensures board.sent == old(board.sent) + [Stm32Frames.Built(Stm32Frames.CMD_RELAY_CONTROL, 0, channel, if on then 1 else 0, 0)]
      ensures Switched(on, carryState, associatedButtons, rooms, panels, holder)
    {
      board.SendStm32Cmd(Stm32Frames.CMD_RELAY_CONTROL, 0x00, channel, if on then 0x01 else 0x00, 0x00);
      currentState := on;
      IndicateAndCarry(on, carryState, associatedButtons, rooms, panels, holder);
    }

    /** `execute`. */
    method Execute(operation: string, rooms: RoomState.RoomStates, panels: map<byte, PanelInput.Panel>,
                   holder: Indicator.IndicatorHolder, board: Stm32Frames.Stm32Port)
      requires rooms.Valid() && PanelsValid(panels) && holder.Valid()
      modifies this`currentState, rooms, panels.Values`buttonBlStates, holder, board
      ensures rooms.Valid() && PanelsValid(panels) && holder.Valid()
      ensures match LampTarget(operation, old(currentState))
        case Some(on) =>
          && currentState == on
          && board.sent == old(board.sent) + [Stm32Frames.Built(Stm32Frames.CMD_RELAY_CONTROL, 0, channel, if on then 1 else 0, 0)]
          && Switched(on, carryState, associatedButtons, rooms, panels, holder)
        case None =>
          currentState == old(currentState) && board.sent == old(board.sent) && Untouched(rooms, panels, holder)
    {
      match LampTarget(operation, currentState) {
        case Some(on) => Switch(on, rooms, panels, holder, board);
        case None =>
      }
    }
  }
}
