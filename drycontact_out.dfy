/**
 * A dry-contact output of the I/O board (drycontact_out.cpp). Unlike a
 * relay device it remembers its own on/off state.
 */
module DryContactOut {
  import opened Bytes
  import opened Wrappers
  import opened DeviceBase
  import RoomState
  import Indicator
  import PanelInput
  import Stm32Frames

  class DryContactOut {
    /** `IDevice` keeps the id in a `uint8_t`: the low eight bits of the constructor's `uint16_t` argument. */
    const did: byte
    const name: string
    const carryState: string
    const channel: byte
    var associatedButtons: seq<AssociatedButton>
    /** `current_state == State::ON`. */
    var currentState: bool

    constructor (did: uint16, name: string, carryState: string, channel: byte)
      ensures this.did == LowByte(did) && this.name == name && this.carryState == carryState && this.channel == channel
      ensures associatedButtons == [] && !currentState
    {
      this.did, this.name, this.carryState, this.channel := LowByte(did), name, carryState, channel;
      associatedButtons := [];
      currentState := false;
    }

    /** `addAssBtn`. */
    method AddAssBtn(pair: AssociatedButton)
      modifies this`associatedButtons
      ensures associatedButtons == old(associatedButtons) + [pair]
    {
      associatedButtons := associatedButtons + [pair];
    }

    /** `isOn`. */
    predicate IsOn()
      reads this
    {
      currentState
    }

    /** `open_self` (`on`) and `close_self` (`!on`): only opening closes the repelled devices. */
    method Switch(on: bool, rooms: RoomState.RoomStates, panels: map<byte, PanelInput.Panel>,
                  holder: Indicator.IndicatorHolder, board: Stm32Frames.Stm32Port, log: PropagationLog)
      requires rooms.Valid() && PanelsValid(panels) && holder.Valid()
      modifies this`currentState, rooms, panels.Values`buttonBlStates, holder, board, log
      ensures rooms.Valid() && PanelsValid(panels) && holder.Valid()
      ensures currentState == on
      ensures board.sent == old(board.sent) + [Stm32Frames.Built(Stm32Frames.CMD_DRYCONTACT_OUT_CONTROL, 0, channel, if on then 1 else 0, 0)]
      ensures Switched(on, carryState, associatedButtons, rooms, panels, holder)
      ensures log.effects == old(log.effects) + Propagated(did, on)
    {
      board.ControlDrycontactOut(channel, on);
      currentState := on;
      IndicateCarryAndPropagate(on, did, carryState, associatedButtons, rooms, panels, holder, log);
    }

    /** `execute`: the same operations as a relay device, "反转" going against the remembered state; anything else changes nothing. */
    method Execute(operation: string, rooms: RoomState.RoomStates, panels: map<byte, PanelInput.Panel>,
                   holder: Indicator.IndicatorHolder, board: Stm32Frames.Stm32Port, log: PropagationLog)
      requires rooms.Valid() && PanelsValid(panels) && holder.Valid()
      modifies this`currentState, rooms, panels.Values`buttonBlStates, holder, board, log
      ensures rooms.Valid() && PanelsValid(panels) && holder.Valid()
      ensures match SwitchTarget(operation, old(currentState))
        case Some(on) =>
          && currentState == on
          && board.sent == old(board.sent) + [Stm32Frames.Built(Stm32Frames.CMD_DRYCONTACT_OUT_CONTROL, 0, channel, if on then 1 else 0, 0)]
          && Switched(on, carryState, associatedButtons, rooms, panels, holder)
          && log.effects == old(log.effects) + Propagated(did, on)
        case None =>
          && currentState == old(currentState)
          && board.sent == old(board.sent) && Untouched(rooms, panels, holder) && log.effects == old(log.effects)
    {
      match SwitchTarget(operation, currentState) {
        case Some(on) => Switch(on, rooms, panels, holder, board, log);
        case None =>
      }
    }
  }

  /** "反转" twice returns a dry contact to where it was, since each flip goes against the remembered state. */
  lemma FlipTwiceRestores(isOn: bool)
    ensures SwitchTarget("反转", isOn) == Some(!isOn)
    ensures SwitchTarget("反转", SwitchTarget("反转", isOn).value) == Some(isOn)
  {
  }
}
