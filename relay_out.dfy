/**
 * A device switched by one relay of the I/O board (relay_out.cpp). Its
 * on/off state is not stored: it is whatever the board last reported for
 * the channel.
 */
module RelayOut {
  import opened Bytes
  import opened Wrappers
  import opened DeviceBase
  import RoomState
  import Indicator
  import PanelInput
  import Stm32Frames
  import LordContext

  class SingleRelayDevice {
    /** `IDevice` keeps the id in a `uint8_t`: the low eight bits of the constructor's `uint16_t` argument. */
    const did: byte
    const kind: DeviceType
    const name: string
    const carryState: string
    const channel: byte
    var associatedButtons: seq<AssociatedButton>

    /** The constructor's `updateButtonIndicator(initial_state)` runs before any button is associated, so it does nothing. */
    constructor (did: uint16, kind: DeviceType, name: string, carryState: string, channel: byte)
      ensures this.did == LowByte(did) && this.kind == kind && this.name == name
      ensures this.carryState == carryState && this.channel == channel && associatedButtons == []
    {
      this.did, this.kind, this.name, this.carryState, this.channel := LowByte(did), kind, name, carryState, channel;
      associatedButtons := [];
    }

    /** `addAssBtn`. */
    method AddAssBtn(pair: AssociatedButton)
      modifies this`associatedButtons
      ensures associatedButtons == old(associatedButtons) + [pair]
    {
      associatedButtons := associatedButtons + [pair];
    }

    /** `isOn`: the relay state the board last reported for this channel. */
    predicate IsOn(ctx: LordContext.Context)
      reads ctx
    {
      ctx.ReadRelayPhysicsState(channel)
    }

    /** `open_self` (`on`) and `close_self` (`!on`). */
    method Switch(on: bool, rooms: RoomState.RoomStates, panels: map<byte, PanelInput.Panel>,
                  holder: Indicator.IndicatorHolder, board: Stm32Frames.Stm32Port, log: PropagationLog)
      requires rooms.Valid() && PanelsValid(panels) && holder.Valid()
      modifies rooms, panels.Values`buttonBlStates, holder, board, log
      ensures rooms.Valid() && PanelsValid(panels) && holder.Valid()
      ensures board.sent == old(board.sent) + [Stm32Frames.Built(Stm32Frames.CMD_RELAY_CONTROL, 0, channel, if on then 1 else 0, 0)]
      ensures Switched(on, carryState, associatedButtons, rooms, panels, holder)
      ensures log.effects == old(log.effects) + Propagated(did, on)
    {
      board.ControlRelay(channel, on);
      IndicateCarryAndPropagate(on, did, carryState, associatedButtons, rooms, panels, holder, log);
    }

    /** `execute`: "开"/"打开" open, "关"/"关闭" close, "反转" goes against the reported state; anything else is ignored. */
    method Execute(operation: string, ctx: LordContext.Context, rooms: RoomState.RoomStates, panels: map<byte, PanelInput.Panel>,
                   holder: Indicator.IndicatorHolder, board: Stm32Frames.Stm32Port, log: PropagationLog)
      requires rooms.Valid() && PanelsValid(panels) && holder.Valid()
      modifies rooms, panels.Values`buttonBlStates, holder, board, log
      ensures rooms.Valid() && PanelsValid(panels) && holder.Valid()
      ensures match SwitchTarget(operation, old(IsOn(ctx)))
        case Some(on) =>
          && board.sent == old(board.sent) + [Stm32Frames.Built(Stm32Frames.CMD_RELAY_CONTROL, 0, channel, if on then 1 else 0, 0)]
          && Switched(on, carryState, associatedButtons, rooms, panels, holder)
          && log.effects == old(log.effects) + Propagated(did, on)
        case None =>
          board.sent == old(board.sent) && Untouched(rooms, panels, holder) && log.effects == old(log.effects)
    {
      match SwitchTarget(operation, IsOn(ctx)) {
        case Some(on) => Switch(on, rooms, panels, holder, board, log);
        case None =>
      }
    }

    /** `syncAssBtnToDevState`: set the associated backlights to the reported state. */
    method SyncAssBtnToDevState(ctx: LordContext.Context, panels: map<byte, PanelInput.Panel>, holder: Indicator.IndicatorHolder)
      requires PanelsValid(panels) && holder.Valid()
      modifies panels.Values`buttonBlStates, holder
      ensures PanelsValid(panels) && holder.Valid()
      ensures forall p :: p in panels ==>
        panels[p].buttonBlStates == Indicated(old(panels[p].buttonBlStates), View(panels), p, associatedButtons, IsOn(ctx))
      ensures holder.Contents() == Queued(old(holder.Contents()), View(panels), associatedButtons)
    {
      IndicateButtons(associatedButtons, IsOn(ctx), panels, holder);
    }
  }
}
