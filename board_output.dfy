/**
 * One output channel of an I/O board (board_output.cpp, board_output.h):
 * closing or opening it sends one board frame and records the new state.
 * The frame is sent whatever the recorded state is.
 */
module BoardOutput {
  import opened Bytes
  import Stm32Frames

  /** `OutputType`. */
  datatype OutputType = Relay | DryContact | LightModulator

  /** `BoardOutput::State`. */
  datatype State = Connected | Disconnected

  /** The command a channel of type `t` is switched with: dry contacts have their own, everything else is a relay command. */
  function CommandFor(t: OutputType): (cmd: byte)
    ensures cmd == Stm32Frames.CMD_DRYCONTACT_OUT_CONTROL <==> t == DryContact
    ensures cmd == Stm32Frames.CMD_RELAY_CONTROL <==> t != DryContact
  {
    if t == DryContact then Stm32Frames.CMD_DRYCONTACT_OUT_CONTROL else Stm32Frames.CMD_RELAY_CONTROL
  }

  /** The frame that closes (`close`) or opens a channel. */
  function SwitchFrame(t: OutputType, boardId: byte, channel: byte, close: bool): Stm32Frames.Frame
  {
    Stm32Frames.Built(CommandFor(t), boardId, channel, if close then 1 else 0, 0)
  }

  /**
   * The two frames of a channel differ only in `param1`, which is 1 to
   * close and 0 to open; both carry the board and channel and pass the
   * receiver's checks.
   */
  lemma SwitchFramesDiffer(t: OutputType, boardId: byte, channel: byte)
    ensures SwitchFrame(t, boardId, channel, true).param1 == 1 && SwitchFrame(t, boardId, channel, false).param1 == 0
    ensures SwitchFrame(t, boardId, channel, true).cmdType == SwitchFrame(t, boardId, channel, false).cmdType
    ensures SwitchFrame(t, boardId, channel, true).param2 == SwitchFrame(t, boardId, channel, false).param2 == 0
    ensures forall close: bool :: SwitchFrame(t, boardId, channel, close).boardId == boardId && SwitchFrame(t, boardId, channel, close).channel == channel
    ensures forall close: bool :: Stm32Frames.Accepted(SwitchFrame(t, boardId, channel, close))
  {
  }

  /** On board 0, a relay channel is switched with exactly the frame the relay devices send. */
  lemma RelayChannelMatchesRelayDevices(channel: byte, close: bool)
    ensures SwitchFrame(Relay, 0, channel, close) == Stm32Frames.Built(Stm32Frames.CMD_RELAY_CONTROL, 0x00, channel, if close then 1 else 0, 0x00)
    ensures SwitchFrame(LightModulator, 0, channel, close) == SwitchFrame(Relay, 0, channel, close)
  {
  }

  class BoardOutput {
    const hostBoardId: byte
    const kind: OutputType
    const channel: byte
    const uid: int
    var currentState: State

    /** A channel starts disconnected. */
    constructor (hostBoardId: byte, kind: OutputType, channel: byte, uid: int)
      ensures this.hostBoardId == hostBoardId && this.kind == kind && this.channel == channel && this.uid == uid
      ensures currentState == Disconnected
    {
      this.hostBoardId, this.kind, this.channel, this.uid := hostBoardId, kind, channel, uid;
      currentState := Disconnected;
    }

    /** `connect`: build and send the closing frame, then record the channel as closed. */
    method Connect(board: Stm32Frames.Stm32Port)
      modifies this`currentState, board
      ensures currentState == Connected
      ensures board.sent == old(board.sent) + [SwitchFrame(kind, hostBoardId, channel, true)]
    {
      var cmdType: byte := 0x01;
      if kind == Relay {
        cmdType := 0x01;
      } else if kind == DryContact {
        cmdType := 0x05;
      }
      var param1: byte := 0x01;
      var frame := new Stm32Frames.UartFrame();
      frame.BuildFrame(cmdType, hostBoardId, channel, param1, 0x00);
      board.SendFrame(frame);
      currentState := Connected;
    }

    /** `disconnect`: build and send the opening frame, then record the channel as open. */
    method Disconnect(board: Stm32Frames.Stm32Port)
      modifies this`currentState, board
      ensures currentState == Disconnected
      ensures board.sent == old(board.sent) + [SwitchFrame(kind, hostBoardId, channel, false)]
    {
      var cmdType: byte := 0x01;
      if kind == Relay {
        cmdType := 0x01;
      } else if kind == DryContact {
        cmdType := 0x05;
      }
      var param1: byte := 0x00;
      var frame := new Stm32Frames.UartFrame();
      frame.BuildFrame(cmdType, hostBoardId, channel, param1, 0x00);
      board.SendFrame(frame);
      currentState := Disconnected;
    }
  }
}
