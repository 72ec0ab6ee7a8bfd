/**
 * The frame exchanged with the I/O board over the second UART
 * (stm32_comm_types.h, stm32_tx.cpp): eight bytes `79 cmd board channel
 * p1 p2 cs 7C`, the checksum being the low byte of the sum of the first
 * six. The transmit side builds a frame field by field and writes it out.
 */
module Stm32Frames {
  import opened Bytes

  const FRAME_HEADER: byte := 0x79
  const FRAME_FOOTER: byte := 0x7C

  const CMD_RELAY_CONTROL: byte := 0x01
  const CMD_RELAY_QUERY: byte := 0x02
  const CMD_DRYCONTACT_OUT_CONTROL: byte := 0x05
  const CMD_DRYCONTACT_INPUT: byte := 0x07
  const CMD_DRYCONTACT_INPUT_QUERY: byte := 0x08
  const CMD_DRYCONTACT_INPUT_RESPONSE: byte := 0x09
  const CMD_VERSION_RESPONSE: byte := 0xFF

  /** `uart_frame_t`, field by field. */
  datatype Frame = Frame(header: byte, cmdType: byte, boardId: byte, channel: byte,
                         param1: byte, param2: byte, checksum: byte, footer: byte)

  /** The frame's bytes on the wire, in the struct's field order. */
  function ToBytes(f: Frame): (b: seq<byte>)
    ensures |b| == 8
  {
    [f.header, f.cmdType, f.boardId, f.channel, f.param1, f.param2, f.checksum, f.footer]
  }

  /** Eight received bytes read as a frame (the receiver fills the struct through a byte pointer). */
  function FromBytes(b: seq<byte>): (f: Frame)
    requires |b| == 8
    ensures ToBytes(f) == b
  {
    Frame(b[0], b[1], b[2], b[3], b[4], b[5], b[6], b[7])
  }

  /** Reading back the bytes of a frame gives the frame. */
  lemma BytesRoundTrip(f: Frame)
    ensures FromBytes(ToBytes(f)) == f
  {
  }

  /** The inline `calculate_checksum`: the six leading fields summed in a `uint8_t`. */
  function FrameChecksum(f: Frame): (c: byte)
    ensures c == Checksum(ToBytes(f)[..6])
  {
    assert ToBytes(f)[..6] == [f.header, f.cmdType, f.boardId, f.channel, f.param1, f.param2];
    SumOfSix(f.header, f.cmdType, f.boardId, f.channel, f.param1, f.param2);
    (f.header + f.cmdType + f.boardId + f.channel + f.param1 + f.param2) % 256
  }

  /** The checksum does not read the checksum or footer fields. */
  lemma ChecksumIgnoresTrailer(f: Frame, c: byte, t: byte)
    ensures FrameChecksum(f.(checksum := c, footer := t)) == FrameChecksum(f)
  {
    assert ToBytes(f.(checksum := c, footer := t))[..6] == ToBytes(f)[..6];
  }

  /** What the receive task demands of a complete frame before handling it: the footer and the checksum. */
  predicate Accepted(f: Frame)
  {
    f.footer == FRAME_FOOTER && f.checksum == FrameChecksum(f)
  }

  /** The frame `build_frame` produces: header, the five arguments in place, checksum, footer. */
  function Built(cmdType: byte, boardId: byte, channel: byte, param1: byte, param2: byte): (f: Frame)
    ensures f.header == FRAME_HEADER && f.footer == FRAME_FOOTER
    ensures f.cmdType == cmdType && f.boardId == boardId && f.channel == channel
    ensures f.param1 == param1 && f.param2 == param2
    ensures Accepted(f)
  {
    var f := Frame(FRAME_HEADER, cmdType, boardId, channel, param1, param2, 0, FRAME_FOOTER);
    ChecksumIgnoresTrailer(f, FrameChecksum(f), FRAME_FOOTER);
    f.(checksum := FrameChecksum(f))
  }

  /** Frames built from different arguments differ: the five arguments can be read back from the frame. */
  lemma BuiltInjective(c1: byte, b1: byte, ch1: byte, p1: byte, q1: byte, c2: byte, b2: byte, ch2: byte, p2: byte, q2: byte)
    requires Built(c1, b1, ch1, p1, q1) == Built(c2, b2, ch2, p2, q2)
    ensures c1 == c2 && b1 == b2 && ch1 == ch2 && p1 == p2 && q1 == q2
  {
  }

  /** A `uart_frame_t` in memory, written field by field. */
  class UartFrame {
    var header: byte
    var cmdType: byte
    var boardId: byte
    var channel: byte
    var param1: byte
    var param2: byte
    var checksum: byte
    var footer: byte

    constructor ()
    {
    }

    function Value(): Frame
      reads this
    {
      Frame(header, cmdType, boardId, channel, param1, param2, checksum, footer)
    }

    /** `build_frame`: fill every field through the out-pointer, the checksum after the fields it covers. */
    method BuildFrame(cmdType: byte, boardId: byte, channel: byte, param1: byte, param2: byte)
      modifies this
      ensures Value() == Built(cmdType, boardId, channel, param1, param2)
    {
      header := FRAME_HEADER;
      this.cmdType := cmdType;
      this.boardId := boardId;
      this.channel := channel;
      this.param1 := param1;
      this.param2 := param2;
      ChecksumIgnoresTrailer(Value(), 0, FRAME_FOOTER);
      checksum := FrameChecksum(Value());
      footer := FRAME_FOOTER;
      ChecksumIgnoresTrailer(Built(cmdType, boardId, channel, param1, param2), checksum, footer);
    }
  }

  /** The board UART's transmit side: every frame written, in order. */
  class Stm32Port {
    var sent: seq<Frame>

    constructor ()
      ensures sent == []
    {
      sent := [];
    }

    /** `send_frame`: write the frame's eight bytes. */
    method SendFrame(frame: UartFrame)
      modifies this
      ensures sent == old(sent) + [frame.Value()]
    {
      sent := sent + [frame.Value()];
    }

    /** Build a frame from the five arguments and send it. */
    method SendStm32Cmd(cmdType: byte, boardId: byte, channel: byte, param1: byte, param2: byte)
      modifies this
      ensures sent == old(sent) + [Built(cmdType, boardId, channel, param1, param2)]
    {
      var frame := new UartFrame();
      frame.BuildFrame(cmdType, boardId, channel, param1, param2);
      SendFrame(frame);
    }

    /** Switch relay `channel` of board 0 on or off. */
    method ControlRelay(channel: byte, on: bool)
      modifies this
      ensures sent == old(sent) + [Built(CMD_RELAY_CONTROL, 0x00, channel, if on then 1 else 0, 0x00)]
    {
      SendStm32Cmd(CMD_RELAY_CONTROL, 0x00, channel, if on then 1 else 0, 0x00);
    }

    /** Close or open dry-contact output `channel` of board 0. */
    method ControlDrycontactOut(channel: byte, on: bool)
      modifies this
      ensures sent == old(sent) + [Built(CMD_DRYCONTACT_OUT_CONTROL, 0x00, channel, if on then 1 else 0, 0x00)]
    {
      SendStm32Cmd(CMD_DRYCONTACT_OUT_CONTROL, 0x00, channel, if on then 1 else 0, 0x00);
    }
  }
}
