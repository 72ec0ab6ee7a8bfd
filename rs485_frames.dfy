/**
 * The frame layer of the RS485 bus (the low half of rs485_comm.cpp): the
 * 8-byte frame `7F p1 p2 p3 p4 p5 cs 7E`, its checksum over the first six
 * bytes, and the transmit queue that `sendRS485CMD` feeds.
 */
module Rs485Frames {
  import opened Bytes

  const FRAME_HEADER: byte := 0x7F
  const FRAME_FOOTER: byte := 0x7E
  const CMD_MAX_LEN: nat := 8

  const SWITCH_REPORT: byte := 0x00
  const SWITCH_WRITE: byte := 0x01
  const AIR_CON: byte := 0x16
  const AIR_CON_INQUIRE_XZ: byte := 0xA2
  const AIR_CON_CONTROL: byte := 0xA1
  const AIR_CON_INQUIRE: byte := 0xA0
  const AIR_CON_REPORT: byte := 0x08
  const INFRARED_CONTROLLER: byte := 0x77
  const ORACLE: byte := 0x79
  const ALL_TIME_SYNC: byte := 0x78
  const VOICE_CONTROL: byte := 0x80

  /** `calculate_checksum`: the low byte of the sum of the first six bytes, accumulated in a `uint8_t`. */
  method CalculateChecksum(data: seq<byte>) returns (checksum: byte)
    requires |data| >= 6
    ensures checksum == Checksum(data[..6])
  {
    checksum := 0;
    var i := 0;
    while i < 6
      invariant 0 <= i <= 6
      invariant checksum == Checksum(data[..i])
    {
      ChecksumStep(data, i);
      checksum := (checksum + data[i]) % 256;
      i := i + 1;
    }
  }

  /** What the receiver demands of a frame before it looks at any field: byte 6 is the checksum of bytes 0..5. */
  predicate ChecksumOk(data: seq<byte>)
  {
    |data| >= 7 && data[6] == Checksum(data[..6])
  }

  /** The frame `generate_response(p1, .., p5)` builds: header, the five parameters, checksum, footer. */
  function ResponseFrame(p1: byte, p2: byte, p3: byte, p4: byte, p5: byte): (f: seq<byte>)
    ensures |f| == CMD_MAX_LEN && f[0] == FRAME_HEADER && f[7] == FRAME_FOOTER
    ensures f[1..6] == [p1, p2, p3, p4, p5]
    ensures ChecksumOk(f)
  {
    var body := [FRAME_HEADER, p1, p2, p3, p4, p5];
    assert (body + [Checksum(body), FRAME_FOOTER])[..6] == body;
    body + [Checksum(body), FRAME_FOOTER]
  }

  /** A frame is determined by its five parameters: two different parameter lists never give the same bytes. */
  lemma ResponseFrameInjective(p1: byte, p2: byte, p3: byte, p4: byte, p5: byte,
                               q1: byte, q2: byte, q3: byte, q4: byte, q5: byte)
    requires ResponseFrame(p1, p2, p3, p4, p5) == ResponseFrame(q1, q2, q3, q4, q5)
    ensures [p1, p2, p3, p4, p5] == [q1, q2, q3, q4, q5]
  {
    assert ResponseFrame(p1, p2, p3, p4, p5)[1..6] == ResponseFrame(q1, q2, q3, q4, q5)[1..6];
  }

  /** What a queued command keeps of `data`: at most `RS485_CMD_MAX_LEN` bytes, from the front. */
  function Truncated(data: seq<byte>): (r: seq<byte>)
    ensures |r| <= CMD_MAX_LEN
    ensures r <= data
    ensures |data| <= CMD_MAX_LEN ==> r == data
  {
    if |data| > CMD_MAX_LEN then data[..CMD_MAX_LEN] else data
  }

  /** The transmit side of the bus: the queue the sender task drains onto the wire. */
  class Rs485Port {
    var queue: seq<seq<byte>>

    constructor ()
      ensures queue == []
    {
      queue := [];
    }

    /** `sendRS485CMD`: enqueue the command, truncated to the queue's fixed slot size. */
    method SendRs485Cmd(data: seq<byte>)
      modifies this
      ensures queue == old(queue) + [Truncated(data)]
    {
      queue := queue + [Truncated(data)];
    }

    /** `generate_response`: build the frame with its checksum and enqueue it whole. */
    method GenerateResponse(p1: byte, p2: byte, p3: byte, p4: byte, p5: byte)
      modifies this
      ensures queue == old(queue) + [ResponseFrame(p1, p2, p3, p4, p5)]
    {
      var command := [FRAME_HEADER, p1, p2, p3, p4, p5, 0x00, FRAME_FOOTER];
      var cs := CalculateChecksum(command);
      command := command[6 := cs];
      assert command[..6] == ResponseFrame(p1, p2, p3, p4, p5)[..6];
      assert command == ResponseFrame(p1, p2, p3, p4, p5);
      SendRs485Cmd(command);
    }
  }
}
