/**
 * The application half of the RS485 link (rs485_comm.cpp): the receive
 * task that cuts the bus into eight-byte frames, the handler that checks
 * each frame's checksum and dispatches it on its device type (panel key
 * reports, air-conditioner state and room temperature reports, and the
 * factory-test commands of the oracle tool), and the status frame the tool
 * asks for.
 */
module Rs485Comm {
  import opened Wrappers
  import opened Bytes
  import Rs485Frames
  import Rs485Session
  import Stm32Frames
  import Stm32Rx
  import Lord
  import RoomState
  import ManagerBase
  import PanelInput
  import Identity

  /*
   * ---------------------------------------------------------------------
   * Frame assembly
   * ---------------------------------------------------------------------
   */

  const FRAME_SIZE: nat := 8

  /** Where the receive task stands: waiting for a header, or collecting a frame of which `got` holds the bytes so far. */
  datatype Reception = Reception(receiving: bool, got: seq<byte>)

  const Waiting: Reception := Reception(false, [])

  /** A collecting state holds a header and fewer than eight bytes; a waiting one holds nothing. */
  predicate WellFormed(r: Reception)
  {
    if r.receiving then 1 <= |r.got| < FRAME_SIZE && r.got[0] == Rs485Frames.FRAME_HEADER
    else r.got == []
  }

  /**
   * One byte through the state machine: while waiting only the header
   * starts a frame; while collecting every byte is stored, and the eighth
   * ends the frame, after which the task waits again either way.
   */
  function Next(r: Reception, b: byte): (n: Reception)
    ensures WellFormed(r) ==> WellFormed(n)
  {
    if !r.receiving then
      if b == Rs485Frames.FRAME_HEADER then Reception(true, [b]) else r
    else if |r.got| + 1 >= FRAME_SIZE then Waiting
    else Reception(true, r.got + [b])
  }

  /** What the task checks of eight bytes before handing them on: header in front, footer last. The checksum is the handler's business. */
  predicate Framed(b: seq<byte>)
  {
    |b| == FRAME_SIZE && b[0] == Rs485Frames.FRAME_HEADER && b[FRAME_SIZE - 1] == Rs485Frames.FRAME_FOOTER
  }

  /** The frame a byte hands to the handler: only the eighth byte of a frame does, and only when the frame is framed. */
  function Out(r: Reception, b: byte): (f: Option<seq<byte>>)
    ensures f.Some? ==> Framed(f.value)
  {
    if r.receiving && |r.got| + 1 == FRAME_SIZE && Framed(r.got + [b]) then Some(r.got + [b]) else None
  }

  function Handed(f: Option<seq<byte>>): seq<seq<byte>>
  {
    if f.Some? then [f.value] else []
  }

  /** The state after a run of bytes. */
  function Final(r: Reception, bytes: seq<byte>): (f: Reception)
    ensures WellFormed(r) ==> WellFormed(f)
    decreases |bytes|
  {
    if |bytes| == 0 then r else Next(Final(r, bytes[..|bytes| - 1]), bytes[|bytes| - 1])
  }

  /** The frames a run of bytes hands to the handler, in order. */
  function Frames(r: Reception, bytes: seq<byte>): seq<seq<byte>>
    decreases |bytes|
  {
    if |bytes| == 0 then []
    else
      var init := bytes[..|bytes| - 1];
      Frames(r, init) + Handed(Out(Final(r, init), bytes[|bytes| - 1]))
  }

  lemma RunSnoc(r: Reception, s: seq<byte>, b: byte)
    ensures Final(r, s + [b]) == Next(Final(r, s), b)
    ensures Frames(r, s + [b]) == Frames(r, s) + Handed(Out(Final(r, s), b))
  {
    assert (s + [b])[..|s|] == s;
  }

  /** Running two pieces one after the other is running their concatenation. */
  lemma {:induction false} RunAppend(r: Reception, a: seq<byte>, b: seq<byte>)
    ensures Final(r, a + b) == Final(Final(r, a), b)
    ensures Frames(r, a + b) == Frames(r, a) + Frames(Final(r, a), b)
    decreases |b|
  {
    if |b| == 0 {
      assert a + b == a;
    } else {
      var b', x := b[..|b| - 1], b[|b| - 1];
      assert a + b == (a + b') + [x] && b == b' + [x];
      RunAppend(r, a, b');
      RunSnoc(r, a + b', x);
      RunSnoc(Final(r, a), b', x);
    }
  }

  /** While waiting, bytes other than the header are dropped without a trace. */
  lemma {:induction false} NoiseIsDropped(noise: seq<byte>)
    requires Rs485Frames.FRAME_HEADER !in noise
    ensures Final(Waiting, noise) == Waiting && Frames(Waiting, noise) == []
    decreases |noise|
  {
    if |noise| > 0 {
      var p := noise[..|noise| - 1];
      assert noise[|noise| - 1] in noise;
      assert forall x :: x in p ==> x in noise;
      NoiseIsDropped(p);
      assert p + [noise[|noise| - 1]] == noise;
      RunSnoc(Waiting, p, noise[|noise| - 1]);
    }
  }

  /** After a header and up to six more bytes, a waiting task is collecting exactly those bytes and has handed nothing on. */
  lemma {:induction false} Collecting(p: seq<byte>)
    requires 1 <= |p| < FRAME_SIZE && p[0] == Rs485Frames.FRAME_HEADER
    ensures Final(Waiting, p) == Reception(true, p)
    ensures Frames(Waiting, p) == []
  {
    var init, last := p[..|p| - 1], p[|p| - 1];
    assert init + [last] == p;
    assert Final(Waiting, p) == Next(Final(Waiting, init), last);
    assert Frames(Waiting, p) == Frames(Waiting, init) + Handed(Out(Final(Waiting, init), last));
    if |p| == 1 {
      assert init == [];
    } else {
      assert init[0] == p[0];
      Collecting(init);
      assert Next(Reception(true, init), last) == Reception(true, p);
      assert Out(Reception(true, init), last) == None;
    }
  }

  /**
   * Eight bytes starting with the header, fed to a waiting task, are read
   * as one frame, which is handed on iff it ends with the footer: a header
   * byte inside the frame does not restart it.
   */
  lemma EightBytesMakeAFrame(b: seq<byte>)
    requires |b| == FRAME_SIZE && b[0] == Rs485Frames.FRAME_HEADER
    ensures Final(Waiting, b) == Waiting
    ensures Frames(Waiting, b) == if Framed(b) then [b] else []
  {
    Collecting(b[..7]);
    RunSnoc(Waiting, b[..7], b[7]);
    assert b[..7] + [b[7]] == b;
  }

  /**
   * Whatever junk without a header byte precedes it, a frame built by
   * `generate_response` (on this side or the tool's) reaches the handler
   * intact and alone, and the handler's checksum test passes it.
   */
  lemma ResponseGetsThrough(noise: seq<byte>, p1: byte, p2: byte, p3: byte, p4: byte, p5: byte)
    requires Rs485Frames.FRAME_HEADER !in noise
    ensures var f := Rs485Frames.ResponseFrame(p1, p2, p3, p4, p5);
      Final(Waiting, noise + f) == Waiting && Frames(Waiting, noise + f) == [f]
      && RouteOf(f, true) != BadChecksum && RouteOf(f, false) != BadChecksum
  {
    var f := Rs485Frames.ResponseFrame(p1, p2, p3, p4, p5);
    NoiseIsDropped(noise);
    RunAppend(Waiting, noise, f);
    EightBytesMakeAFrame(f);
  }

  /** The receive task's frame buffer, its state flag and byte index. */
  class Rs485Receiver {
    const buffer: array<byte>
    var receiving: bool
    var byteIndex: nat

    ghost predicate Valid()
      reads this, buffer
    {
      && buffer.Length == FRAME_SIZE
      && (receiving ==> 1 <= byteIndex < FRAME_SIZE && buffer[0] == Rs485Frames.FRAME_HEADER)
    }

    /** The state machine's state the fields stand for; stale bytes do not count while waiting. */
    ghost function State(): (r: Reception)
      requires Valid()
      reads this, buffer
      ensures WellFormed(r)
    {
      if receiving then Reception(true, buffer[..byteIndex]) else Waiting
    }

    constructor ()
      ensures Valid() && State() == Waiting && fresh(buffer)
    {
      buffer := new byte[FRAME_SIZE];
      receiving, byteIndex := false, 0;
    }

    /** One byte read from the bus; the frame then handed to `handle_rs485_data`, if any. */
    method Feed(b: byte) returns (frame: Option<seq<byte>>)
      requires Valid()
      modifies this, buffer
      ensures Valid()
      ensures State() == Next(old(State()), b) && frame == Out(old(State()), b)
    {
      frame := None;
      if !receiving {
        if b == Rs485Frames.FRAME_HEADER {
          receiving := true;
          byteIndex := 0;
          buffer[byteIndex] := b;
          byteIndex := byteIndex + 1;
          assert buffer[..byteIndex] == [b];
        }
      } else {
        buffer[byteIndex] := b;
        byteIndex := byteIndex + 1;
        assert buffer[..byteIndex] == old(buffer[..byteIndex]) + [b];
        if byteIndex == FRAME_SIZE {
          assert buffer[..] == buffer[..byteIndex];
          if buffer[0] == Rs485Frames.FRAME_HEADER && buffer[FRAME_SIZE - 1] == Rs485Frames.FRAME_FOOTER {
            frame := Some(buffer[..]);
          }
          receiving := false;
        }
      }
    }

    /** Bytes read one after the other: the frames handed on, as the state machine runs them. */
    method Receive(bytes: seq<byte>) returns (frames: seq<seq<byte>>)
      requires Valid()
      modifies this, buffer
      ensures Valid()
      ensures State() == Final(old(State()), bytes) && frames == Frames(old(State()), bytes)
    {
      frames := [];
      var i := 0;
      while i < |bytes|
        invariant 0 <= i <= |bytes| && Valid()
        invariant State() == Final(old(State()), bytes[..i]) && frames == Frames(old(State()), bytes[..i])
      {
        assert bytes[..i + 1][..i] == bytes[..i];
        var f := Feed(bytes[i]);
        frames := frames + Handed(f);
        i := i + 1;
      }
      assert bytes[..i] == bytes;
    }
  }

  /*
   * ---------------------------------------------------------------------
   * Dispatch
   * ---------------------------------------------------------------------
   */

  /** Where `handle_rs485_data` sends a frame. */
  datatype Route =
    | BadChecksum
      /** A percentage dimming report (switch report, sub-type 1). */
    | Dimming(d3: byte, d4: byte, d5: byte)
    | PanelReport(pid: byte, target: byte, blState: byte)
    | Voice
    | AirReport(states: byte, temps: byte)
    | RoomTemp(airId: byte, temp: byte)
      /** A packet of an SSID or password transfer, taken only in test mode. */
    | Chunk(kind: Rs485Session.Kind, packet: Rs485Session.Packet)
      /** Any other oracle frame, for the command switch. */
    | Command(cmd: byte, d3: byte, d4: byte, d5: byte)
      /** A device type or sub-type the handler does nothing with. */
    | Ignored

  /**
   * The handler's decision on a frame, made before any state is touched:
   * the checksum first, then the device type in byte 1 and its sub-type in
   * byte 2; transfer packets are recognised only in test mode.
   */
  function RouteOf(data: seq<byte>, testMode: bool): (r: Route)
    requires |data| == FRAME_SIZE
    ensures r.BadChecksum? <==> !Rs485Frames.ChecksumOk(data)
    ensures r.Chunk? ==>
      && testMode && data[1] == Rs485Frames.ORACLE && Rs485Session.InRange(r.kind, data[2])
      && r.packet == Rs485Session.PacketOf(data)
    ensures r.Command? ==>
      && data[1] == Rs485Frames.ORACLE && r.cmd == data[2]
      && (testMode ==> !Rs485Session.InRange(Rs485Session.Ssid, r.cmd) && !Rs485Session.InRange(Rs485Session.Pass, r.cmd))
  {
    if !Rs485Frames.ChecksumOk(data) then BadChecksum
    else if data[1] == Rs485Frames.SWITCH_REPORT then
      if data[2] == 0x01 then Dimming(data[3], data[4], data[5]) else PanelReport(data[3], data[4], data[5])
    else if data[1] == Rs485Frames.VOICE_CONTROL then Voice
    else if data[1] == Rs485Frames.AIR_CON then
      if data[2] == Rs485Frames.AIR_CON_REPORT then AirReport(data[4], data[5]) else Ignored
    else if data[1] == Rs485Frames.INFRARED_CONTROLLER then
      if data[2] == 0x00 then RoomTemp(data[3], data[4]) else Ignored
    else if data[1] == Rs485Frames.ORACLE then
      if testMode && Rs485Session.InRange(Rs485Session.Ssid, data[2]) then Chunk(Rs485Session.Ssid, Rs485Session.PacketOf(data))
      else if testMode && Rs485Session.InRange(Rs485Session.Pass, data[2]) then Chunk(Rs485Session.Pass, Rs485Session.PacketOf(data))
      else Command(data[2], data[3], data[4], data[5])
    else Ignored
  }

  /** Two integers less than 256 apart, and not equal, leave different remainders modulo 256. */
  lemma ModDiffers(a: int, b: int)
    requires a != b && -256 < a - b < 256
    ensures a % 256 != b % 256
  {
    assert a == 256 * (a / 256) + a % 256;
    assert b == 256 * (b / 256) + b % 256;
  }

  /**
   * The checksum catches every single-byte error in the first seven bytes:
   * a frame that passed, with any one of them changed, is rejected.
   */
  lemma CorruptedByteIsRejected(data: seq<byte>, i: nat, v: byte, testMode: bool)
    requires |data| == FRAME_SIZE && Rs485Frames.ChecksumOk(data) && i < 7 && v != data[i]
    ensures RouteOf(data[i := v], testMode) == BadChecksum
  {
    var d := data[i := v];
    if i < 6 {
      assert data[..6] == [data[0], data[1], data[2], data[3], data[4], data[5]];
      assert d[..6] == [d[0], d[1], d[2], d[3], d[4], d[5]];
      SumOfSix(data[0], data[1], data[2], data[3], data[4], data[5]);
      SumOfSix(d[0], d[1], d[2], d[3], d[4], d[5]);
      assert Sum(d[..6]) - Sum(data[..6]) == v - data[i];
      ModDiffers(Sum(d[..6]), Sum(data[..6]));
    } else {
      assert d[..6] == data[..6];
    }
  }

  /**
   * A frame the oracle tool sends (`7F 79 cmd d3 d4 d5 cs 7E`) is read as
   * that command, or, in test mode, as a transfer packet when its number
   * lies in one of the two transfer ranges.
   */
  lemma OracleFrameRoute(cmd: byte, d3: byte, d4: byte, d5: byte, testMode: bool)
    ensures var r := RouteOf(Rs485Frames.ResponseFrame(Rs485Frames.ORACLE, cmd, d3, d4, d5), testMode);
      if testMode && Rs485Session.InRange(Rs485Session.Ssid, cmd) then r == Chunk(Rs485Session.Ssid, Rs485Session.Packet(cmd, d3, d4, d5))
      else if testMode && Rs485Session.InRange(Rs485Session.Pass, cmd) then r == Chunk(Rs485Session.Pass, Rs485Session.Packet(cmd, d3, d4, d5))
      else r == Command(cmd, d3, d4, d5)
  {
    var f := Rs485Frames.ResponseFrame(Rs485Frames.ORACLE, cmd, d3, d4, d5);
    assert f[1] == Rs485Frames.ORACLE && f[2] == cmd && f[3..6] == [d3, d4, d5];
  }

  /*
   * ---------------------------------------------------------------------
   * The test commands
   * ---------------------------------------------------------------------
   */

  const TEST_EXIT: byte := 0x00
  const TEST_ENTER: byte := 0x01
  const TEST_RELAY: byte := 0x02
  const TEST_DRY_OUT: byte := 0x03
  const TEST_MARQUEE: byte := 0x04
  const TEST_ALL: byte := 0x05
  const TEST_DRY_IN: byte := 0x06
  const TEST_DIMMER: byte := 0x07
  const TEST_NET: byte := 0x09
  const TEST_VERSION: byte := 0x0A
  const TEST_LOG: byte := 0x0B

  /** The answer to any command but enter and exit outside test mode. */
  const NOT_IN_TEST_MODE: byte := 0x79

  /** The board command the marquee test sends, and the one the dimming test sends. */
  const MARQUEE_CMD: byte := 0x07
  const DIMMER_CMD: byte := 0x03

  /** The relay and dry-contact output channels the all-on/all-off test drives. */
  const RELAY_CHANNELS: nat := 25
  const DRY_OUT_CHANNELS: nat := 8

  /** `AETHORAC_VERSION` "1.0.2", split into its parts. */
  const VERSION_MAJOR: byte := 1
  const VERSION_MINOR: byte := 0
  const VERSION_PATCH: byte := 2

  /** The network interfaces `network_current_type` reports. */
  datatype NetType = Wifi | Ethernet | NoNetwork

  /** What a frame asks of the rest of the firmware, beyond this component's own state and the two transmit queues. */
  datatype Effect =
    | NoEffect
      /** The key flags a panel report fired. */
    | PanelKeys(fired: seq<nat>)
      /** `save_wifi_credentials` with a complete SSID or password. */
    | Credential(kind: Rs485Session.Kind, text: seq<byte>)
      /** `change_network_type_and_reboot`. */
    | NetworkChange(net: NetType)
      /** The status frame, written straight to the UART rather than through the queue. */
    | StatusReport(frame: seq<byte>)

  /** What the handler is told of the world: the clocks, the serial number, the IP address, the network and the lord's inputs. */
  datatype Env = Env(nowUs: int, serial: string, ipRaw: nat, net: NetType,
                     alive: bool, nowMs: int, wallClock: int, localHour: int, spawned: bool)

  predicate EnvOk(env: Env)
  {
    (env.serial == "" || Identity.ValidSerial(env.serial)) && env.ipRaw < 0x1_0000_0000
  }

  /** Test mode after a command: enter sets it, exit clears it, anything else leaves it. */
  function ModeAfter(cmd: byte, testMode: bool): bool
  {
    if cmd == TEST_ENTER then true else if cmd == TEST_EXIT then false else testMode
  }

  /** The frames a command puts on the RS485 queue. */
  function Replies(cmd: byte, d5: byte, testMode: bool): (r: seq<seq<byte>>)
    ensures |r| <= 1
  {
    if cmd == TEST_ENTER then [Rs485Frames.ResponseFrame(Rs485Frames.ORACLE, TEST_ENTER, 0, 0, 0)]
    else if cmd == TEST_EXIT then [Rs485Frames.ResponseFrame(Rs485Frames.ORACLE, TEST_EXIT, 0, 0, 0)]
    else if !testMode then [Rs485Frames.ResponseFrame(Rs485Frames.ORACLE, NOT_IN_TEST_MODE, 0, 0, 0)]
    else if cmd == TEST_NET && (d5 == 1 || d5 == 2) then [Rs485Frames.ResponseFrame(Rs485Frames.ORACLE, TEST_NET, d5, 0, 0)]
    else if cmd == TEST_VERSION then [Rs485Frames.ResponseFrame(Rs485Frames.ORACLE, TEST_VERSION, VERSION_MAJOR, VERSION_MINOR, VERSION_PATCH)]
    else []
  }

  /** The frames a command sends to the I/O board, in order. */
  function BoardFrames(cmd: byte, d3: byte, d4: byte, d5: byte, testMode: bool): seq<Stm32Frames.Frame>
  {
    if !testMode then []
    else if cmd == TEST_RELAY then [Stm32Frames.Built(Stm32Frames.CMD_RELAY_CONTROL, d3, d4, d5, 0)]
    else if cmd == TEST_DRY_OUT then [Stm32Frames.Built(Stm32Frames.CMD_DRYCONTACT_OUT_CONTROL, d3, d4, d5, 0)]
    else if cmd == TEST_MARQUEE then [Stm32Frames.Built(MARQUEE_CMD, 0x02, 0x01, 0, 0)]
    else if cmd == TEST_ALL then AllControlFrames(d3, d5)
    else if cmd == TEST_DRY_IN then [Stm32Frames.Built(Stm32Frames.CMD_RELAY_CONTROL, 0, d4, d5, 0)]
    else if cmd == TEST_DIMMER then [Stm32Frames.Built(DIMMER_CMD, 0, d3, d4, d5)]
    else []
  }

  /** The all-on/all-off test: relays 1 to 25, then dry-contact outputs 1 to 8, all of board `boardId`, all to `state`. */
  function AllControlFrames(boardId: byte, state: byte): seq<Stm32Frames.Frame>
  {
    seq(RELAY_CHANNELS, i requires 0 <= i < RELAY_CHANNELS => Stm32Frames.Built(Stm32Frames.CMD_RELAY_CONTROL, boardId, i + 1, state, 0))
    + seq(DRY_OUT_CHANNELS, i requires 0 <= i < DRY_OUT_CHANNELS => Stm32Frames.Built(Stm32Frames.CMD_DRYCONTACT_OUT_CONTROL, boardId, i + 1, state, 0))
  }

  /** What a command asks of the rest of the firmware: a network switch or, on a query, the status frame. */
  function CommandEffect(cmd: byte, d5: byte, testMode: bool, env: Env): Effect
    requires EnvOk(env)
  {
    if !testMode || cmd != TEST_NET then NoEffect
    else if d5 == 1 then NetworkChange(Wifi)
    else if d5 == 2 then NetworkChange(Ethernet)
    else if d5 == 0 then StatusReport(StatusFrame(Identity.SerialNumber(env.serial), env.ipRaw, env.net))
    else NoEffect
  }

  /**
   * Outside test mode every command but enter and exit is refused: one
   * "not in test mode" reply, nothing sent to the board, no effect, and
   * test mode stays off.
   */
  lemma RefusedOutsideTestMode(cmd: byte, d3: byte, d4: byte, d5: byte, env: Env)
    requires cmd != TEST_ENTER && cmd != TEST_EXIT && EnvOk(env)
    ensures Replies(cmd, d5, false) == [Rs485Frames.ResponseFrame(Rs485Frames.ORACLE, NOT_IN_TEST_MODE, 0, 0, 0)]
    ensures BoardFrames(cmd, d3, d4, d5, false) == [] && CommandEffect(cmd, d5, false, env) == NoEffect
    ensures !ModeAfter(cmd, false)
  {
  }

  /** Every relay channel 1..25 and every dry-contact output 1..8 of the board gets exactly one frame, relays first. */
  lemma AllControlCoversEveryChannel(boardId: byte, state: byte)
    ensures var fs := AllControlFrames(boardId, state);
      && |fs| == RELAY_CHANNELS + DRY_OUT_CHANNELS
      && (forall k :: 0 <= k < |fs| ==> fs[k].boardId == boardId && fs[k].param1 == state && Stm32Frames.Accepted(fs[k]))
      && (forall ch :: 1 <= ch <= RELAY_CHANNELS ==>
            fs[ch - 1] == Stm32Frames.Built(Stm32Frames.CMD_RELAY_CONTROL, boardId, ch, state, 0)
            && forall k :: 0 <= k < |fs| && fs[k].cmdType == Stm32Frames.CMD_RELAY_CONTROL && fs[k].channel == ch ==> k == ch - 1)
      && (forall ch :: 1 <= ch <= DRY_OUT_CHANNELS ==>
            fs[RELAY_CHANNELS + ch - 1] == Stm32Frames.Built(Stm32Frames.CMD_DRYCONTACT_OUT_CONTROL, boardId, ch, state, 0)
            && forall k :: 0 <= k < |fs| && fs[k].cmdType == Stm32Frames.CMD_DRYCONTACT_OUT_CONTROL && fs[k].channel == ch ==> k == RELAY_CHANNELS + ch - 1)
  {
    var fs := AllControlFrames(boardId, state);
    assert forall k :: 0 <= k < RELAY_CHANNELS ==> fs[k] == Stm32Frames.Built(Stm32Frames.CMD_RELAY_CONTROL, boardId, k + 1, state, 0);
    assert forall k :: RELAY_CHANNELS <= k < |fs| ==>
      fs[k] == Stm32Frames.Built(Stm32Frames.CMD_DRYCONTACT_OUT_CONTROL, boardId, k - RELAY_CHANNELS + 1, state, 0);
  }

  /*
   * ---------------------------------------------------------------------
   * The status frame
   * ---------------------------------------------------------------------
   */

  const STATUS_TYPE: byte := 0x11
  const STATUS_SIZE: nat := 14

  /** Four bytes, most significant first. */
  function BigEndian(r: seq<byte>): nat
    requires |r| == 4
  {
    ((r[0] as int * 256 + r[1]) * 256 + r[2]) * 256 + r[3]
  }

  /** Four bytes, least significant first. */
  function LittleEndian(r: seq<byte>): nat
    requires |r| == 4
  {
    ((r[3] as int * 256 + r[2]) * 256 + r[1]) * 256 + r[0]
  }

  /** A 32-bit value's bytes, shifted out eight bits at a time, most significant first. */
  function Be32(x: nat): (r: seq<byte>)
    requires x < 0x1_0000_0000
    ensures |r| == 4 && BigEndian(r) == x
  {
    var q1 := x / 256;
    var q2 := q1 / 256;
    var q3 := q2 / 256;
    assert q1 < 0x100_0000 && q2 < 0x1_0000 && q3 < 256;
    [q3 % 256, q2 % 256, q1 % 256, x % 256]
  }

  /** A 32-bit value's bytes, least significant first. */
  function Le32(x: nat): (r: seq<byte>)
    requires x < 0x1_0000_0000
    ensures |r| == 4 && LittleEndian(r) == x
  {
    var b := Be32(x);
    [b[3], b[2], b[1], b[0]]
  }

  function NetByte(net: NetType): byte
  {
    match net
    case Wifi => 0x01
    case Ethernet => 0x02
    case NoNetwork => 0x00
  }

  /**
   * The 14-byte frame `report_net_state_to_rs485` writes: header, oracle
   * type, status type, the serial number most significant byte first, the
   * IPv4 address in memory order, the network byte, the checksum of the
   * twelve bytes before it, and the footer.
   */
  function StatusFrame(serialNum: nat, ipRaw: nat, net: NetType): (f: seq<byte>)
    requires serialNum < 0x1_0000_0000 && ipRaw < 0x1_0000_0000
    ensures |f| == STATUS_SIZE && f[0] == Rs485Frames.FRAME_HEADER && f[1] == Rs485Frames.ORACLE
    ensures f[2] == STATUS_TYPE && f[13] == Rs485Frames.FRAME_FOOTER
    ensures BigEndian(f[3..7]) == serialNum && LittleEndian(f[7..11]) == ipRaw && f[11] == NetByte(net)
    ensures f[12] == Checksum(f[..12])
  {
    var body := [Rs485Frames.FRAME_HEADER, Rs485Frames.ORACLE, STATUS_TYPE] + Be32(serialNum) + Le32(ipRaw) + [NetByte(net)];
    var f := body + [Checksum(body), Rs485Frames.FRAME_FOOTER];
    assert f[3..7] == Be32(serialNum) && f[7..11] == Le32(ipRaw) && f[..12] == body;
    f
  }

  /** `report_net_state_to_rs485`, with the IP address, the serial number and the network type as its inputs. */
  method ReportNetState(serial: string, ipRaw: nat, net: NetType) returns (frame: seq<byte>)
    requires serial == "" || Identity.ValidSerial(serial)
    requires ipRaw < 0x1_0000_0000
    ensures frame == StatusFrame(Identity.SerialNumber(serial), ipRaw, net)
  {
    var serialNum := Identity.SerialNumber(serial);
    var body := [Rs485Frames.FRAME_HEADER, Rs485Frames.ORACLE, STATUS_TYPE] + Be32(serialNum) + Le32(ipRaw) + [NetByte(net)];
    var f := body + [0x00, Rs485Frames.FRAME_FOOTER];
    var checksum: byte := 0;
    var i := 0;
    while i < 12
      invariant 0 <= i <= 12
      invariant checksum == Checksum(f[..i])
    {
      ChecksumStep(f, i);
      checksum := (checksum + f[i]) % 256;
      i := i + 1;
    }
    assert f[..12] == body;
    frame := f[12 := checksum];
    assert frame == body + [Checksum(body), Rs485Frames.FRAME_FOOTER];
  }

  /*
   * ---------------------------------------------------------------------
   * The component
   * ---------------------------------------------------------------------
   */

  /** The other transfer kind. */
  function Other(k: Rs485Session.Kind): Rs485Session.Kind
  {
    if k == Rs485Session.Ssid then Rs485Session.Pass else Rs485Session.Ssid
  }

  /** What a transfer packet asks of the rest of the firmware: the credential it completes, if any. */
  function SavedEffect(k: Rs485Session.Kind, saved: Option<seq<byte>>): Effect
  {
    if saved.Some? then Credential(k, saved.value) else NoEffect
  }

  /**
   * The lord's objects a device frame may change: the air-conditioner
   * units, and the panel the frame names, with its buttons and their scenes.
   */
  ghost function DeviceObjects(lord: Lord.LordManager, pid: byte): set<object>
    reads lord, lord.panels.Values
  {
    lord.Fcus() + lord.Irs()
    + if pid in lord.panels then {lord.panels[pid] as object} + lord.panels[pid].Buttons() + lord.panels[pid].Scenes() else {}
  }

  /** The device objects are none of the component's own objects, and not the lord itself. */
  lemma DeviceObjectsApart(c: Rs485Comm, lord: Lord.LordManager, pid: byte)
    ensures c !in DeviceObjects(lord, pid) && c.ssid !in DeviceObjects(lord, pid) && c.pass !in DeviceObjects(lord, pid)
    ensures lord !in DeviceObjects(lord, pid)
  {
  }

  /**
   * What a device frame leaves behind: a panel report hands the keys to
   * the panel, an air-conditioner report updates the matching units and
   * leaves the others alone, a temperature report sets the matching units'
   * room temperature, and nothing else touches the modes.
   */
  twostate predicate DeviceHandled(data: seq<byte>, lord: Lord.LordManager, modes: ManagerBase.LordManager, effect: Effect)
    requires |data| == FRAME_SIZE && data[1] != Rs485Frames.ORACLE
    requires unchanged(lord)
    reads lord, lord.panels.Values, lord.Fcus(), lord.Irs(), modes
  {
    var r := RouteOf(data, false);
    && (!r.PanelReport? ==> modes.currMode == old(modes.currMode))
    && (r.BadChecksum? || r.Dimming? || r.Voice? || r.Ignored? ==> effect == NoEffect)
    && (r.PanelReport? ==>
          && effect.PanelKeys?
          && (r.pid !in lord.panels ==> effect.fired == [])
          && (r.pid in lord.panels ==>
                var p := lord.panels[r.pid];
                && p.buttonBlStates == r.blState as bv8
                && p.buttonOperationFlags == PanelInput.FlagsAfter(r.target as bv8)
                && effect.fired == PanelInput.Fired(r.target as bv8, old(p.buttonOperationFlags), p.buttonsMap.Keys, 8)))
    && (r.AirReport? ==>
          && effect == NoEffect
          && (forall f :: f in lord.Fcus() ==> if f.acId == r.states % 8 then Lord.FcuTook(f, r.states, r.temps) else unchanged(f))
          && (forall a :: a in lord.Irs() ==> if a.acId == r.states % 8 then Lord.IrTook(a, r.states, r.temps) else unchanged(a)))
    && (r.RoomTemp? ==>
          && effect == NoEffect
          && (forall f :: f in lord.Fcus() ==> f.roomTemp == if f.acId == r.airId then r.temp else old(f.roomTemp))
          && (forall a :: a in lord.Irs() ==> a.roomTemp == if a.acId == r.airId then r.temp else old(a.roomTemp)))
  }

  /**
   * The component's statics: test mode, whether the timeout task exists,
   * the RS485 and board log switches, the two transfer receivers, and the
   * two transmit paths it uses.
   */
  class Rs485Comm {
    var testMode: bool
    var oracleTask: bool
    var rs485Log: bool
    var stm32Log: bool
    const ssid: Rs485Session.ChunkReceiver
    const pass: Rs485Session.ChunkReceiver
    const port: Rs485Frames.Rs485Port
    const board: Stm32Frames.Stm32Port
    /**
     * When a transfer's two seconds start. The firmware as written sets the
     * start time on the first packet only (rs485_comm.cpp:261, 312):
     * `FromFirstPacket`. `FromLatestPacket` is the corrected rule.
     */
    const timing: Rs485Session.Timeout

    /**
     * Two separate receivers, one per kind, both under the component's
     * timing; the timeout task exists exactly while test mode is on.
     */
    ghost predicate Valid()
      reads this, ssid, pass
    {
      && ssid.Valid() && pass.Valid()
      && ssid.kind == Rs485Session.Ssid && pass.kind == Rs485Session.Pass
      && ssid.policy == timing && pass.policy == timing
      && ssid != pass && ssid.buf != pass.buf
      && oracleTask == testMode
    }

    function Receiver(k: Rs485Session.Kind): Rs485Session.ChunkReceiver
    {
      if k == Rs485Session.Ssid then ssid else pass
    }

    constructor (port: Rs485Frames.Rs485Port, board: Stm32Frames.Stm32Port, timing: Rs485Session.Timeout)
      ensures Valid() && !testMode && !rs485Log && !stm32Log && this.timing == timing
      ensures ssid.State() == Rs485Session.Idle && pass.State() == Rs485Session.Idle
      ensures this.port == port && this.board == board
      ensures fresh(ssid) && fresh(pass) && fresh(ssid.buf) && fresh(pass.buf)
    {
      testMode, oracleTask, rs485Log, stm32Log := false, false, false, false;
      ssid := new Rs485Session.ChunkReceiver(Rs485Session.Ssid, timing);
      pass := new Rs485Session.ChunkReceiver(Rs485Session.Pass, timing);
      this.port := port;
      this.board := board;
      this.timing := timing;
    }

    /** `periodic_oracle_task`, one pass at time `now`: each open transfer older than the timeout is dropped. */
    method PeriodicOracleTask(now: int)
      requires Valid() && oracleTask
      modifies ssid, ssid.buf, pass, pass.buf
      ensures Valid()
      ensures ssid.State() == Rs485Session.Tick(old(ssid.State()), now)
      ensures pass.State() == Rs485Session.Tick(old(pass.State()), now)
    {
      ssid.TimeoutCheck(now);
      pass.TimeoutCheck(now);
    }

    /** A transfer packet: the receiver of its kind steps, the other is untouched. */
    method OnChunk(k: Rs485Session.Kind, p: Rs485Session.Packet, now: int) returns (effect: Effect)
      requires Valid() && Rs485Session.InRange(k, p.id)
      modifies ssid, ssid.buf, pass, pass.buf, port
      ensures Valid()
      ensures Receiver(k).State() == Rs485Session.Step(k, old(Receiver(k).State()), p, now, timing)
      ensures Receiver(Other(k)).State() == old(Receiver(Other(k)).State())
      ensures port.queue == old(port.queue) + Rs485Session.Acks(k, old(Receiver(k).State()), p)
      ensures effect == SavedEffect(k, Rs485Session.Saved(k, old(Receiver(k).State()), p))
    {
      var saved := Receiver(k).OnPacket(p, now, port);
      effect := SavedEffect(k, saved);
    }

    /** All relays, then all dry-contact outputs, of one board to one state. */
    method AllControl(boardId: byte, state: byte)
      modifies board
      ensures board.sent == old(board.sent) + AllControlFrames(boardId, state)
    {
      var frame := new Stm32Frames.UartFrame();
      var i: byte := 1;
      while i <= RELAY_CHANNELS as byte
        invariant 1 <= i <= RELAY_CHANNELS as byte + 1
        invariant board.sent == old(board.sent) + AllControlFrames(boardId, state)[..i - 1]
      {
        frame.BuildFrame(Stm32Frames.CMD_RELAY_CONTROL, boardId, i, state, 0);
        board.SendFrame(frame);
        assert AllControlFrames(boardId, state)[..i] == AllControlFrames(boardId, state)[..i - 1]
          + [Stm32Frames.Built(Stm32Frames.CMD_RELAY_CONTROL, boardId, i, state, 0)];
        i := i + 1;
      }
      i := 1;
      while i <= DRY_OUT_CHANNELS as byte
        invariant 1 <= i <= DRY_OUT_CHANNELS as byte + 1
        invariant board.sent == old(board.sent) + AllControlFrames(boardId, state)[..RELAY_CHANNELS + i - 1]
      {
        frame.BuildFrame(Stm32Frames.CMD_DRYCONTACT_OUT_CONTROL, boardId, i, state, 0);
        board.SendFrame(frame);
        assert AllControlFrames(boardId, state)[..RELAY_CHANNELS + i] == AllControlFrames(boardId, state)[..RELAY_CHANNELS + i - 1]
          + [Stm32Frames.Built(Stm32Frames.CMD_DRYCONTACT_OUT_CONTROL, boardId, i, state, 0)];
        i := i + 1;
      }
      assert AllControlFrames(boardId, state)[..RELAY_CHANNELS + DRY_OUT_CHANNELS] == AllControlFrames(boardId, state);
    }

    /**
     * The command switch. Enter and exit act in any mode; every other
     * command acts only in test mode and otherwise falls through to the
     * default, which answers "not in test mode" outside test mode and only
     * logs inside it.
     */
    method OnCommand(cmd: byte, d3: byte, d4: byte, d5: byte, lord: Lord.LordManager, rooms: RoomState.RoomStates,
                     modes: ManagerBase.LordManager, env: Env)
      returns (effect: Effect)
      requires Valid() && lord.Valid() && EnvOk(env)
      modifies this, port, board, lord.ctx, modes, lord.channelInputs.Values, lord.actionGroups.Values, Stm32Rx.InputScenes(lord)
      ensures Valid()
      ensures testMode == ModeAfter(cmd, old(testMode))
      ensures stm32Log == if old(testMode) && cmd == TEST_LOG && d4 == 0 then d5 != 0 else old(stm32Log)
      ensures rs485Log == if old(testMode) && cmd == TEST_LOG && d4 == 1 then d5 != 0 else old(rs485Log)
      ensures port.queue == old(port.queue) + Replies(cmd, d5, old(testMode))
      ensures board.sent == old(board.sent) + BoardFrames(cmd, d3, d4, d5, old(testMode))
      ensures effect == CommandEffect(cmd, d5, old(testMode), env)
      ensures unchanged(lord.ctx) && modes.currMode == old(modes.currMode)
    {
      effect := NoEffect;
      if cmd == TEST_ENTER {
        testMode := true;
        if !oracleTask {
          oracleTask := true;
        }
        port.GenerateResponse(Rs485Frames.ORACLE, TEST_ENTER, 0, 0, 0);
      } else if cmd == TEST_EXIT {
        testMode := false;
        if oracleTask {
          oracleTask := false;
        }
        port.GenerateResponse(Rs485Frames.ORACLE, TEST_EXIT, 0, 0, 0);
      } else if !testMode {
        port.GenerateResponse(Rs485Frames.ORACLE, NOT_IN_TEST_MODE, 0, 0, 0);
      } else {
        effect := OnTestCommand(cmd, d3, d4, d5, lord, rooms, modes, env);
      }
    }

    /** A command other than enter and exit, in test mode. */
    method OnTestCommand(cmd: byte, d3: byte, d4: byte, d5: byte, lord: Lord.LordManager, rooms: RoomState.RoomStates,
                         modes: ManagerBase.LordManager, env: Env)
      returns (effect: Effect)
      requires testMode && cmd != TEST_ENTER && cmd != TEST_EXIT && lord.Valid() && EnvOk(env)
      modifies this, port, board
      modifies lord.ctx, modes, lord.channelInputs.Values, lord.actionGroups.Values, Stm32Rx.InputScenes(lord)
      ensures testMode && oracleTask == old(oracleTask)
      ensures stm32Log == if cmd == TEST_LOG && d4 == 0 then d5 != 0 else old(stm32Log)
      ensures rs485Log == if cmd == TEST_LOG && d4 == 1 then d5 != 0 else old(rs485Log)
      ensures port.queue == old(port.queue) + Replies(cmd, d5, true)
      ensures board.sent == old(board.sent) + BoardFrames(cmd, d3, d4, d5, true)
      ensures effect == CommandEffect(cmd, d5, true, env)
      ensures unchanged(lord.ctx) && modes.currMode == old(modes.currMode)
    {
      effect := NoEffect;
      if cmd == TEST_DRY_IN {
        var frame := Stm32Frames.Built(Stm32Frames.CMD_DRYCONTACT_INPUT, 0x00, d4, d5, 0x00);
        var _ := Stm32Rx.HandleResponse(frame, testMode, env.alive, lord, rooms, modes, board,
                                        env.nowMs, env.wallClock, env.localHour, env.spawned);
      } else if cmd == TEST_NET {
        effect := OnNetCommand(d5, env);
      } else if cmd == TEST_VERSION {
        port.GenerateResponse(Rs485Frames.ORACLE, TEST_VERSION, VERSION_MAJOR, VERSION_MINOR, VERSION_PATCH);
      } else if cmd == TEST_LOG {
        if d4 == 0x00 {
          stm32Log := d5 != 0;
        } else if d4 == 0x01 {
          rs485Log := d5 != 0;
        }
      } else {
        SendBoardCommand(cmd, d3, d4, d5);
      }
    }

    /** The test commands that only drive the board: relay, dry-contact output, marquee, all-on/all-off and dimming. */
    method SendBoardCommand(cmd: byte, d3: byte, d4: byte, d5: byte)
      requires cmd != TEST_DRY_IN
      modifies board
      ensures board.sent == old(board.sent) + BoardFrames(cmd, d3, d4, d5, true)
    {
      if cmd == TEST_RELAY || cmd == TEST_DRY_OUT || cmd == TEST_MARQUEE {
        var frame := new Stm32Frames.UartFrame();
        if cmd == TEST_RELAY {
          frame.BuildFrame(Stm32Frames.CMD_RELAY_CONTROL, d3, d4, d5, 0);
        } else if cmd == TEST_DRY_OUT {
          frame.BuildFrame(Stm32Frames.CMD_DRYCONTACT_OUT_CONTROL, d3, d4, d5, 0);
        } else {
          frame.BuildFrame(MARQUEE_CMD, 0x02, 0x01, 0, 0);
        }
        board.SendFrame(frame);
      } else if cmd == TEST_ALL {
        AllControl(d3, d5);
      } else if cmd == TEST_DIMMER {
        board.SendStm32Cmd(DIMMER_CMD, 0x00, d3, d4, d5);
      }
    }

    /** The network test command: switch to WiFi, switch to Ethernet, or report the status. */
    method OnNetCommand(d5: byte, env: Env) returns (effect: Effect)
      requires EnvOk(env)
      modifies port
      ensures port.queue == old(port.queue) + Replies(TEST_NET, d5, true)
      ensures effect == CommandEffect(TEST_NET, d5, true, env)
    {
      effect := NoEffect;
      if d5 == 1 {
        port.GenerateResponse(Rs485Frames.ORACLE, TEST_NET, 0x01, 0, 0);
        effect := NetworkChange(Wifi);
      } else if d5 == 2 {
        port.GenerateResponse(Rs485Frames.ORACLE, TEST_NET, 0x02, 0, 0);
        effect := NetworkChange(Ethernet);
      } else if d5 == 0 {
        var f := ReportNetState(env.serial, env.ipRaw, env.net);
        effect := StatusReport(f);
      }
    }

    /**
     * What an oracle frame leaves behind: a transfer packet steps its own
     * session only, queues its acknowledgements and reports what it saved;
     * a command switches the mode, queues its replies, drives the board and
     * reports its effect.
     */
    twostate predicate OracleHandled(data: seq<byte>, env: Env, effect: Effect)
      requires |data| == FRAME_SIZE && EnvOk(env) && old(Valid()) && Valid()
      reads this, ssid, ssid.buf, pass, pass.buf, port, board
    {
      var r := RouteOf(data, old(testMode));
      && (r.Chunk? ==>
            && Receiver(r.kind).State() == Rs485Session.Step(r.kind, old(Receiver(r.kind).State()), r.packet, env.nowUs, timing)
            && Receiver(Other(r.kind)).State() == old(Receiver(Other(r.kind)).State())
            && port.queue == old(port.queue) + Rs485Session.Acks(r.kind, old(Receiver(r.kind).State()), r.packet)
            && effect == SavedEffect(r.kind, Rs485Session.Saved(r.kind, old(Receiver(r.kind).State()), r.packet))
            && unchanged(this, board))
      && (r.Command? ==>
            && testMode == ModeAfter(r.cmd, old(testMode))
            && port.queue == old(port.queue) + Replies(r.cmd, r.d5, old(testMode))
            && board.sent == old(board.sent) + BoardFrames(r.cmd, r.d3, r.d4, r.d5, old(testMode))
            && effect == CommandEffect(r.cmd, r.d5, old(testMode), env))
    }

    /**
     * `handle_rs485_data` on an eight-byte frame: a frame whose checksum
     * fails changes nothing; otherwise the route decides, and each route
     * touches only what its handler owns.
     */
    method HandleRs485Data(data: seq<byte>, lord: Lord.LordManager, rooms: RoomState.RoomStates,
                           modes: ManagerBase.LordManager, env: Env)
      returns (effect: Effect)
      requires |data| == FRAME_SIZE && Valid() && lord.Valid() && EnvOk(env)
      modifies this, ssid, ssid.buf, pass, pass.buf, port, board
      modifies lord.ctx, modes, lord.channelInputs.Values, lord.actionGroups.Values, Stm32Rx.InputScenes(lord)
      modifies DeviceObjects(lord, data[3])
      ensures Valid() && lord.Valid()
      ensures RouteOf(data, old(testMode)).BadChecksum? ==>
        effect == NoEffect && unchanged(this, ssid, ssid.buf, pass, pass.buf, port, board, lord.ctx, modes)
      ensures OracleHandled(data, env, effect)
      ensures data[1] != Rs485Frames.ORACLE ==> DeviceHandled(data, lord, modes, effect)
    {
      var route := RouteOf(data, testMode);
      if route.BadChecksum? {
        effect := NoEffect;
      } else if data[1] == Rs485Frames.ORACLE {
        effect := OnOracle(data, lord, rooms, modes, env);
      } else {
        DeviceObjectsApart(this, lord, data[3]);
        effect := OnDevice(data, lord, modes, env.spawned);
      }
    }

    /** A frame of the oracle tool: a transfer packet, or a command. */
    method OnOracle(data: seq<byte>, lord: Lord.LordManager, rooms: RoomState.RoomStates,
                    modes: ManagerBase.LordManager, env: Env)
      returns (effect: Effect)
      requires |data| == FRAME_SIZE && Rs485Frames.ChecksumOk(data) && data[1] == Rs485Frames.ORACLE
      requires Valid() && lord.Valid() && EnvOk(env)
      modifies this, ssid, ssid.buf, pass, pass.buf, port, board
      modifies lord.ctx, modes, lord.channelInputs.Values, lord.actionGroups.Values, Stm32Rx.InputScenes(lord)
      ensures Valid()
      ensures OracleHandled(data, env, effect)
    {
      var route := RouteOf(data, testMode);
      if route.Chunk? {
        effect := OnChunk(route.kind, route.packet, env.nowUs);
      } else {
        effect := OnCommand(data[2], data[3], data[4], data[5], lord, rooms, modes, env);
      }
    }

    /** A frame from a room device: a panel key report, an air-conditioner report or a room temperature. */
    method OnDevice(data: seq<byte>, lord: Lord.LordManager, modes: ManagerBase.LordManager, spawned: bool)
      returns (effect: Effect)
      requires |data| == FRAME_SIZE && Rs485Frames.ChecksumOk(data) && data[1] != Rs485Frames.ORACLE && lord.Valid()
      modifies port, board, modes, DeviceObjects(lord, data[3])
      ensures lord.Valid()
      ensures DeviceHandled(data, lord, modes, effect)
    {
      effect := NoEffect;
      match RouteOf(data, testMode)
      case PanelReport(pid, target, blState) =>
        var fired := lord.HandlePanel(pid, target as bv8, blState as bv8, modes, spawned);
        effect := PanelKeys(fired);
      case AirReport(states, temps) =>
        lord.UpdateAirState(states, temps, board, port);
      case RoomTemp(airId, temp) =>
        lord.UpdateRoomTemp(airId, temp);
      case _ =>
    }
  }
}
