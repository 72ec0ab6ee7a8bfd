/**
 * The bench-test tool (rs485_oracle.py): it turns typed commands into
 * RS485 frames for the controller's test mode, and reads the controller's
 * replies and status reports back from the line.
 *
 * Packets are lists of Python integers until the main loop turns them into
 * a `bytearray`; they are `seq<int>` here. What comes back from the line is
 * bytes, `seq<byte>`. The two counters of chunked packets the tool keeps
 * between commands are fields of `OracleTool`; the receiving thread's
 * state machine is `ToolReceiver`.
 */
module Oracle {
  import opened Wrappers
  import opened Bytes
  import Commons
  import Rs485Frames
  import Rs485Session
  import Rs485Comm
  import Stm32Frames

  /*
   * ---------------------------------------------------------------------
   * Building packets
   * ---------------------------------------------------------------------
   */

  /** The filler of a short last chunk, which the controller takes for the end of the string. */
  const PAD: int := 0xFF

  /** Six values followed by their sum masked to eight bits and the footer: how both builders finish a packet. */
  function Sealed(head: seq<int>): seq<int>
  {
    head + [Sum(head) % 256, Rs485Frames.FRAME_FOOTER as int]
  }

  /** `build_command_by_parts`: header, the tool's device type, the command, a zero, the two parameters. */
  function BuildCommandByParts(kind: int, p1: int, p2: int): seq<int>
  {
    Sealed([Rs485Frames.FRAME_HEADER as int, Rs485Frames.ORACLE as int, kind, 0, p1, p2])
  }

  /**
   * For byte-sized parts the tool builds exactly the frame the controller's
   * own `generate_response` would, and the controller reads it as command
   * `kind` with parameters `0, p1, p2`, unless `kind` is the number of a
   * credential packet and test mode is on.
   */
  lemma PartsReachController(kind: byte, p1: byte, p2: byte, testMode: bool)
    requires !(testMode && (Rs485Session.InRange(Rs485Session.Ssid, kind) || Rs485Session.InRange(Rs485Session.Pass, kind)))
    ensures BuildCommandByParts(kind, p1, p2) == Rs485Frames.ResponseFrame(Rs485Frames.ORACLE, kind, 0, p1, p2)
    ensures Rs485Comm.RouteOf(Rs485Frames.ResponseFrame(Rs485Frames.ORACLE, kind, 0, p1, p2), testMode) == Rs485Comm.Command(kind, 0, p1, p2)
  {
    Rs485Comm.OracleFrameRoute(kind, 0, p1, p2, testMode);
  }

  /** The code points of a string, as `ord` gives them. */
  function Codes(s: string): (r: seq<int>)
    ensures |r| == |s| && forall i :: 0 <= i < |s| ==> r[i] == s[i] as int
  {
    seq(|s|, i requires 0 <= i < |s| => s[i] as int)
  }

  /** Code `j` of a payload, and the filler past its end. */
  function PaddedAt(data: seq<int>, j: nat): int
  {
    if j < |data| then data[j] else PAD
  }

  /** Packet `i` of a chunked string: number `base + i`, then codes `3i` to `3i + 2`, padded. */
  function ChunkFrame(base: int, data: seq<int>, i: nat): seq<int>
  {
    Sealed([Rs485Frames.FRAME_HEADER as int, Rs485Frames.ORACLE as int, base + i, PaddedAt(data, 3 * i), PaddedAt(data, 3 * i + 1), PaddedAt(data, 3 * i + 2)])
  }

  /** All the packets of a chunked string: one per started group of three codes, and one more, all filler, when the length is a multiple of three. */
  function ChunkFrames(base: int, data: seq<int>): seq<seq<int>>
  {
    seq(|data| / 3 + 1, i requires 0 <= i => ChunkFrame(base, data, i))
  }

  /** The codes of characters `i` to `i + 2`, the filler standing in for those past the end. */
  method PaddedChunk(dataStr: string, i: nat) returns (chunk: seq<int>)
    requires i < |dataStr|
    ensures chunk == [PaddedAt(Codes(dataStr), i), PaddedAt(Codes(dataStr), i + 1), PaddedAt(Codes(dataStr), i + 2)]
  {
    ghost var data := Codes(dataStr);
    chunk := Codes(dataStr[i..if i + 3 <= |dataStr| then i + 3 else |dataStr|]);
    while |chunk| < 3
      invariant 0 < |chunk| <= 3
      invariant forall k :: 0 <= k < |chunk| ==> chunk[k] == PaddedAt(data, i + k)
      invariant i + |chunk| >= |dataStr| || |chunk| == 3
    {
      chunk := chunk + [PAD];
    }
  }

  /**
   * `build_chunked_commands`: cut the string into groups of three codes,
   * pad the last group with the filler, number the packets from `base`,
   * and close a string whose length is a multiple of three with a packet of
   * filler alone.
   */
  method BuildChunkedCommands(base: int, dataStr: string) returns (packets: seq<seq<int>>)
    ensures packets == ChunkFrames(base, Codes(dataStr))
  {
    ghost var data := Codes(dataStr);
    packets := [];
    var i := 0;
    while i < |dataStr|
      invariant 0 <= i <= |dataStr| + 2 && i == 3 * |packets|
      invariant forall j :: 0 <= j < |packets| ==> packets[j] == ChunkFrame(base, data, j)
    {
      var chunk := PaddedChunk(dataStr, i);
      var kind := base + i / 3;
      var pkt := [Rs485Frames.FRAME_HEADER as int, Rs485Frames.ORACLE as int, kind] + chunk;
      ghost var n := |packets|;
      assert i / 3 == n && i == 3 * n;
      assert pkt == [Rs485Frames.FRAME_HEADER as int, Rs485Frames.ORACLE as int, base + n, PaddedAt(data, 3 * n), PaddedAt(data, 3 * n + 1), PaddedAt(data, 3 * n + 2)];
      pkt := pkt + [Sum(pkt) % 256, Rs485Frames.FRAME_FOOTER as int];
      packets := packets + [pkt];
      i := i + 3;
    }
    if |dataStr| % 3 == 0 {
      var kind := base + |dataStr| / 3;
      var pkt := [Rs485Frames.FRAME_HEADER as int, Rs485Frames.ORACLE as int, kind, PAD, PAD, PAD];
      pkt := pkt + [Sum(pkt) % 256, Rs485Frames.FRAME_FOOTER as int];
      assert i == |dataStr| && |packets| == |dataStr| / 3;
      assert pkt == ChunkFrame(base, data, |packets|);
      packets := packets + [pkt];
    }
    assert |packets| == |data| / 3 + 1;
  }

  /** The frame the controller reads a credential packet from. */
  function PacketFrame(p: Rs485Session.Packet): seq<byte>
  {
    Rs485Frames.ResponseFrame(Rs485Frames.ORACLE, p.id, p.c0, p.c1, p.c2)
  }

  /**
   * The chunked packets of a string of at most 44 bytes, numbered from the
   * first packet number of an SSID or password transfer, are the frames of
   * the packets the controller's receiver expects, in order, and in test
   * mode the controller routes each of them to that transfer.
   */
  lemma ChunksAreTransferPackets(k: Rs485Session.Kind, t: seq<byte>, phase: int)
    requires |t| <= Rs485Session.MAX_TRANSFER && Rs485Session.ValidPhase(phase)
    ensures var frames := ChunkFrames(Rs485Session.FirstId(k), t);
      var ds := Rs485Session.ToolSchedule(k, t, phase);
      && |frames| == |ds|
      && forall i :: 0 <= i < |frames| ==>
        && frames[i] == PacketFrame(ds[i].packet)
        && Rs485Comm.RouteOf(PacketFrame(ds[i].packet), true) == Rs485Comm.Chunk(k, ds[i].packet)
  {
    var frames := ChunkFrames(Rs485Session.FirstId(k), t);
    var ds := Rs485Session.ToolSchedule(k, t, phase);
    forall i | 0 <= i < |frames|
      ensures frames[i] == PacketFrame(ds[i].packet)
      ensures Rs485Comm.RouteOf(PacketFrame(ds[i].packet), true) == Rs485Comm.Chunk(k, ds[i].packet)
    {
      var p := ds[i].packet;
      assert p == Rs485Session.ChunkPacket(k, t, i);
      assert PaddedAt(t, 3 * i) == p.c0 && PaddedAt(t, 3 * i + 1) == p.c1 && PaddedAt(t, 3 * i + 2) == p.c2;
      Rs485Comm.OracleFrameRoute(p.id, p.c0, p.c1, p.c2, true);
    }
  }

  /**
   * The round trip of a credential: the controller, fed the tool's packets
   * at the tool's pace and timing its session from the latest packet, saves
   * exactly the string the tool chunked, provided the string holds no NUL
   * and no filler byte.
   */
  lemma ChunkedTransferRoundTrip(k: Rs485Session.Kind, t: seq<byte>, phase: int)
    requires |t| <= Rs485Session.MAX_TRANSFER && Rs485Session.TERMINATOR !in t && 0 !in t && Rs485Session.ValidPhase(phase)
    ensures |ChunkFrames(Rs485Session.FirstId(k), t)| == |Rs485Session.ToolSchedule(k, t, phase)|
    ensures forall i :: 0 <= i < |ChunkFrames(Rs485Session.FirstId(k), t)| ==>
      ChunkFrames(Rs485Session.FirstId(k), t)[i] == PacketFrame(Rs485Session.ToolSchedule(k, t, phase)[i].packet)
    ensures Rs485Session.SavedAll(k, Rs485Session.Idle, Rs485Session.ToolSchedule(k, t, phase), Rs485Session.FromLatestPacket) == [t]
  {
    ChunksAreTransferPackets(k, t, phase);
    Rs485Session.ToolTransferDelivered(k, t, phase);
  }

  /*
   * ---------------------------------------------------------------------
   * Typed commands
   * ---------------------------------------------------------------------
   */

  /**
   * Python's `str.isspace`, the set `str.strip()` removes: the C white
   * space, the separators U+001C..U+001F, and the Unicode spaces and line
   * separators.
   */
  predicate IsWhite(c: char)
  {
    || ('\t' <= c <= '\r') || ('\U{1C}' <= c <= ' ') || c == '\U{85}' || c == '\U{A0}' || c == '\U{1680}'
    || ('\U{2000}' <= c <= '\U{200A}') || c == '\U{2028}' || c == '\U{2029}' || c == '\U{202F}'
    || c == '\U{205F}' || c == '\U{3000}'
  }

  /** `str.strip()` from the left. */
  function StripLeft(s: string): (r: string)
    ensures |r| <= |s| && r == s[|s| - |r|..]
    ensures |r| > 0 ==> !IsWhite(r[0])
    ensures forall i :: 0 <= i < |s| - |r| ==> IsWhite(s[i])
    decreases |s|
  {
    if |s| > 0 && IsWhite(s[0]) then
      var r := StripLeft(s[1..]);
      SpacesBefore(s, |s| - 1 - |r|);
      r
    else s
  }

  /** A white-space character followed by `n` more is a run of `n + 1`. */
  lemma SpacesBefore(s: string, n: nat)
    requires n < |s| && IsWhite(s[0])
    requires forall i :: 0 <= i < n ==> IsWhite(s[1..][i])
    ensures forall i :: 0 <= i < n + 1 ==> IsWhite(s[i])
  {
    forall i | 1 <= i < n + 1
      ensures IsWhite(s[i])
    {
      assert s[i] == s[1..][i - 1];
    }
  }

  /** `str.strip()` from the right. */
  function StripRight(s: string): (r: string)
    ensures |r| <= |s| && r == s[..|r|]
    ensures |r| > 0 ==> !IsWhite(r[|r| - 1])
    ensures forall i :: |r| <= i < |s| ==> IsWhite(s[i])
    decreases |s|
  {
    if |s| > 0 && IsWhite(s[|s| - 1]) then StripRight(s[..|s| - 1]) else s
  }

  /** `str.strip()`: the input without its leading and trailing white space. */
  function Strip(s: string): (r: string)
    ensures |r| > 0 ==> !IsWhite(r[0]) && !IsWhite(r[|r| - 1])
  {
    StripRight(StripLeft(s))
  }

  /** `str.lower()` on one ASCII character. */
  function LowerChar(c: char): char
  {
    if 'A' <= c <= 'Z' then (c as int + 32) as char else c
  }

  /** `str.lower()`, character by character. */
  function Lower(s: string): (r: string)
    ensures |r| == |s| && forall i :: 0 <= i < |s| ==> r[i] == LowerChar(s[i])
  {
    seq(|s|, i requires 0 <= i < |s| => LowerChar(s[i]))
  }

  /** The commands without an argument: command type and the two parameters. */
  function FixedCommand(s: string): Option<(int, int, int)>
  {
    if s == "oracle" then Some((0x01, 0x00, 0x00))
    else if s == "exit" then Some((0x00, 0x00, 0x00))
    else if s == "ora" then Some((0x05, 0x00, 0x01))
    else if s == "cra" then Some((0x05, 0x00, 0x00))
    else if s == "round" then Some((0x04, 0x00, 0x00))
    else if s == "net" then Some((0x09, 0x00, 0x00))
    else if s == "wifi" then Some((0x09, 0x00, 0x01))
    else if s == "ether" then Some((0x09, 0x00, 0x02))
    else if s == "ver" then Some((0x0A, 0x00, 0x00))
    else if s == "stmlogon" then Some((0x0B, 0x00, 0x01))
    else if s == "stmlogoff" then Some((0x0B, 0x00, 0x00))
    else if s == "rs485logon" then Some((0x0B, 0x01, 0x01))
    else if s == "rs485logoff" then Some((0x0B, 0x01, 0x00))
    else None
  }

  /** The two-letter actions on a numbered output or input: command type and the second parameter; the number is the first. */
  function RelayAction(action: string): Option<(int, int)>
  {
    if action == "or" then Some((0x02, 0x01))
    else if action == "cr" then Some((0x02, 0x00))
    else if action == "od" then Some((0x03, 0x01))
    else if action == "cd" then Some((0x03, 0x00))
    else if action == "ih" then Some((0x06, 0x01))
    else if action == "il" then Some((0x06, 0x00))
    else if action == "oc" then Some((0x07, 0x00))
    else None
  }

  /** The keyword that starts a credential transfer; nine characters, the last a space. */
  function Keyword(k: Rs485Session.Kind): string
  {
    if k == Rs485Session.Ssid then "wifissid " else "wifipass "
  }

  /** `str.isdigit()` on ASCII: at least one character, all of them digits. */
  predicate IsNumber(s: string)
  {
    |s| > 0 && Commons.AllDigits(s)
  }

  /**
   * Which text the payload of a credential command is cut from. As written,
   * the tool lowercases the whole input before cutting it, so a credential
   * arrives in lower case; lowering only what is matched against the
   * keywords keeps the payload as typed.
   */
  datatype Casing = LowerAll | LowerKeyword

  /** The `ValueError`s `build_command` raises. */
  datatype ToolError =
    | MissingArgument
      /** Fewer than three characters and no command. */
    | BadFormat
    | Unsupported
    | NotANumber
    | OutOfRange

  /** What a command yields: the packets to send (none for `ls`, which prints the help), or the error raised. */
  datatype Built = Sent(packets: seq<seq<int>>) | Refused(error: ToolError)

  /** The payload of a credential command: the text after the nine-character keyword. */
  function Payload(stripped: string, casing: Casing): string
    requires |stripped| >= 9
  {
    (if casing == LowerAll then Lower(stripped) else stripped)[9..]
  }

  /** The input names a credential transfer of kind `k`: the keyword leads, and no whole-word command matched first. */
  predicate IsTransfer(s: string, k: Rs485Session.Kind)
  {
    && FixedCommand(s).None? && s != "ls"
    && (if k == Rs485Session.Ssid then Keyword(k) <= s else !(Keyword(Rs485Session.Ssid) <= s) && Keyword(k) <= s)
  }

  /** The packets `build_command` returns for a line, or the error it raises, checking in the source's order. */
  function CommandPackets(cmdStr: string, casing: Casing): Built
  {
    var stripped := Strip(cmdStr);
    var s := Lower(stripped);
    if FixedCommand(s).Some? then
      var (kind, p1, p2) := FixedCommand(s).value;
      Sent([BuildCommandByParts(kind, p1, p2)])
    else if s == "ls" then Sent([])
    else if Keyword(Rs485Session.Ssid) <= s then TransferPackets(Rs485Session.Ssid, stripped, casing)
    else if Keyword(Rs485Session.Pass) <= s then TransferPackets(Rs485Session.Pass, stripped, casing)
    else ActionPackets(s)
  }

  /** A credential command: the payload chunked from the transfer's first packet number. */
  function TransferPackets(k: Rs485Session.Kind, stripped: string, casing: Casing): Built
    requires |stripped| >= 9
  {
    var data := Payload(stripped, casing);
    if data == [] then Refused(MissingArgument) else Sent(ChunkFrames(Rs485Session.FirstId(k), Codes(data)))
  }

  /** A numbered action: a known two-letter action followed by a number from 1 to 255. */
  function ActionPackets(s: string): Built
  {
    if |s| < 3 then Refused(BadFormat)
    else if RelayAction(s[..2]).None? then Refused(Unsupported)
    else if !IsNumber(s[2..]) then Refused(NotANumber)
    else if !(1 <= Commons.DecimalValue(s[2..]) <= 255) then Refused(OutOfRange)
    else
      var (kind, p2) := RelayAction(s[..2]).value;
      Sent([BuildCommandByParts(kind, Commons.DecimalValue(s[2..]), p2)])
  }

  /** The tool's state between commands: how many packets the latest SSID and password transfers had, which the acknowledgements are shown against. */
  class OracleTool {
    const casing: Casing
    var ssidPackets: int
    var passPackets: int

    constructor (casing: Casing)
      ensures this.casing == casing && ssidPackets == 0 && passPackets == 0
    {
      this.casing := casing;
      ssidPackets := 0;
      passPackets := 0;
    }

    /**
     * `build_command`: match the stripped, lowered line against the
     * whole-word commands, `ls`, the two credential keywords, and last the
     * numbered actions; a credential transfer records its packet count.
     */
    method BuildCommand(cmdStr: string) returns (r: Built)
      modifies this
      ensures r == CommandPackets(cmdStr, casing)
      ensures ssidPackets == if r.Sent? && IsTransfer(Lower(Strip(cmdStr)), Rs485Session.Ssid) then |r.packets| else old(ssidPackets)
      ensures passPackets == if r.Sent? && IsTransfer(Lower(Strip(cmdStr)), Rs485Session.Pass) then |r.packets| else old(passPackets)
    {
      var stripped := Strip(cmdStr);
      var s := Lower(stripped);
      var fixed := FixedCommand(s);
      if fixed.Some? {
        var (kind, p1, p2) := fixed.value;
        return Sent([BuildCommandByParts(kind, p1, p2)]);
      }
      if s == "ls" {
        return Sent([]);
      }
      if Keyword(Rs485Session.Ssid) <= s {
        assert |stripped| >= 9 by { assert |Keyword(Rs485Session.Ssid)| == 9; }
        assert IsTransfer(s, Rs485Session.Ssid) && !IsTransfer(s, Rs485Session.Pass);
        r := BuildTransfer(Rs485Session.Ssid, stripped);
        if r.Sent? {
          ssidPackets := |r.packets|;
        }
        return;
      }
      if Keyword(Rs485Session.Pass) <= s {
        assert |stripped| >= 9 by { assert |Keyword(Rs485Session.Pass)| == 9; }
        assert IsTransfer(s, Rs485Session.Pass) && !IsTransfer(s, Rs485Session.Ssid);
        r := BuildTransfer(Rs485Session.Pass, stripped);
        if r.Sent? {
          passPackets := |r.packets|;
        }
        return;
      }
      r := BuildAction(s);
    }

    /** The credential branch of `build_command`: the payload after the keyword, chunked from the transfer's first packet number. */
    method BuildTransfer(k: Rs485Session.Kind, stripped: string) returns (r: Built)
      requires |stripped| >= 9
      ensures r == TransferPackets(k, stripped, casing)
      ensures r.Sent? ==> |r.packets| == |Payload(stripped, casing)| / 3 + 1
    {
      var data := Payload(stripped, casing);
      if data == [] {
        return Refused(MissingArgument);
      }
      var packets := BuildChunkedCommands(if k == Rs485Session.Ssid then 0x71 else 0x81, data);
      return Sent(packets);
    }
  }

  /** The numbered-action branch of `build_command`: a known two-letter action, then a number from 1 to 255. */
  method BuildAction(s: string) returns (r: Built)
    ensures r == ActionPackets(s)
    ensures r.Sent? ==> |r.packets| == 1 && r.packets[0][2] == RelayAction(s[..2]).value.0
  {
    if |s| < 3 {
      return Refused(BadFormat);
    }
    var action := s[..2];
    var relayStr := s[2..];
    var op := RelayAction(action);
    if op.None? {
      return Refused(Unsupported);
    }
    if !IsNumber(relayStr) {
      return Refused(NotANumber);
    }
    var relayNum := Commons.DecimalValue(relayStr);
    if !(1 <= relayNum <= 255) {
      return Refused(OutOfRange);
    }
    var (kind, p2) := op.value;
    return Sent([BuildCommandByParts(kind, relayNum, p2)]);
  }

  /** Lowering keeps white space and only white space. */
  lemma LowerKeepsSpace(c: char)
    ensures IsWhite(LowerChar(c)) <==> IsWhite(c)
  { }

  /**
   * The "must be followed by an argument" error cannot happen: the line is
   * stripped first, so a keyword, which ends in a space, is never the whole
   * line.
   */
  lemma NoEmptyPayload(cmdStr: string, casing: Casing)
    ensures CommandPackets(cmdStr, casing) != Refused(MissingArgument)
  {
    var stripped := Strip(cmdStr);
    var s := Lower(stripped);
    if Keyword(Rs485Session.Ssid) <= s {
      KeywordLineLong(Rs485Session.Ssid, stripped);
      assert Payload(stripped, casing) != [];
    } else if Keyword(Rs485Session.Pass) <= s {
      KeywordLineLong(Rs485Session.Pass, stripped);
      assert Payload(stripped, casing) != [];
    }
  }

  /** A stripped line that lowers to a keyword and more is longer than the keyword, whose last character is a space. */
  lemma KeywordLineLong(k: Rs485Session.Kind, stripped: string)
    requires Keyword(k) <= Lower(stripped)
    requires |stripped| > 0 ==> !IsWhite(stripped[|stripped| - 1])
    ensures |stripped| > 9
  {
    assert Lower(stripped)[8] == Keyword(k)[8] == ' ';
    LowerKeepsSpace(stripped[8]);
  }

  /** The bytes of a string of Latin-1 characters. */
  function Latin1(t: string): (b: seq<byte>)
    requires forall i :: 0 <= i < |t| ==> t[i] as int < 256
    ensures b == Codes(t)
  {
    seq(|t|, i requires 0 <= i < |t| => t[i] as int as byte)
  }

  /** A line that starts and ends with something other than white space is left as it is by `strip`. */
  lemma StripKeeps(s: string)
    requires |s| > 0 && !IsWhite(s[0]) && !IsWhite(s[|s| - 1])
    ensures Strip(s) == s
  {
    assert StripLeft(s) == s;
  }

  /** A line of ten characters or more that starts with `w` is no whole-word command. */
  lemma LongLineNotFixed(s: string)
    requires |s| >= 10 && s[0] == 'w'
    ensures FixedCommand(s).None? && s != "ls"
  {
    assert s != "rs485logon" && s != "rs485logoff" by {
      assert "rs485logon"[0] == 'r' && "rs485logoff"[0] == 'r';
    }
  }

  /** A known action followed by a digit is neither a whole-word command nor a credential keyword. */
  lemma ActionNotFixed(s: string)
    requires |s| >= 3 && RelayAction(s[..2]).Some? && '0' <= s[2] <= '9'
    ensures FixedCommand(s).None? && s != "ls"
    ensures !(Keyword(Rs485Session.Ssid) <= s) && !(Keyword(Rs485Session.Pass) <= s)
  {
    assert s[0] != 'w' by {
      assert s[..2][0] == s[0];
    }
    assert s != "oracle" && s != "ora" && s != "cra" && s != "rs485logon" && s != "rs485logoff" by {
      assert "oracle"[2] == 'a' && "ora"[2] == 'a' && "cra"[2] == 'a';
      assert "rs485logon"[..2] == "rs" && "rs485logoff"[..2] == "rs";
    }
  }

  /** Lowering leaves a string without capitals as it is. */
  lemma NoCapitalsKept(s: string)
    requires forall i :: 0 <= i < |s| ==> !('A' <= s[i] <= 'Z')
    ensures Lower(s) == s
  { }

  /** The keywords are in lower case, so a keyword line lowers to the keyword and the lowered payload. */
  lemma KeywordLowered(k: Rs485Session.Kind, t: string)
    ensures Lower(Keyword(k) + t) == Keyword(k) + Lower(t)
  {
    var kw := Keyword(k);
    assert forall i :: 0 <= i < |kw| ==> 'a' <= kw[i] <= 'z' || kw[i] == ' ';
  }

  /** No line starts with both keywords. */
  lemma KeywordsDiffer(s: string)
    requires Keyword(Rs485Session.Pass) <= s
    ensures !(Keyword(Rs485Session.Ssid) <= s)
  {
    assert s[4] == Keyword(Rs485Session.Pass)[4];
  }

  /**
   * A credential typed after its keyword is sent as the chunked packets of
   * its payload: lowered as written, and as typed when only the keyword is
   * lowered.
   */
  lemma TransferCommand(k: Rs485Session.Kind, t: string, casing: Casing)
    requires |t| > 0 && !IsWhite(t[|t| - 1])
    ensures CommandPackets(Keyword(k) + t, casing) == Sent(ChunkFrames(Rs485Session.FirstId(k), Codes(if casing == LowerAll then Lower(t) else t)))
  {
    KeywordLineRoutes(k, t, casing);
    KeywordLinePayload(k, t, casing);
  }

  /** The payload of a keyword line is the text after the keyword, lowered when the whole line is. */
  lemma KeywordLinePayload(k: Rs485Session.Kind, t: string, casing: Casing)
    ensures |Keyword(k) + t| >= 9
    ensures Payload(Keyword(k) + t, casing) == if casing == LowerAll then Lower(t) else t
  {
    var kw := Keyword(k);
    KeywordLowered(k, t);
    assert (kw + Lower(t))[9..] == Lower(t);
    assert (kw + t)[9..] == t;
  }

  /** A keyword followed by text that does not end in white space is routed to the transfer of that keyword. */
  lemma KeywordLineRoutes(k: Rs485Session.Kind, t: string, casing: Casing)
    requires |t| > 0 && !IsWhite(t[|t| - 1])
    ensures |Keyword(k) + t| >= 9
    ensures CommandPackets(Keyword(k) + t, casing) == TransferPackets(k, Keyword(k) + t, casing)
  {
    var kw := Keyword(k);
    var cmd := kw + t;
    StripKeeps(cmd);
    var s := Lower(cmd);
    KeywordLowered(k, t);
    assert kw <= s;
    LongLineNotFixed(s);
    if k == Rs485Session.Pass {
      KeywordsDiffer(s);
    }
    TransferRoute(k, cmd, casing);
  }

  /** A stripped line that names a transfer of kind `k` is sent as that transfer. */
  lemma TransferRoute(k: Rs485Session.Kind, cmd: string, casing: Casing)
    requires Strip(cmd) == cmd && |cmd| >= 9 && IsTransfer(Lower(cmd), k)
    ensures CommandPackets(cmd, casing) == TransferPackets(k, cmd, casing)
  {
  }

  /**
   * As written, a credential with a capital letter reaches the controller
   * in lower case: for `wifissid A` the controller saves "a".
   */
  lemma CapitalsLostAsWritten()
    ensures CommandPackets("wifissid A", LowerAll) == Sent(ChunkFrames(0x71, [0x61]))
    ensures Rs485Session.SavedAll(Rs485Session.Ssid, Rs485Session.Idle, Rs485Session.ToolSchedule(Rs485Session.Ssid, [0x61], 0), Rs485Session.FromLatestPacket) == [[0x61]]
  {
    assert "wifissid A" == Keyword(Rs485Session.Ssid) + "A";
    TransferCommand(Rs485Session.Ssid, "A", LowerAll);
    assert Codes(Lower("A")) == [0x61];
    ChunkedTransferRoundTrip(Rs485Session.Ssid, [0x61], 0);
  }

  /**
   * With only the keyword lowered, a credential of at most 44 Latin-1
   * characters, none of them NUL or the filler, and not ending in white
   * space, is saved by the controller exactly as typed.
   */
  lemma TypedCredentialSaved(k: Rs485Session.Kind, t: string, phase: int)
    requires 0 < |t| <= Rs485Session.MAX_TRANSFER && !IsWhite(t[|t| - 1]) && Rs485Session.ValidPhase(phase)
    requires forall i :: 0 <= i < |t| ==> 0 < t[i] as int < 0xFF
    ensures CommandPackets(Keyword(k) + t, LowerKeyword) == Sent(ChunkFrames(Rs485Session.FirstId(k), Latin1(t)))
    ensures Rs485Session.SavedAll(k, Rs485Session.Idle, Rs485Session.ToolSchedule(k, Latin1(t), phase), Rs485Session.FromLatestPacket) == [Latin1(t)]
  {
    TransferCommand(k, t, LowerKeyword);
    var b := Latin1(t);
    assert Rs485Session.TERMINATOR !in b && 0 !in b by {
      forall x | x in b
        ensures x != Rs485Session.TERMINATOR && x != 0
      {
        var i :| 0 <= i < |b| && b[i] == x;
      }
    }
    ChunkedTransferRoundTrip(k, b, phase);
  }

  /** A known action followed by a number is sent as that action's frame when the number is 1 to 255, and refused otherwise. */
  lemma ActionCommand(action: string, d: string, casing: Casing)
    requires RelayAction(action).Some? && IsNumber(d)
    ensures CommandPackets(action + d, casing) ==
      if 1 <= Commons.DecimalValue(d) <= 255 then Sent([BuildCommandByParts(RelayAction(action).value.0, Commons.DecimalValue(d), RelayAction(action).value.1)])
      else Refused(OutOfRange)
  {
    var cmd := action + d;
    ActionLineKept(action, d);
    ActionNotFixed(cmd);
    assert CommandPackets(cmd, casing) == ActionPackets(cmd);
  }

  /** An action line has no spaces to strip and no capitals to lower. */
  lemma ActionLineKept(action: string, d: string)
    requires RelayAction(action).Some? && IsNumber(d)
    ensures Lower(Strip(action + d)) == action + d
    ensures (action + d)[..2] == action && (action + d)[2..] == d
  {
    var cmd := action + d;
    assert |action| == 2 && 'a' <= action[0] <= 'z' && 'a' <= action[1] <= 'z';
    assert cmd[|cmd| - 1] == d[|d| - 1];
    StripKeeps(cmd);
    assert forall i :: 0 <= i < |cmd| ==> !('A' <= cmd[i] <= 'Z') by {
      forall i | 0 <= i < |cmd|
        ensures !('A' <= cmd[i] <= 'Z')
      {
        if i >= 2 {
          assert cmd[i] == d[i - 2];
        }
      }
    }
    NoCapitalsKept(cmd);
  }

  /**
   * `or` with a number from 1 to 255 reaches the I/O board: the tool sends
   * the relay test command, which the controller in test mode turns into a
   * relay-control frame for that relay on board 0.
   */
  lemma RelayCommandDrivesBoard(d: string)
    requires IsNumber(d) && 1 <= Commons.DecimalValue(d) <= 255
    ensures var n := Commons.DecimalValue(d);
      && CommandPackets("or" + d, LowerAll) == Sent([Rs485Frames.ResponseFrame(Rs485Frames.ORACLE, Rs485Comm.TEST_RELAY, 0, n, 1)])
      && Rs485Comm.RouteOf(Rs485Frames.ResponseFrame(Rs485Frames.ORACLE, Rs485Comm.TEST_RELAY, 0, n, 1), true) == Rs485Comm.Command(Rs485Comm.TEST_RELAY, 0, n, 1)
      && Rs485Comm.BoardFrames(Rs485Comm.TEST_RELAY, 0, n, 1, true) == [Stm32Frames.Built(Stm32Frames.CMD_RELAY_CONTROL, 0, n, 1, 0)]
  {
    var n: byte := Commons.DecimalValue(d);
    RelayLineSent(d);
    PartsReachController(Rs485Comm.TEST_RELAY, n, 1, true);
  }

  /** `or` with a number from 1 to 255 is sent as one relay test command. */
  lemma RelayLineSent(d: string)
    requires IsNumber(d) && 1 <= Commons.DecimalValue(d) <= 255
    ensures CommandPackets("or" + d, LowerAll) == Sent([BuildCommandByParts(Rs485Comm.TEST_RELAY as int, Commons.DecimalValue(d), 1)])
  {
    assert RelayAction("or") == Some((0x02, 0x01));
    ActionCommand("or", d, LowerAll);
  }

  /*
   * ---------------------------------------------------------------------
   * Reading what comes back
   * ---------------------------------------------------------------------
   */

  /** The replies the tool knows by all four parameters. */
  datatype Known = Entered | Exited | WifiAccepted | WifiTimeout | EthernetAccepted | NotInTestMode

  /** What `parse_short_response` reports for an 8-byte frame. */
  datatype ShortReport =
    | ShortMalformed
    | ShortChecksumFailed
    | KnownReply(reply: Known)
      /** An SSID packet acknowledged: its number, shown against the packet count of the latest transfer. */
    | SsidAck(packet: int, total: int)
    | PassAck(packet: int, total: int)
    | FirmwareVersion(major: byte, minor: byte, patch: byte)
    | UnknownReply(p1: byte, p2: byte, p3: byte, p4: byte)

  /** The table of replies known by all four parameters. */
  function KnownBy(p1: byte, p2: byte, p3: byte, p4: byte): Option<Known>
  {
    if (p1, p2, p3, p4) == (0x01, 0x00, 0x00, 0x00) then Some(Entered)
    else if (p1, p2, p3, p4) == (0x00, 0x00, 0x00, 0x00) then Some(Exited)
    else if (p1, p2, p3, p4) == (0x09, 0x01, 0x00, 0x00) then Some(WifiAccepted)
    else if (p1, p2, p3, p4) == (0x09, 0x01, 0xEE, 0x00) then Some(WifiTimeout)
    else if (p1, p2, p3, p4) == (0x09, 0x02, 0x00, 0x00) then Some(EthernetAccepted)
    else if (p1, p2, p3, p4) == (0x79, 0x00, 0x00, 0x00) then Some(NotInTestMode)
    else None
  }

  /**
   * `parse_short_response`: the frame must be eight bytes with the header,
   * the tool's device type and the footer, and its checksum must hold; then
   * the table of known replies is tried, then the two ranges of credential
   * acknowledgements, then the version reply.
   */
  function ParseShortResponse(data: seq<byte>, ssidTotal: int, passTotal: int): (r: ShortReport)
    ensures r.ShortMalformed? <==>
      !(|data| == Rs485Frames.CMD_MAX_LEN && data[0] == Rs485Frames.FRAME_HEADER && data[1] == Rs485Frames.ORACLE && data[|data| - 1] == Rs485Frames.FRAME_FOOTER)
    ensures r.ShortChecksumFailed? <==> !r.ShortMalformed? && !Rs485Frames.ChecksumOk(data)
  {
    if |data| != 8 || data[0] != Rs485Frames.FRAME_HEADER || data[1] != Rs485Frames.ORACLE || data[|data| - 1] != Rs485Frames.FRAME_FOOTER then ShortMalformed
    else if data[6] != Sum(data[..6]) % 256 then ShortChecksumFailed
    else
      var (p1, p2, p3, p4) := (data[2], data[3], data[4], data[5]);
      if KnownBy(p1, p2, p3, p4).Some? then KnownReply(KnownBy(p1, p2, p3, p4).value)
      else if 0x91 <= p1 <= 0x9F then SsidAck(p1 - 0x90, ssidTotal)
      else if 0xA1 <= p1 <= 0xAF then PassAck(p1 - 0xA0, passTotal)
      else if p1 == 0x0A then FirmwareVersion(p2, p3, p4)
      else UnknownReply(p1, p2, p3, p4)
  }

  /** What the tool should make of the controller's reply to a test command, on the controller's side of the protocol. */
  function ReplyMeaning(cmd: byte, d5: byte, testMode: bool): Option<ShortReport>
  {
    if cmd == Rs485Comm.TEST_ENTER then Some(KnownReply(Entered))
    else if cmd == Rs485Comm.TEST_EXIT then Some(KnownReply(Exited))
    else if !testMode then Some(KnownReply(NotInTestMode))
    else if cmd == Rs485Comm.TEST_NET && d5 == 1 then Some(KnownReply(WifiAccepted))
    else if cmd == Rs485Comm.TEST_NET && d5 == 2 then Some(KnownReply(EthernetAccepted))
    else if cmd == Rs485Comm.TEST_VERSION then Some(FirmwareVersion(1, 0, 2))
    else None
  }

  /**
   * Every reply the controller sends to a test command is read by the tool
   * as what it means, and a command the controller does not answer has no
   * meaning to read.
   */
  lemma RepliesUnderstood(cmd: byte, d5: byte, testMode: bool, ssidTotal: int, passTotal: int)
    ensures |Rs485Comm.Replies(cmd, d5, testMode)| == 1 <==> ReplyMeaning(cmd, d5, testMode).Some?
    ensures forall f :: f in Rs485Comm.Replies(cmd, d5, testMode) ==> Some(ParseShortResponse(f, ssidTotal, passTotal)) == ReplyMeaning(cmd, d5, testMode)
  {
    var replies := Rs485Comm.Replies(cmd, d5, testMode);
    if |replies| == 1 {
      var f := replies[0];
      assert f[1..6] == [Rs485Frames.ORACLE, f[2], f[3], f[4], f[5]];
      SumOfSix(f[0], f[1], f[2], f[3], f[4], f[5]);
    }
  }

  /**
   * The controller's acknowledgement of a credential packet is read as the
   * acknowledgement of that packet's place in its transfer, shown against
   * the count of that transfer.
   */
  lemma AcksUnderstood(k: Rs485Session.Kind, id: byte, ssidTotal: int, passTotal: int)
    requires Rs485Session.InRange(k, id)
    ensures ParseShortResponse(Rs485Frames.ResponseFrame(Rs485Frames.ORACLE, Rs485Session.AckOf(k, id), 0x01, 0, 0), ssidTotal, passTotal)
      == if k == Rs485Session.Ssid then SsidAck(id - Rs485Session.FirstId(k) + 1, ssidTotal) else PassAck(id - Rs485Session.FirstId(k) + 1, passTotal)
  {
    var f := Rs485Frames.ResponseFrame(Rs485Frames.ORACLE, Rs485Session.AckOf(k, id), 0x01, 0, 0);
    assert f[2] == Rs485Session.AckOf(k, id) && f[3] == 0x01;
  }

  /** A reply with any one of its first seven bytes changed is never taken for a reply. */
  lemma CorruptedReplyRejected(f: seq<byte>, i: nat, v: byte, ssidTotal: int, passTotal: int)
    requires |f| == Rs485Frames.CMD_MAX_LEN && Rs485Frames.ChecksumOk(f) && i < 7 && v != f[i]
    ensures ParseShortResponse(f[i := v], ssidTotal, passTotal) in {ShortMalformed, ShortChecksumFailed}
  {
    Rs485Comm.CorruptedByteIsRejected(f, i, v, false);
  }

  /** The network names of the status report. */
  datatype NetName = WiFi | Ethernet | UnknownNet | OtherNet(code: byte)

  /** What `parse_received_data` reports for a 14-byte frame. */
  datatype StatusReport =
    | StatusMalformed
    | StatusChecksumFailed
      /** The serial number, the address octets in the order shown, and the network. */
    | Status(serial: nat, ip: seq<byte>, net: NetName)

  function NetNameOf(code: byte): NetName
  {
    if code == 0x01 then WiFi else if code == 0x02 then Ethernet else if code == 0x00 then UnknownNet else OtherNet(code)
  }

  /**
   * `parse_received_data`: the frame must be fourteen bytes with the
   * header, the tool's device type and the footer, and the checksum of its
   * first twelve bytes must hold; the serial number is read most significant
   * byte first, the four address octets in the order they arrive.
   */
  function ParseReceivedData(data: seq<byte>): (r: StatusReport)
    ensures r.StatusMalformed? <==>
      !(|data| == Rs485Comm.STATUS_SIZE && data[0] == Rs485Frames.FRAME_HEADER && data[1] == Rs485Frames.ORACLE && data[|data| - 1] == Rs485Frames.FRAME_FOOTER)
    ensures r.StatusChecksumFailed? <==> !r.StatusMalformed? && data[12] != Checksum(data[..12])
    ensures r.Status? ==> |r.ip| == 4
  {
    if |data| != 14 || data[0] != Rs485Frames.FRAME_HEADER || data[1] != Rs485Frames.ORACLE || data[|data| - 1] != Rs485Frames.FRAME_FOOTER then StatusMalformed
    else if data[12] != Sum(data[..12]) % 256 then StatusChecksumFailed
    else Status(Rs485Comm.BigEndian(data[3..7]), data[7..11], NetNameOf(data[11]))
  }

  /** The name the tool shows for each network the controller reports. */
  function NetNameFor(net: Rs485Comm.NetType): NetName
  {
    match net
    case Wifi => WiFi
    case Ethernet => Ethernet
    case NoNetwork => UnknownNet
  }

  /**
   * The status report round trip: the tool reads back the serial number,
   * the address and the network the controller put into its status frame.
   */
  lemma StatusRoundTrip(serialNum: nat, ipRaw: nat, net: Rs485Comm.NetType)
    requires serialNum < 0x1_0000_0000 && ipRaw < 0x1_0000_0000
    ensures var r := ParseReceivedData(Rs485Comm.StatusFrame(serialNum, ipRaw, net));
      r.Status? && r.serial == serialNum && Rs485Comm.LittleEndian(r.ip) == ipRaw && r.net == NetNameFor(net)
  {
  }

  /*
   * ---------------------------------------------------------------------
   * The receiving thread
   * ---------------------------------------------------------------------
   */

  /** The longest frame the receiver collects. */
  const MAX_FRAME_SIZE: nat := 14

  /**
   * Where the receiver ends a frame. As written, at the first footer byte
   * after the header, although a status frame's address, serial number or
   * checksum may hold that byte value; by the length the type byte implies,
   * the frame ends where its sender ended it.
   */
  datatype Framing = AtFirstFooter | ByLength

  /** The receiver's state: collecting a frame or waiting for a header, and the bytes collected. */
  datatype RxState = RxState(receiving: bool, frame: seq<byte>)

  const Waiting: RxState := RxState(false, [])

  /** What the receiver does with a frame it has ended. */
  datatype RxEvent =
      /** Handed to `parse_short_response`. */
    | ShortIn(frame: seq<byte>)
      /** Handed to `parse_received_data`. */
    | StatusIn(frame: seq<byte>)
    | OddLength(frame: seq<byte>)
    | Overlong(frame: seq<byte>)
      /** A frame that reached its length without the footer. */
    | Unterminated(frame: seq<byte>)

  /** The parser a frame ending in the footer goes to, by its length. */
  function Dispatch(f: seq<byte>): RxEvent
  {
    if |f| == Rs485Frames.CMD_MAX_LEN then ShortIn(f) else if |f| == Rs485Comm.STATUS_SIZE then StatusIn(f) else OddLength(f)
  }

  /** The length of a frame by its type byte: a status frame is fourteen bytes, every other frame eight. */
  function ExpectedLength(f: seq<byte>): nat
    requires |f| >= 3
  {
    if f[2] == Rs485Comm.STATUS_TYPE then Rs485Comm.STATUS_SIZE else Rs485Frames.CMD_MAX_LEN
  }

  /**
   * One byte through the receiver: a header starts a frame; a second byte
   * other than the tool's device type drops it; the frame then ends as the
   * framing says, and as written one longer than fourteen bytes is dropped.
   * A dropped or ended frame stays in the buffer until the next header.
   */
  function RxStep(framing: Framing, s: RxState, b: byte): (RxState, Option<RxEvent>)
  {
    if !s.receiving then
      (if b == Rs485Frames.FRAME_HEADER then RxState(true, [b]) else s, None)
    else
      var f := s.frame + [b];
      if |f| == 2 && f[1] != Rs485Frames.ORACLE then (RxState(false, f), None)
      else if framing == AtFirstFooter then
        if b == Rs485Frames.FRAME_FOOTER then (RxState(false, f), Some(Dispatch(f)))
        else if |f| > MAX_FRAME_SIZE then (RxState(false, f), Some(Overlong(f)))
        else (RxState(true, f), None)
      else if |f| >= 3 && |f| == ExpectedLength(f) then
        (RxState(false, f), Some(if b == Rs485Frames.FRAME_FOOTER then Dispatch(f) else Unterminated(f)))
      else (RxState(true, f), None)
  }

  /** The frames the receiver ends while reading `bs`, in order. */
  function RxEvents(framing: Framing, s: RxState, bs: seq<byte>): seq<RxEvent>
    decreases |bs|
  {
    if bs == [] then []
    else
      var (s', e) := RxStep(framing, s, bs[0]);
      (if e.Some? then [e.value] else []) + RxEvents(framing, s', bs[1..])
  }

  /** The receiver's state after reading `bs`. */
  function RxAfter(framing: Framing, s: RxState, bs: seq<byte>): RxState
    decreases |bs|
  {
    if bs == [] then s else RxAfter(framing, RxStep(framing, s, bs[0]).0, bs[1..])
  }

  /** `receiver_thread`'s state machine, fed one byte at a time. */
  class ToolReceiver {
    const framing: Framing
    var receiving: bool
    var currentFrame: seq<byte>

    function State(): RxState
      reads this
    {
      RxState(receiving, currentFrame)
    }

    constructor (framing: Framing)
      ensures this.framing == framing && State() == Waiting
    {
      this.framing := framing;
      receiving := false;
      currentFrame := [];
    }

    /** One byte read from the line: the new state, and the frame ended, if any. */
    method Feed(b: byte) returns (event: Option<RxEvent>)
      modifies this
      ensures (State(), event) == RxStep(framing, old(State()), b)
    {
      event := None;
      if !receiving {
        if b == Rs485Frames.FRAME_HEADER {
          currentFrame := [b];
          receiving := true;
        }
        return;
      }
      currentFrame := currentFrame + [b];
      if |currentFrame| == 2 && currentFrame[1] != Rs485Frames.ORACLE {
        receiving := false;
        return;
      }
      if framing == AtFirstFooter {
        if b == Rs485Frames.FRAME_FOOTER {
          event := Some(Dispatch(currentFrame));
          receiving := false;
        } else if |currentFrame| > MAX_FRAME_SIZE {
          event := Some(Overlong(currentFrame));
          receiving := false;
        }
      } else if |currentFrame| >= 3 && |currentFrame| == ExpectedLength(currentFrame) {
        event := Some(if b == Rs485Frames.FRAME_FOOTER then Dispatch(currentFrame) else Unterminated(currentFrame));
        receiving := false;
      }
    }

    /** The thread's loop over the bytes that arrive: every frame ended, in order. */
    method Receive(bytes: seq<byte>) returns (events: seq<RxEvent>)
      modifies this
      ensures events == RxEvents(framing, old(State()), bytes)
      ensures State() == RxAfter(framing, old(State()), bytes)
    {
      events := [];
      var i := 0;
      while i < |bytes|
        invariant 0 <= i <= |bytes|
        invariant events + RxEvents(framing, State(), bytes[i..]) == RxEvents(framing, old(State()), bytes)
        invariant RxAfter(framing, State(), bytes[i..]) == RxAfter(framing, old(State()), bytes)
      {
        assert bytes[i..][1..] == bytes[i + 1..];
        var event := Feed(bytes[i]);
        if event.Some? {
          events := events + [event.value];
        }
        i := i + 1;
      }
    }
  }

  /**
   * The frames a receiver takes whole: header, the tool's device type, and
   * a footer at the end; as written, no footer byte before the end and no
   * more than fourteen bytes; by length, the length the type byte implies.
   */
  predicate Delimited(framing: Framing, f: seq<byte>)
  {
    && 3 <= |f| && f[0] == Rs485Frames.FRAME_HEADER && f[1] == Rs485Frames.ORACLE && f[|f| - 1] == Rs485Frames.FRAME_FOOTER
    && (framing == AtFirstFooter ==> |f| <= MAX_FRAME_SIZE && Rs485Frames.FRAME_FOOTER !in f[1..|f| - 1])
    && (framing == ByLength ==> |f| == ExpectedLength(f))
  }

  /** The rest of a delimited frame, once its first `k` bytes are collected, ends it with exactly one event. */
  lemma {:induction false} FrameCompleted(framing: Framing, f: seq<byte>, k: nat, rest: seq<byte>)
    requires Delimited(framing, f) && 1 <= k < |f|
    ensures RxEvents(framing, RxState(true, f[..k]), f[k..] + rest) == [Dispatch(f)] + RxEvents(framing, RxState(false, f), rest)
    decreases |f| - k
  {
    var bs := f[k..] + rest;
    assert bs[0] == f[k] && bs[1..] == f[k + 1..] + rest;
    StepInside(framing, f, k);
    if k < |f| - 1 {
      FrameCompleted(framing, f, k + 1, rest);
    }
  }

  /** One byte of a delimited frame, once its first `k` bytes are collected: the last byte ends it, any other is collected. */
  lemma StepInside(framing: Framing, f: seq<byte>, k: nat)
    requires Delimited(framing, f) && 1 <= k < |f|
    ensures RxStep(framing, RxState(true, f[..k]), f[k]) ==
      if k == |f| - 1 then (RxState(false, f), Some(Dispatch(f))) else (RxState(true, f[..k + 1]), None)
  {
    assert f[..k] + [f[k]] == f[..k + 1];
    if k == |f| - 1 {
      assert f[..k + 1] == f;
    } else {
      assert f[k] in f[1..|f| - 1];
      assert k + 1 >= 3 ==> f[..k + 1][2] == f[2];
    }
  }

  /** A receiver waiting for a header takes a delimited frame whole, and is waiting again after it. */
  lemma FrameReceived(framing: Framing, s: RxState, f: seq<byte>, rest: seq<byte>)
    requires !s.receiving && Delimited(framing, f)
    ensures RxEvents(framing, s, f + rest) == [Dispatch(f)] + RxEvents(framing, RxState(false, f), rest)
  {
    var bs := f + rest;
    assert bs[0] == Rs485Frames.FRAME_HEADER && bs[1..] == f[1..] + rest;
    assert [f[0]] == f[..1];
    FrameCompleted(framing, f, 1, rest);
  }

  /** No frame the receiver ends is longer than what it had collected plus what it reads. */
  lemma {:induction false} EventFramesBounded(framing: Framing, s: RxState, bs: seq<byte>)
    ensures forall e :: e in RxEvents(framing, s, bs) ==> |e.frame| <= (if s.receiving then |s.frame| else 0) + |bs|
    decreases |bs|
  {
    if bs != [] {
      var (s', e) := RxStep(framing, s, bs[0]);
      EventFramesBounded(framing, s', bs[1..]);
    }
  }

  /** Bytes without a header leave a waiting receiver waiting, and end no frame. */
  lemma {:induction false} NoHeaderNoEvents(framing: Framing, s: RxState, bs: seq<byte>)
    requires !s.receiving && Rs485Frames.FRAME_HEADER !in bs
    ensures RxEvents(framing, s, bs) == []
    decreases |bs|
  {
    if bs != [] {
      assert bs[0] in bs;
      assert forall b :: b in bs[1..] ==> b in bs;
      NoHeaderNoEvents(framing, s, bs[1..]);
    }
  }

  /**
   * As written, a status frame with a footer byte inside is cut at the
   * first one: the receiver hands the bytes up to it to the wrong parser or
   * to none, and never hands the status frame to `parse_received_data`.
   */
  lemma InnerFooterCutsStatus(f: seq<byte>, j: nat)
    requires |f| == Rs485Comm.STATUS_SIZE && f[0] == Rs485Frames.FRAME_HEADER && f[1] == Rs485Frames.ORACLE
    requires 2 <= j < 13 && f[j] == Rs485Frames.FRAME_FOOTER && Rs485Frames.FRAME_FOOTER !in f[1..j]
    ensures RxEvents(AtFirstFooter, Waiting, f) == [Dispatch(f[..j + 1])] + RxEvents(AtFirstFooter, RxState(false, f[..j + 1]), f[j + 1..])
    ensures StatusIn(f) !in RxEvents(AtFirstFooter, Waiting, f)
  {
    var g := f[..j + 1];
    assert g[1..|g| - 1] == f[1..j];
    assert g + f[j + 1..] == f;
    FrameReceived(AtFirstFooter, Waiting, g, f[j + 1..]);
    EventFramesBounded(AtFirstFooter, RxState(false, g), f[j + 1..]);
  }

  /** 192.168.1.126 as the controller's address word holds it, first octet lowest. */
  const ADDRESS_126: nat := 0x7E01_A8C0

  /**
   * A controller at 192.168.1.126 with no serial number on WiFi: as
   * written, its status frame reaches the tool as an 11-byte frame of
   * unknown length; ended by length, it is read whole.
   */
  lemma StatusOf126Cut()
    ensures var f := Rs485Comm.StatusFrame(0, ADDRESS_126, Rs485Comm.Wifi);
      && RxEvents(AtFirstFooter, Waiting, f) == [OddLength(f[..11])]
      && RxEvents(ByLength, Waiting, f) == [StatusIn(f)]
      && ParseReceivedData(f) == Status(0, [192, 168, 1, 126], WiFi)
  {
    var f := Rs485Comm.StatusFrame(0, ADDRESS_126, Rs485Comm.Wifi);
    Status126FirstFooter();
    StatusFramesByLength(0, ADDRESS_126, Rs485Comm.Wifi, []);
    assert f + [] == f;
    StatusRoundTrip(0, ADDRESS_126, Rs485Comm.Wifi);
    Status126Bytes();
    LiteralAddress(f);
  }

  /** As written, the receiver ends the status frame at the address byte 126, and the bytes after it open no frame. */
  lemma Status126FirstFooter()
    ensures var f := Rs485Comm.StatusFrame(0, ADDRESS_126, Rs485Comm.Wifi);
      RxEvents(AtFirstFooter, Waiting, f) == [OddLength(f[..11])]
  {
    Status126Bytes();
    LiteralFirstFooter(Rs485Comm.StatusFrame(0, ADDRESS_126, Rs485Comm.Wifi));
  }

  /** The bytes of that frame, cut at the address byte 126. */
  lemma LiteralFirstFooter(f: seq<byte>)
    requires f == [0x7F, 0x79, 0x11, 0, 0, 0, 0, 0xC0, 0xA8, 0x01, 0x7E, 0x01, 0xF1, 0x7E]
    ensures RxEvents(AtFirstFooter, Waiting, f) == [OddLength(f[..11])]
  {
    assert Rs485Frames.FRAME_FOOTER !in f[1..10];
    InnerFooterCutsStatus(f, 10);
    NoHeaderNoEvents(AtFirstFooter, RxState(false, f[..11]), f[11..]);
  }

  /** The status frame of a controller at 192.168.1.126 on WiFi, with serial number 0, byte by byte. */
  lemma Status126Bytes()
    ensures Rs485Comm.StatusFrame(0, ADDRESS_126, Rs485Comm.Wifi)
      == [0x7F, 0x79, 0x11, 0, 0, 0, 0, 0xC0, 0xA8, 0x01, 0x7E, 0x01, 0xF1, 0x7E]
  {
    var f := Rs485Comm.StatusFrame(0, ADDRESS_126, Rs485Comm.Wifi);
    assert Rs485Comm.Be32(0) == [0, 0, 0, 0];
    assert Rs485Comm.Le32(ADDRESS_126) == [0xC0, 0xA8, 0x01, 0x7E];
    assert f[..12] == [0x7F, 0x79, 0x11, 0, 0, 0] + [0, 0xC0, 0xA8, 0x01, 0x7E, 0x01];
    Checksum126();
    assert f == f[..12] + [f[12], f[13]];
  }

  /** The checksum of that frame's first twelve bytes. */
  lemma Checksum126()
    ensures Checksum([0x7F, 0x79, 0x11, 0, 0, 0] + [0, 0xC0, 0xA8, 0x01, 0x7E, 0x01]) == 0xF1
  {
    SumAppend([0x7F, 0x79, 0x11, 0, 0, 0], [0, 0xC0, 0xA8, 0x01, 0x7E, 0x01]);
    SumOfSix(0x7F, 0x79, 0x11, 0, 0, 0);
    SumOfSix(0, 0xC0, 0xA8, 0x01, 0x7E, 0x01);
  }

  /** The address bytes of that frame. */
  lemma LiteralAddress(f: seq<byte>)
    requires f == [0x7F, 0x79, 0x11, 0, 0, 0, 0, 0xC0, 0xA8, 0x01, 0x7E, 0x01, 0xF1, 0x7E]
    ensures f[7..11] == [192, 168, 1, 126]
  {
  }

  /** Ended by length, every status frame reaches the status parser whole, whatever bytes it carries. */
  lemma StatusFramesByLength(serialNum: nat, ipRaw: nat, net: Rs485Comm.NetType, rest: seq<byte>)
    requires serialNum < 0x1_0000_0000 && ipRaw < 0x1_0000_0000
    ensures var f := Rs485Comm.StatusFrame(serialNum, ipRaw, net);
      RxEvents(ByLength, Waiting, f + rest) == [StatusIn(f)] + RxEvents(ByLength, RxState(false, f), rest)
  {
    var f := Rs485Comm.StatusFrame(serialNum, ipRaw, net);
    FrameReceived(ByLength, Waiting, f, rest);
  }

  /** Ended by length, every reply frame whose command is not the status type reaches the reply parser whole. */
  lemma RepliesByLength(cmd: byte, p3: byte, p4: byte, p5: byte, rest: seq<byte>)
    requires cmd != Rs485Comm.STATUS_TYPE
    ensures var f := Rs485Frames.ResponseFrame(Rs485Frames.ORACLE, cmd, p3, p4, p5);
      RxEvents(ByLength, Waiting, f + rest) == [ShortIn(f)] + RxEvents(ByLength, RxState(false, f), rest)
  {
    var f := Rs485Frames.ResponseFrame(Rs485Frames.ORACLE, cmd, p3, p4, p5);
    assert f[2] == cmd;
    FrameReceived(ByLength, Waiting, f, rest);
  }
}
