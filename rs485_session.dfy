/**
 * The Wi-Fi credential transfer of rs485_comm.cpp (lines 247-347, and the
 * timeout task at 531-552): in test mode the SSID and the password arrive
 * in numbered packets of three bytes each, SSID packets numbered 0x71 to
 * 0x7F and password packets 0x81 to 0x8F. The first packet opens a
 * session, every packet must carry the next number or the session is
 * dropped, each accepted packet is acknowledged, a 0xFF byte ends the
 * string, and a periodic task drops a session that has run for more than
 * two seconds.
 *
 * The two transfers run the same code on separate statics, so one
 * `ChunkReceiver` class serves both, told apart by its `Kind`. The pure
 * model below (`Session`, `Step`, `Tick`, and runs over scheduled
 * deliveries) specifies the class and carries the round-trip theorems.
 */
module Rs485Session {
  import opened Wrappers
  import opened Bytes
  import Rs485Frames

  /** `sizeof(wifi_ssid)` and `sizeof(wifi_pass)`. */
  const BUFFER_SIZE: nat := 64
  /** The most bytes a transfer stores: the buffer less its terminating NUL. */
  const MAX_TEXT: nat := 63
  /** The byte that ends a transfer inside a packet. */
  const TERMINATOR: byte := 0xFF
  /** A session older than this many microseconds is dropped by the timeout task. */
  const TIMEOUT_US: int := 2_000_000
  /** The longest string a transfer can carry: fifteen packet numbers, the last of which must hold a terminator. */
  const MAX_TRANSFER: nat := 44

  datatype Kind = Ssid | Pass

  /** The number of a transfer's first packet. */
  function FirstId(k: Kind): byte
  {
    if k == Ssid then 0x71 else 0x81
  }

  /** The number of a transfer's last possible packet. */
  function LastId(k: Kind): byte
  {
    if k == Ssid then 0x7F else 0x8F
  }

  /** Which packet numbers the dispatcher hands to a transfer. */
  predicate InRange(k: Kind, id: byte)
  {
    FirstId(k) <= id <= LastId(k)
  }

  /**
   * The acknowledgement code for packet `id`: `0x90 + id - 0x70` for an
   * SSID packet and `0xA0 + (id - 0x80)` for a password packet, kept to a
   * byte as `generate_response`'s `uint8_t` parameter keeps it.
   */
  function AckOf(k: Kind, id: byte): (a: byte)
    ensures InRange(k, id) ==> a == (if k == Ssid then 0x90 else 0xA0) + (id - FirstId(k) + 1)
  {
    if k == Ssid then LowByte(0x90 + id - 0x70) else LowByte(0xA0 + (id - 0x80))
  }

  /** The three bytes after the packet number: `data[2]` and `data[3..5]` of the frame. */
  datatype Packet = Packet(id: byte, c0: byte, c1: byte, c2: byte)

  /** The packet an 8-byte frame carries. */
  function PacketOf(data: seq<byte>): (p: Packet)
    requires |data| == 8
    ensures p.id == data[2] && [p.c0, p.c1, p.c2] == data[3..6]
  {
    Packet(data[2], data[3], data[4], data[5])
  }

  /** Whether the packet holds the terminator. */
  predicate Ends(p: Packet)
  {
    p.c0 == TERMINATOR || p.c1 == TERMINATOR || p.c2 == TERMINATOR
  }

  /** The bytes the copy loop takes from a packet: those before the first terminator. */
  function Payload(p: Packet): (r: seq<byte>)
    ensures |r| <= 3 && TERMINATOR !in r
    ensures |r| < 3 <==> Ends(p)
    ensures |r| < 3 ==> [p.c0, p.c1, p.c2][|r|] == TERMINATOR
  {
    if p.c0 == TERMINATOR then []
    else if p.c1 == TERMINATOR then [p.c0]
    else if p.c2 == TERMINATOR then [p.c0, p.c1]
    else [p.c0, p.c1, p.c2]
  }

  function Min(a: nat, b: nat): nat
  {
    if a <= b then a else b
  }

  /** What the buffer holds after copying `data` behind `text`: every byte that still fits before the last slot. */
  function Stored(text: seq<byte>, data: seq<byte>): (r: seq<byte>)
    ensures |text| <= MAX_TEXT ==> |r| <= MAX_TEXT
    ensures |text + data| <= MAX_TEXT ==> r == text + data
  {
    if |text| >= MAX_TEXT then text else text + data[..Min(|data|, MAX_TEXT - |text|)]
  }

  /** The string `save_wifi_credentials` reads from the buffer: everything before the first NUL. */
  function CText(s: seq<byte>): (r: seq<byte>)
    ensures |r| <= |s| && 0 !in r
    ensures 0 !in s ==> r == s
  {
    if s == [] || s[0] == 0 then []
    else
      var rest := CText(s[1..]);
      assert s == [s[0]] + s[1..];
      [s[0]] + rest
  }

  /*
   * ---------------------------------------------------------------------
   * The pure model
   * ---------------------------------------------------------------------
   */

  /**
   * A transfer's statics: the receiving flag, the bytes stored so far
   * (the buffer up to the offset), the next packet number expected and
   * the time the session is timed from.
   */
  datatype Session = Session(receiving: bool, text: seq<byte>, expected: byte, start: int)

  /** The zero-initialised statics. */
  const Idle: Session := Session(false, [], 0, 0)

  /** The offset stays inside the buffer, and only an open session holds bytes. */
  predicate WellFormed(s: Session)
  {
    |s.text| <= MAX_TEXT && (!s.receiving ==> s.text == [])
  }

  /** A dropped session: flag down, buffer cleared; the expected number and start time stay as they were. */
  function Dropped(s: Session): Session
  {
    Session(false, [], s.expected, s.start)
  }

  /**
   * When the session is timed from. As written (rs485_comm.cpp:261 and
   * 312) the start time is taken at the first packet only; the corrected
   * rule takes it again at every accepted packet.
   */
  datatype Timeout = FromFirstPacket | FromLatestPacket

  /** A packet is taken when it opens a session, or when a session is open and it carries the expected number. */
  predicate Accepted(k: Kind, s: Session, p: Packet)
  {
    p.id == FirstId(k) || (s.receiving && p.id == s.expected)
  }

  /** The session a first packet opens at time `now`; any other packet leaves it as it is. */
  function Opened(k: Kind, s: Session, p: Packet, now: int): Session
  {
    if p.id == FirstId(k) then Session(true, [], FirstId(k), now) else s
  }

  /**
   * One packet of kind `k` arriving at `now`: a packet other than the
   * first with no session open is ignored; a packet out of order drops
   * the session; an accepted packet moves the expected number on and
   * stores its payload, and a terminator closes the session.
   */
  function Step(k: Kind, s: Session, p: Packet, now: int, policy: Timeout): (n: Session)
    ensures WellFormed(s) ==> WellFormed(n)
    ensures !s.receiving && p.id != FirstId(k) ==> n == s
    ensures !Accepted(k, s, p) && s.receiving ==> n == Dropped(s)
    ensures Accepted(k, s, p) ==> n.receiving == !Ends(p) && n.expected == LowByte(Opened(k, s, p, now).expected + 1)
    ensures Accepted(k, s, p) && policy == FromLatestPacket ==> n.start == now
    ensures p.id == FirstId(k) ==> n.start == now
  {
    if !Accepted(k, s, p) then
      if s.receiving then Dropped(s) else s
    else
      var o := Opened(k, s, p, now);
      var expected := LowByte(o.expected + 1);
      var start := if policy == FromLatestPacket then now else o.start;
      if Ends(p) then Session(false, [], expected, start)
      else Session(true, Carried(k, s, p), expected, start)
  }

  /** The bytes an accepted packet leaves in the buffer: its payload behind what the session held, or alone when it opens the session. */
  function Carried(k: Kind, s: Session, p: Packet): seq<byte>
  {
    Stored(if p.id == FirstId(k) then [] else s.text, Payload(p))
  }

  /** The acknowledgement an arriving packet draws: one frame for an accepted packet, none otherwise. */
  function Acks(k: Kind, s: Session, p: Packet): (r: seq<seq<byte>>)
    ensures |r| == if Accepted(k, s, p) then 1 else 0
  {
    if Accepted(k, s, p) then [Rs485Frames.ResponseFrame(Rs485Frames.ORACLE, AckOf(k, p.id), 0x01, 0x00, 0x00)] else []
  }

  /** The string a packet completes, if any: the stored bytes when an accepted packet holds the terminator. */
  function Saved(k: Kind, s: Session, p: Packet): (r: Option<seq<byte>>)
    ensures r.Some? <==> Accepted(k, s, p) && Ends(p)
    ensures r.Some? ==> 0 !in r.value
    ensures r.Some? && WellFormed(s) ==> |r.value| <= MAX_TEXT
  {
    if Accepted(k, s, p) && Ends(p) then Some(CText(Carried(k, s, p))) else None
  }

  /** One pass of the timeout task at `now`: an open session older than the timeout is dropped. */
  function Tick(s: Session, now: int): (n: Session)
    ensures WellFormed(s) ==> WellFormed(n)
    ensures n == s || n == Dropped(s)
    ensures n.expected == s.expected && n.start == s.start
  {
    if s.receiving && now - s.start > TIMEOUT_US then Dropped(s) else s
  }

  /*
   * ---------------------------------------------------------------------
   * Runs: packets delivered at given times, with the timeout task's
   * passes that fall before each of them
   * ---------------------------------------------------------------------
   */

  /** A packet arriving at time `at`, after the timeout task has run at each time in `ticks`. */
  datatype Delivery = Delivery(ticks: seq<int>, at: int, packet: Packet)

  /** The session after the timeout task has run at each of `ticks` in turn. */
  function Ticked(s: Session, ticks: seq<int>): (n: Session)
    ensures WellFormed(s) ==> WellFormed(n)
  {
    if ticks == [] then s else Tick(Ticked(s, ticks[..|ticks| - 1]), ticks[|ticks| - 1])
  }

  /** One delivery: the timeout task's passes, then the packet. */
  function Deliver(k: Kind, r: Session, d: Delivery, policy: Timeout): (n: Session)
    ensures WellFormed(r) ==> WellFormed(n)
  {
    Step(k, Ticked(r, d.ticks), d.packet, d.at, policy)
  }

  /** The string one delivery completes, if any, as a sequence of at most one. */
  function DeliverSaved(k: Kind, r: Session, d: Delivery): seq<seq<byte>>
  {
    var o := Saved(k, Ticked(r, d.ticks), d.packet);
    if o.Some? then [o.value] else []
  }

  /** The session after a run of deliveries. */
  function Final(k: Kind, s: Session, ds: seq<Delivery>, policy: Timeout): (n: Session)
    ensures WellFormed(s) ==> WellFormed(n)
    decreases |ds|
  {
    if ds == [] then s else Final(k, Deliver(k, s, ds[0], policy), ds[1..], policy)
  }

  /** The strings a run of deliveries completes, in order. */
  function SavedAll(k: Kind, s: Session, ds: seq<Delivery>, policy: Timeout): seq<seq<byte>>
    decreases |ds|
  {
    if ds == [] then [] else DeliverSaved(k, s, ds[0]) + SavedAll(k, Deliver(k, s, ds[0], policy), ds[1..], policy)
  }

  /**
   * The timeout task's passes either leave the session alone or drop it,
   * and they drop it exactly when it is open and one of them comes more
   * than the timeout after its start.
   */
  lemma {:induction false} TickedDrops(s: Session, ticks: seq<int>)
    ensures Ticked(s, ticks) == if s.receiving && exists j :: 0 <= j < |ticks| && ticks[j] - s.start > TIMEOUT_US then Dropped(s) else s
  {
    if ticks != [] {
      var init := ticks[..|ticks| - 1];
      TickedDrops(s, init);
      assert forall j :: 0 <= j < |init| ==> init[j] == ticks[j];
      if s.receiving && exists j :: 0 <= j < |ticks| && ticks[j] - s.start > TIMEOUT_US {
        var j :| 0 <= j < |ticks| && ticks[j] - s.start > TIMEOUT_US;
        if j < |init| {
          assert init[j] - s.start > TIMEOUT_US;
        }
      }
    }
  }

  /** Once no session is open, deliveries that do not open one change nothing and complete nothing. */
  lemma {:induction false} IgnoredRun(k: Kind, s: Session, ds: seq<Delivery>, policy: Timeout)
    requires !s.receiving
    requires forall j :: 0 <= j < |ds| ==> ds[j].packet.id != FirstId(k)
    ensures Final(k, s, ds, policy) == s
    ensures SavedAll(k, s, ds, policy) == []
    decreases |ds|
  {
    if ds != [] {
      TickedDrops(s, ds[0].ticks);
      IgnoredRun(k, s, ds[1..], policy);
    }
  }

  /*
   * ---------------------------------------------------------------------
   * The transfer a sender makes of a string
   * ---------------------------------------------------------------------
   */

  /** Byte `j` of the padded string: past its end the terminator. */
  function At(t: seq<byte>, j: nat): byte
  {
    if j < |t| then t[j] else TERMINATOR
  }

  /** The packets that carry `t`: packet `i` holds bytes `3i..3i+2`, and the one holding the end is padded with the terminator. */
  function ChunkPacket(k: Kind, t: seq<byte>, i: nat): (p: Packet)
    requires i <= |t| / 3 && |t| <= MAX_TRANSFER
    ensures InRange(k, p.id)
  {
    Packet(FirstId(k) + i, At(t, 3 * i), At(t, 3 * i + 1), At(t, 3 * i + 2))
  }

  /** How many packets carry `t`: one per started three bytes, and one more when the length is a multiple of three. */
  function ChunkCount(t: seq<byte>): nat
  {
    |t| / 3 + 1
  }

  /** A schedule delivers the packets of `t` in order. */
  predicate Carries(k: Kind, t: seq<byte>, ds: seq<Delivery>)
    requires |t| <= MAX_TRANSFER
  {
    |ds| == ChunkCount(t) && forall i :: 0 <= i < |ds| ==> ds[i].packet == ChunkPacket(k, t, i)
  }

  /** No pass of the timeout task before the delivery's packet comes more than the timeout after `start`. */
  predicate Quiet(d: Delivery, start: int)
  {
    forall j :: 0 <= j < |d.ticks| ==> d.ticks[j] - start <= TIMEOUT_US
  }

  /**
   * Each delivery meets a session that no pass of the timeout task finds
   * too old, the session being timed from `start` before the first of
   * them and, under `policy`, from each packet's arrival after it.
   */
  predicate QuietFrom(ds: seq<Delivery>, start: int, policy: Timeout)
    decreases |ds|
  {
    ds == [] || (Quiet(ds[0], start) && QuietFrom(ds[1..], if policy == FromLatestPacket then ds[0].at else start, policy))
  }

  /** No pass of the timeout task between two packets of the schedule finds the session the first packet opened too old. */
  predicate KeptAlive(ds: seq<Delivery>, policy: Timeout)
  {
    ds == [] || QuietFrom(ds[1..], ds[0].at, policy)
  }

  /** Every pass of the timeout task comes within the timeout of the packet before it. */
  predicate Paced(ds: seq<Delivery>)
  {
    forall i :: 1 <= i < |ds| ==> Quiet(ds[i], ds[i - 1].at)
  }

  /** Bytes `3i..3i+2` of `t`, for a packet that holds no end. */
  lemma FullPacket(k: Kind, t: seq<byte>, i: nat)
    requires i < |t| / 3 && |t| <= MAX_TRANSFER && TERMINATOR !in t
    ensures !Ends(ChunkPacket(k, t, i))
    ensures Payload(ChunkPacket(k, t, i)) == t[3 * i..3 * i + 3]
  {
    assert t[3 * i] in t && t[3 * i + 1] in t && t[3 * i + 2] in t;
  }

  /** The packet holding the end of `t` carries the rest of it and the terminator. */
  lemma LastPacket(k: Kind, t: seq<byte>)
    requires |t| <= MAX_TRANSFER && TERMINATOR !in t
    ensures Ends(ChunkPacket(k, t, |t| / 3))
    ensures Payload(ChunkPacket(k, t, |t| / 3)) == t[3 * (|t| / 3)..]
  {
    var i := |t| / 3;
    if 3 * i + 1 < |t| {
      assert t[3 * i] in t && t[3 * i + 1] in t;
    } else if 3 * i < |t| {
      assert t[3 * i] in t;
    }
  }

  /** Passes of the timeout task that all come within the timeout of the session's start leave it alone. */
  lemma QuietTicks(r: Session, d: Delivery)
    requires Quiet(d, r.start)
    ensures Ticked(r, d.ticks) == r
  {
    TickedDrops(r, d.ticks);
  }

  /**
   * Packet `i` of `t`, a full one, delivered while the session holds the
   * first `3i` bytes (or, for the first packet, in any state) and no pass
   * of the timeout task finds it too old: the session holds three more
   * bytes and expects the next number.
   */
  lemma AcceptFull(k: Kind, r: Session, t: seq<byte>, i: nat, d: Delivery, policy: Timeout)
    requires |t| <= MAX_TRANSFER && TERMINATOR !in t && i < |t| / 3 && WellFormed(r)
    requires d.packet == ChunkPacket(k, t, i)
    requires i > 0 ==> r.receiving && r.text == t[..3 * i] && r.expected == FirstId(k) + i
    requires i > 0 ==> Quiet(d, r.start)
    ensures Deliver(k, r, d, policy)
      == Session(true, t[..3 * i + 3], FirstId(k) + i + 1, if i == 0 || policy == FromLatestPacket then d.at else r.start)
    ensures DeliverSaved(k, r, d) == []
  {
    FullPacket(k, t, i);
    assert t[..3 * i + 3] == t[..3 * i] + t[3 * i..3 * i + 3];
    if i == 0 {
      assert t[..0] == [];
    } else {
      QuietTicks(r, d);
    }
  }

  /** Packet `|t| / 3`, the one holding the end, delivered while the session holds all bytes before it and no pass finds it too old: `t` is saved and the session closes. */
  lemma AcceptLast(k: Kind, r: Session, t: seq<byte>, d: Delivery, policy: Timeout)
    requires |t| <= MAX_TRANSFER && TERMINATOR !in t && 0 !in t && WellFormed(r)
    requires d.packet == ChunkPacket(k, t, |t| / 3)
    requires |t| >= 3 ==> r.receiving && r.text == t[..3 * (|t| / 3)] && r.expected == FirstId(k) + |t| / 3
    requires |t| >= 3 ==> Quiet(d, r.start)
    ensures !Deliver(k, r, d, policy).receiving
    ensures DeliverSaved(k, r, d) == [t]
  {
    var n := |t| / 3;
    LastPacket(k, t);
    assert t == t[..3 * n] + t[3 * n..];
    if n == 0 {
      assert t[..0] == [];
    } else {
      QuietTicks(r, d);
    }
  }

  /**
   * Where a transfer of `t` stands before packet `i`: the packets are
   * delivered in order, the session holds the first `3i` bytes (any
   * session will do before the first packet), and no pass of the timeout
   * task from here on finds it too old.
   */
  predicate Midway(k: Kind, r: Session, t: seq<byte>, ds: seq<Delivery>, i: nat, policy: Timeout)
  {
    |t| <= MAX_TRANSFER && TERMINATOR !in t && 0 !in t && WellFormed(r)
    && i <= |t| / 3 && Carries(k, t, ds)
    && (i > 0 ==> r.receiving && r.text == t[..3 * i] && r.expected == FirstId(k) + i && QuietFrom(ds[i..], r.start, policy))
    && (i == 0 ==> QuietFrom(ds[1..], ds[0].at, policy))
  }

  /** One full packet of the rest of a transfer: it completes nothing and hands on a session holding three more bytes. */
  lemma RestStep(k: Kind, r: Session, t: seq<byte>, ds: seq<Delivery>, i: nat, policy: Timeout) returns (next: Session)
    requires Midway(k, r, t, ds, i, policy) && i < |t| / 3
    ensures Midway(k, next, t, ds, i + 1, policy)
    ensures SavedAll(k, r, ds[i..], policy) == SavedAll(k, next, ds[i + 1..], policy)
    ensures Final(k, r, ds[i..], policy) == Final(k, next, ds[i + 1..], policy)
  {
    var d := ds[i];
    assert d.packet == ChunkPacket(k, t, i) by { assert Carries(k, t, ds); }
    var after := if i == 0 || policy == FromLatestPacket then d.at else r.start;
    if i > 0 {
      QuietStep(ds, i, r.start, policy);
    }
    AcceptFull(k, r, t, i, d, policy);
    next := Session(true, t[..3 * i + 3], FirstId(k) + i + 1, after);
    RunStep(k, r, ds[i..], next, policy);
    assert ds[i..][1..] == ds[i + 1..];
  }

  /** Deliveries from `i` on that keep a session alive: the first meets it, and the rest meet the session it leads to. */
  lemma QuietStep(ds: seq<Delivery>, i: nat, start: int, policy: Timeout)
    requires i < |ds| && QuietFrom(ds[i..], start, policy)
    ensures Quiet(ds[i], start)
    ensures QuietFrom(ds[i + 1..], if policy == FromLatestPacket then ds[i].at else start, policy)
  {
    assert ds[i..][0] == ds[i] && ds[i..][1..] == ds[i + 1..];
  }

  /** A delivery that completes nothing and leads to `next` passes the rest of the run on to `next`. */
  lemma RunStep(k: Kind, r: Session, ds: seq<Delivery>, next: Session, policy: Timeout)
    requires ds != [] && Deliver(k, r, ds[0], policy) == next && DeliverSaved(k, r, ds[0]) == []
    ensures SavedAll(k, r, ds, policy) == SavedAll(k, next, ds[1..], policy)
    ensures Final(k, r, ds, policy) == Final(k, next, ds[1..], policy)
  {
  }

  /** The last packet of `t`, delivered to a session holding the bytes before it, completes the transfer. */
  lemma RestLast(k: Kind, r: Session, t: seq<byte>, ds: seq<Delivery>, i: nat, policy: Timeout)
    requires Midway(k, r, t, ds, i, policy) && i == |t| / 3
    ensures SavedAll(k, r, ds[i..], policy) == [t]
    ensures !Final(k, r, ds[i..], policy).receiving
  {
    var d := ds[i];
    assert d.packet == ChunkPacket(k, t, i) by { assert Carries(k, t, ds); }
    assert |t| >= 3 <==> i > 0;
    if i > 0 {
      QuietStep(ds, i, r.start, policy);
    }
    AcceptLast(k, r, t, d, policy);
    assert ds[i..] == [d];
  }

  /**
   * The round trip: when the packets of `t` (no terminator byte, no NUL,
   * at most 44 bytes) arrive in order and no timeout intervenes, the
   * transfer completes exactly once, with `t`, and closes the session.
   */
  lemma Delivered(k: Kind, s: Session, t: seq<byte>, ds: seq<Delivery>, policy: Timeout)
    requires WellFormed(s) && |t| <= MAX_TRANSFER && TERMINATOR !in t && 0 !in t
    requires Carries(k, t, ds) && KeptAlive(ds, policy)
    ensures SavedAll(k, s, ds, policy) == [t]
    ensures !Final(k, s, ds, policy).receiving
  {
    assert |ds| == ChunkCount(t) && ds != [] by { assert Carries(k, t, ds); }
    assert QuietFrom(ds[1..], ds[0].at, policy) by { assert KeptAlive(ds, policy); }
    var r, i := s, 0;
    assert ds[0..] == ds;
    while i < |t| / 3
      invariant i <= |t| / 3 && Midway(k, r, t, ds, i, policy)
      invariant SavedAll(k, s, ds, policy) == SavedAll(k, r, ds[i..], policy)
      invariant Final(k, s, ds, policy) == Final(k, r, ds[i..], policy)
      decreases |t| / 3 - i
    {
      r := RestStep(k, r, t, ds, i, policy);
      i := i + 1;
    }
    RestLast(k, r, t, ds, i, policy);
  }

  /** A paced schedule keeps the session alive under the corrected rule. */
  lemma {:induction false} PacedQuiet(ds: seq<Delivery>)
    requires |ds| > 0 && Paced(ds)
    ensures QuietFrom(ds[1..], ds[0].at, FromLatestPacket)
    decreases |ds|
  {
    if |ds| > 1 {
      assert Quiet(ds[1], ds[0].at);
      PacedQuiet(ds[1..]);
      assert ds[1..][1..] == ds[2..];
    }
  }

  /** The corrected rule keeps every paced schedule alive, so every paced transfer of `t` completes with `t`. */
  lemma PacedIsDelivered(k: Kind, s: Session, t: seq<byte>, ds: seq<Delivery>)
    requires WellFormed(s) && |t| <= MAX_TRANSFER && TERMINATOR !in t && 0 !in t
    requires Carries(k, t, ds) && Paced(ds)
    ensures SavedAll(k, s, ds, FromLatestPacket) == [t]
  {
    PacedQuiet(ds);
    Delivered(k, s, t, ds, FromLatestPacket);
  }

  /*
   * ---------------------------------------------------------------------
   * The desktop tool's pacing against the timeout
   * ---------------------------------------------------------------------
   */

  /** The tool writes a packet, then sleeps 300 ms. */
  const TOOL_GAP_US: int := 300_000
  /** The timeout task runs every 500 ms. */
  const TICK_PERIOD_US: int := 500_000

  /** Where the timeout task's 500 ms period stands when the first packet arrives: its passes come `phase` µs after it, and every 500 ms before and after. */
  predicate ValidPhase(phase: int)
  {
    0 <= phase < TICK_PERIOD_US
  }

  /** A pass of the timeout task may come at time `x`, counted from the first packet's arrival. */
  predicate OnGrid(x: int, phase: int)
  {
    (x - phase) % TICK_PERIOD_US == 0
  }

  /** The pass of the timeout task in `(lo, hi]`: a window shorter than the period holds at most one, and holds it whenever one falls there. */
  function TickIn(lo: int, hi: int, phase: int): (r: seq<int>)
    requires 0 <= lo <= hi <= lo + TOOL_GAP_US && ValidPhase(phase)
    ensures forall j :: 0 <= j < |r| ==> lo < r[j] <= hi && OnGrid(r[j], phase)
    ensures forall x :: lo < x <= hi && OnGrid(x, phase) ==> r == [x]
  {
    var last := ((hi - phase) / TICK_PERIOD_US) * TICK_PERIOD_US + phase;
    if last > lo then [last] else []
  }

  /** The tool's schedule for the packets of `t`: packet `i` at `300 000 * i` µs after the first, after the passes that fall since the packet before it. */
  function ToolSchedule(k: Kind, t: seq<byte>, phase: int): (ds: seq<Delivery>)
    requires |t| <= MAX_TRANSFER && ValidPhase(phase)
    ensures Carries(k, t, ds)
  {
    seq(ChunkCount(t), i requires 0 <= i < ChunkCount(t) =>
      Delivery(if i == 0 then [] else TickIn(TOOL_GAP_US * (i - 1), TOOL_GAP_US * i, phase), TOOL_GAP_US * i, ChunkPacket(k, t, i)))
  }

  lemma ToolScheduleIsPaced(k: Kind, t: seq<byte>, phase: int)
    requires |t| <= MAX_TRANSFER && ValidPhase(phase)
    ensures Paced(ToolSchedule(k, t, phase))
  {
  }

  /** The passes of the timeout task before packet `i` come on the grid, after packet `i - 1` and at or before `300 000 * i` µs. */
  lemma ToolTicksBefore(k: Kind, t: seq<byte>, phase: int, i: nat, j: nat)
    requires |t| <= MAX_TRANSFER && ValidPhase(phase) && 1 <= i < ChunkCount(t)
    requires j < |ToolSchedule(k, t, phase)[i].ticks|
    ensures TOOL_GAP_US * (i - 1) < ToolSchedule(k, t, phase)[i].ticks[j] <= TOOL_GAP_US * i
    ensures OnGrid(ToolSchedule(k, t, phase)[i].ticks[j], phase)
  {
  }

  /** The first pass of the timeout task that finds a session opened by the first packet too old: every pass before it is within the two seconds. */
  function FirstLate(phase: int): (x: int)
    requires ValidPhase(phase)
    ensures x > TIMEOUT_US && OnGrid(x, phase)
    ensures forall y :: OnGrid(y, phase) && y < x ==> y <= TIMEOUT_US
  {
    if phase == 0 then TIMEOUT_US + TICK_PERIOD_US else TIMEOUT_US + phase
  }

  /** The packet that pass comes before: the seventh, eighth or ninth after the first, depending on the phase. */
  function LateIndex(phase: int): (l: nat)
    requires ValidPhase(phase)
    ensures TOOL_GAP_US * (l - 1) < FirstLate(phase) <= TOOL_GAP_US * l
    ensures 7 <= l <= 9
  {
    var x := FirstLate(phase);
    if x <= 7 * TOOL_GAP_US then 7 else if x <= 8 * TOOL_GAP_US then 8 else 9
  }

  /** Under the rule as written, a session timed from `start` survives deliveries that all meet it. */
  lemma {:induction false} QuietSince(ds: seq<Delivery>, start: int)
    requires forall j :: 0 <= j < |ds| ==> Quiet(ds[j], start)
    ensures QuietFrom(ds, start, FromFirstPacket)
    decreases |ds|
  {
    if ds != [] {
      QuietSince(ds[1..], start);
    }
  }

  /** The passes before any packet ahead of that one all come within two seconds of the first packet. */
  lemma EarlyTicksQuiet(k: Kind, t: seq<byte>, phase: int, i: nat)
    requires |t| <= MAX_TRANSFER && ValidPhase(phase) && 1 <= i < ChunkCount(t) && i < LateIndex(phase)
    ensures Quiet(ToolSchedule(k, t, phase)[i], 0)
  {
    var d := ToolSchedule(k, t, phase)[i];
    forall j | 0 <= j < |d.ticks|
      ensures d.ticks[j] <= TIMEOUT_US
    {
      ToolTicksBefore(k, t, phase, i, j);
    }
  }

  /** Under the rule as written, a string whose last packet comes ahead of that one is saved. */
  lemma SavedBeforeLate(k: Kind, t: seq<byte>, phase: int)
    requires |t| <= MAX_TRANSFER && TERMINATOR !in t && 0 !in t && ValidPhase(phase)
    requires |t| / 3 < LateIndex(phase)
    ensures SavedAll(k, Idle, ToolSchedule(k, t, phase), FromFirstPacket) == [t]
  {
    var ds := ToolSchedule(k, t, phase);
    var rest := ds[1..];
    forall i | 0 <= i < |rest|
      ensures Quiet(rest[i], 0)
    {
      EarlyTicksQuiet(k, t, phase, i + 1);
    }
    QuietSince(rest, 0);
    Delivered(k, Idle, t, ds, FromFirstPacket);
  }

  /**
   * Where a transfer stands before packet `i` (at most packet `late`)
   * under the rule as written: the packets are delivered in order, the
   * passes before packet `late` come within two seconds of the first
   * packet, one later than that comes just before packet `late`, and the
   * session opened at time 0 holds the first `3i` bytes.
   */
  predicate LateWay(k: Kind, r: Session, t: seq<byte>, ds: seq<Delivery>, i: nat, late: nat)
  {
    |t| <= MAX_TRANSFER && TERMINATOR !in t && WellFormed(r) && 1 <= late <= |t| / 3 && i <= late
    && Carries(k, t, ds)
    && (forall j :: 0 <= j < late ==> Quiet(ds[j], 0))
    && |ds[late].ticks| == 1 && ds[late].ticks[0] > TIMEOUT_US
    && (i > 0 ==> r.receiving && r.text == t[..3 * i] && r.expected == FirstId(k) + i && r.start == 0)
    && (i == 0 ==> ds[0].at == 0)
  }

  /** One packet ahead of packet `late`: it completes nothing and hands on a session holding three more bytes. */
  lemma LateStep(k: Kind, r: Session, t: seq<byte>, ds: seq<Delivery>, i: nat, late: nat) returns (next: Session)
    requires LateWay(k, r, t, ds, i, late) && i < late
    ensures LateWay(k, next, t, ds, i + 1, late)
    ensures SavedAll(k, r, ds[i..], FromFirstPacket) == SavedAll(k, next, ds[i + 1..], FromFirstPacket)
  {
    var d := ds[i];
    assert d.packet == ChunkPacket(k, t, i) && Quiet(d, 0);
    AcceptFull(k, r, t, i, d, FromFirstPacket);
    next := Deliver(k, r, d, FromFirstPacket);
    RunStep(k, r, ds[i..], next, FromFirstPacket);
    assert ds[i..][1..] == ds[i + 1..];
  }

  /** The packets from packet `late` on, `late` being past the first, do not open a session. */
  lemma LaterIds(k: Kind, t: seq<byte>, ds: seq<Delivery>, late: nat)
    requires |t| <= MAX_TRANSFER && Carries(k, t, ds) && 1 <= late < |ds|
    ensures forall j :: 0 <= j < |ds[late..]| ==> ds[late..][j].packet.id != FirstId(k)
  {
    forall j | 0 <= j < |ds[late..]|
      ensures ds[late..][j].packet.id != FirstId(k)
    {
      assert ds[late..][j] == ds[late + j];
    }
  }

  /** A pass more than two seconds after an open session's start drops it, and packets that do not open one complete nothing after. */
  lemma LateDrop(k: Kind, r: Session, ds: seq<Delivery>)
    requires r.receiving && r.start == 0 && |ds| >= 1 && |ds[0].ticks| == 1 && ds[0].ticks[0] > TIMEOUT_US
    requires forall j :: 0 <= j < |ds| ==> ds[j].packet.id != FirstId(k)
    ensures SavedAll(k, r, ds, FromFirstPacket) == []
  {
    TickedDrops(r, ds[0].ticks);
    var dropped := Deliver(k, r, ds[0], FromFirstPacket);
    assert dropped == Dropped(r);
    IgnoredRun(k, dropped, ds[1..], FromFirstPacket);
  }

  /** Any delivery of the packets of `t` with the passes ahead of packet `late` within two seconds of the first, and one later than that just before it, loses `t` under the rule as written. */
  lemma LateSchedule(k: Kind, t: seq<byte>, ds: seq<Delivery>, late: nat)
    requires LateWay(k, Idle, t, ds, 0, late)
    ensures SavedAll(k, Idle, ds, FromFirstPacket) == []
  {
    var r, i := Idle, 0;
    assert ds[0..] == ds;
    while i < late
      invariant i <= late && LateWay(k, r, t, ds, i, late)
      invariant SavedAll(k, Idle, ds, FromFirstPacket) == SavedAll(k, r, ds[i..], FromFirstPacket)
    {
      r := LateStep(k, r, t, ds, i, late);
      i := i + 1;
    }
    LaterIds(k, t, ds, late);
    LateDrop(k, r, ds[late..]);
  }

  /** Under the rule as written, a string whose last packet comes at or after that one is lost. */
  lemma LostFromLate(k: Kind, t: seq<byte>, phase: int)
    requires |t| <= MAX_TRANSFER && TERMINATOR !in t && ValidPhase(phase)
    requires LateIndex(phase) <= |t| / 3
    ensures SavedAll(k, Idle, ToolSchedule(k, t, phase), FromFirstPacket) == []
  {
    var ds := ToolSchedule(k, t, phase);
    var late := LateIndex(phase);
    forall j | 0 <= j < late
      ensures Quiet(ds[j], 0)
    {
      if j > 0 {
        EarlyTicksQuiet(k, t, phase, j);
      }
    }
    assert ds[late].ticks == [FirstLate(phase)];
    LateSchedule(k, t, ds, late);
  }

  /**
   * The rule as written, at the tool's pace: a string is saved exactly
   * when its last packet comes ahead of the first pass more than two
   * seconds after the first packet, and lost otherwise.
   */
  lemma ToolTransferAsWritten(k: Kind, t: seq<byte>, phase: int)
    requires |t| <= MAX_TRANSFER && TERMINATOR !in t && 0 !in t && ValidPhase(phase)
    ensures SavedAll(k, Idle, ToolSchedule(k, t, phase), FromFirstPacket) == if |t| / 3 < LateIndex(phase) then [t] else []
  {
    if |t| / 3 < LateIndex(phase) {
      SavedBeforeLate(k, t, phase);
    } else {
      LostFromLate(k, t, phase);
    }
  }

  /** As written, a string of up to 20 bytes sent at the tool's pace is saved, whatever the phase of the timeout task. */
  lemma ShortTransferSurvives(k: Kind, t: seq<byte>, phase: int)
    requires |t| <= 20 && TERMINATOR !in t && 0 !in t && ValidPhase(phase)
    ensures SavedAll(k, Idle, ToolSchedule(k, t, phase), FromFirstPacket) == [t]
  {
    ToolTransferAsWritten(k, t, phase);
  }

  /** As written, when a pass of the timeout task falls on the first packet's arrival, a string of up to 26 bytes is saved. */
  lemma AlignedTransferSurvives(k: Kind, t: seq<byte>)
    requires |t| <= 26 && TERMINATOR !in t && 0 !in t
    ensures SavedAll(k, Idle, ToolSchedule(k, t, 0), FromFirstPacket) == [t]
  {
    ToolTransferAsWritten(k, t, 0);
  }

  /** As written, a string of 21 bytes or more is lost when the first packet arrives 400 ms after a pass of the timeout task. */
  lemma MidTransferLostOffGrid(k: Kind, t: seq<byte>)
    requires 21 <= |t| <= MAX_TRANSFER && TERMINATOR !in t
    ensures SavedAll(k, Idle, ToolSchedule(k, t, 100_000), FromFirstPacket) == []
  {
    LostFromLate(k, t, 100_000);
  }

  /** As written, a string of 27 bytes or more sent at the tool's pace is lost, whatever the phase of the timeout task. */
  lemma LongTransferLost(k: Kind, t: seq<byte>, phase: int)
    requires 27 <= |t| <= MAX_TRANSFER && TERMINATOR !in t && ValidPhase(phase)
    ensures SavedAll(k, Idle, ToolSchedule(k, t, phase), FromFirstPacket) == []
  {
    LostFromLate(k, t, phase);
  }

  /** Under the corrected rule, every string the tool sends arrives, whatever the phase of the timeout task. */
  lemma ToolTransferDelivered(k: Kind, t: seq<byte>, phase: int)
    requires |t| <= MAX_TRANSFER && TERMINATOR !in t && 0 !in t && ValidPhase(phase)
    ensures SavedAll(k, Idle, ToolSchedule(k, t, phase), FromLatestPacket) == [t]
  {
    ToolScheduleIsPaced(k, t, phase);
    PacedIsDelivered(k, Idle, t, ToolSchedule(k, t, phase));
  }

  /*
   * ---------------------------------------------------------------------
   * Properties of the copy
   * ---------------------------------------------------------------------
   */

  /** Copying keeps what the buffer held and adds a prefix of the data. */
  lemma StoredExtends(text: seq<byte>, data: seq<byte>)
    ensures text <= Stored(text, data)
    ensures Stored(text, data) <= text + data
  {
    var r := Stored(text, data);
    assert forall j :: 0 <= j < |text| ==> r[j] == text[j];
  }

  /** Copying byte by byte is copying all at once. */
  lemma StoredSnoc(text: seq<byte>, data: seq<byte>, b: byte)
    ensures Stored(text, data + [b]) == Stored(Stored(text, data), [b])
  {
    if |text| < MAX_TEXT && |text| + |data| < MAX_TEXT {
      assert (data + [b])[..Min(|data| + 1, MAX_TEXT - |text|)] == data + [b];
      assert data[..Min(|data|, MAX_TEXT - |text|)] == data;
      assert text + (data + [b]) == (text + data) + [b];
    } else if |text| < MAX_TEXT {
      assert (data + [b])[..Min(|data| + 1, MAX_TEXT - |text|)] == data[..Min(|data|, MAX_TEXT - |text|)];
    }
  }

  /** The payload is what comes before the first terminator. */
  lemma PayloadBefore(p: Packet, i: nat)
    requires i <= 3 && TERMINATOR !in [p.c0, p.c1, p.c2][..i]
    requires i < 3 ==> [p.c0, p.c1, p.c2][i] == TERMINATOR
    ensures Payload(p) == [p.c0, p.c1, p.c2][..i]
    ensures Ends(p) <==> i < 3
  {
    var data := [p.c0, p.c1, p.c2];
    if i > 0 {
      assert data[0] in data[..i];
    }
    if i > 1 {
      assert data[1] in data[..i];
    }
    if i > 2 {
      assert data[2] in data[..i];
    }
  }

  /** The string saved is a prefix of what the buffer holds. */
  lemma {:induction false} CTextIsPrefix(s: seq<byte>)
    ensures CText(s) <= s
  {
    if s != [] && s[0] != 0 {
      CTextIsPrefix(s[1..]);
      assert s == [s[0]] + s[1..];
    }
  }

  /*
   * ---------------------------------------------------------------------
   * The receiver: one transfer's statics and the code that updates them
   * ---------------------------------------------------------------------
   */

  /**
   * The statics of one transfer (`recv_ssid_ing`, `wifi_ssid`,
   * `ssid_offset`, `ssid_recv_start_time`, `expected_ssid_packet`, or
   * their password counterparts) and the code that updates them.
   */
  class ChunkReceiver {
    const kind: Kind
    const policy: Timeout
    const buf: array<byte>
    var receiving: bool
    var offset: nat
    var startTime: int
    var expected: byte

    /** The offset stays inside the buffer, below its last slot, and is zero while no session is open. */
    ghost predicate Valid()
      reads this
    {
      buf.Length == BUFFER_SIZE && offset <= MAX_TEXT && (!receiving ==> offset == 0)
    }

    /** The statics as a `Session`. */
    function State(): (s: Session)
      requires Valid()
      reads this, buf
      ensures WellFormed(s)
    {
      Session(receiving, buf[..offset], expected, startTime)
    }

    constructor (kind: Kind, policy: Timeout)
      ensures Valid() && State() == Idle
      ensures this.kind == kind && this.policy == policy && fresh(buf)
    {
      this.kind := kind;
      this.policy := policy;
      buf := new byte[BUFFER_SIZE](_ => 0);
      receiving := false;
      offset := 0;
      startTime := 0;
      expected := 0;
    }

    /** `memset(buf, 0, sizeof(buf))`. */
    method Clear()
      requires Valid()
      modifies buf
      ensures buf[..] == seq(BUFFER_SIZE, _ => 0)
    {
      forall j | 0 <= j < buf.Length {
        buf[j] := 0;
      }
    }

    /** Drop the session: flag down, offset zero, buffer cleared. */
    method Drop()
      requires Valid()
      modifies this, buf
      ensures Valid() && State() == Dropped(old(State()))
    {
      receiving := false;
      offset := 0;
      Clear();
    }

    /**
     * A packet of this transfer arriving at `now` (rs485_comm.cpp:247-298
     * for the SSID, 299-347 for the password): the state moves as `Step`
     * says, an accepted packet is acknowledged on `port`, and a completed
     * string is returned for saving.
     */
    method OnPacket(p: Packet, now: int, port: Rs485Frames.Rs485Port) returns (saved: Option<seq<byte>>)
      requires Valid() && InRange(kind, p.id)
      modifies this, buf, port
      ensures Valid() && State() == Step(kind, old(State()), p, now, policy)
      ensures saved == Saved(kind, old(State()), p)
      ensures port.queue == old(port.queue) + Acks(kind, old(State()), p)
    {
      ghost var s := State();
      if !receiving && p.id != FirstId(kind) {
        return None;
      }
      if p.id == FirstId(kind) {
        receiving := true;
        offset := 0;
        Clear();
        startTime := now;
        expected := FirstId(kind);
      }
      if p.id != expected {
        Drop();
        return None;
      }
      port.GenerateResponse(Rs485Frames.ORACLE, AckOf(kind, p.id), 0x01, 0x00, 0x00);
      expected := LowByte(expected + 1);
      if policy == FromLatestPacket {
        startTime := now;
      }
      ghost var text := buf[..offset];
      assert text == if p.id == FirstId(kind) then [] else s.text;
      var done := CopyPayload(p);
      if done {
        saved := Some(CText(buf[..offset]));
        buf[offset] := 0;
        receiving := false;
        offset := 0;
      } else {
        saved := None;
      }
    }

    /** The copy loop: the payload's bytes before the terminator go into the buffer while they fit; it reports whether the terminator came. */
    method CopyPayload(p: Packet) returns (done: bool)
      requires Valid() && receiving
      modifies this`offset, buf
      ensures Valid() && receiving
      ensures buf[..offset] == Stored(old(buf[..offset]), Payload(p))
      ensures done == Ends(p)
    {
      ghost var text := buf[..offset];
      var data := [p.c0, p.c1, p.c2];
      done := false;
      var i := 0;
      while i < 3
        invariant 0 <= i <= 3 && Valid() && receiving && !done
        invariant buf[..offset] == Stored(text, data[..i])
        invariant TERMINATOR !in data[..i]
      {
        if data[i] == TERMINATOR {
          done := true;
          break;
        }
        StoredSnoc(text, data[..i], data[i]);
        assert data[..i + 1] == data[..i] + [data[i]];
        if offset < MAX_TEXT {
          buf[offset] := data[i];
          offset := offset + 1;
        }
        i := i + 1;
      }
      PayloadBefore(p, i);
    }

    /** One pass of the timeout task (rs485_comm.cpp:536-548) for this transfer. */
    method TimeoutCheck(now: int)
      requires Valid()
      modifies this, buf
      ensures Valid() && State() == Tick(old(State()), now)
    {
      if receiving && now - startTime > TIMEOUT_US {
        Drop();
      }
    }
  }
}
