/**
 * The receive side of the I/O board link (stm32_rx.cpp): a task that
 * assembles eight-byte frames from the UART one byte at a time, and the
 * handler that acts on each accepted frame — relay state reports, and the
 * dry-contact input reports that open doors, ring bells and run scenes.
 */
module Stm32Rx {
  import opened Wrappers
  import opened Bytes
  import Stm32Frames
  import Inputs
  import ChannelInput
  import Curtain
  import Lord
  import RoomState
  import ManagerBase
  import ActionGroups
  import LordContext

  /*
   * ---------------------------------------------------------------------
   * Frame assembly
   * ---------------------------------------------------------------------
   */

  const FRAME_SIZE: nat := 8

  /**
   * Where the receive task stands: waiting for a header, or collecting a
   * frame of which `got` holds the bytes read so far.
   */
  datatype Reception = Reception(receiving: bool, got: seq<byte>)

  const Waiting: Reception := Reception(false, [])

  /** A collecting state holds a header and fewer than eight bytes; a waiting one holds nothing. */
  predicate WellFormed(r: Reception)
  {
    if r.receiving then 1 <= |r.got| < FRAME_SIZE && r.got[0] == Stm32Frames.FRAME_HEADER
    else r.got == []
  }

  /**
   * One byte through the task's state machine: while waiting only the
   * header byte starts a frame; while collecting every byte is stored, and
   * the eighth ends the frame, after which the task waits again whether or
   * not the frame was sound.
   */
  function Next(r: Reception, b: byte): (n: Reception)
    ensures WellFormed(r) ==> WellFormed(n)
  {
    if !r.receiving then
      if b == Stm32Frames.FRAME_HEADER then Reception(true, [b]) else r
    else if |r.got| + 1 >= FRAME_SIZE then Waiting
    else Reception(true, r.got + [b])
  }

  /** The frame a byte hands to the handler: only the eighth byte of a frame does, and only a sound frame is handed on. */
  function Out(r: Reception, b: byte): Option<Stm32Frames.Frame>
  {
    if r.receiving && |r.got| + 1 == FRAME_SIZE then Completed(r.got + [b]) else None
  }

  /** What the eighth byte hands on: the frame the bytes spell, when its footer and checksum are right. */
  function Completed(b: seq<byte>): (f: Option<Stm32Frames.Frame>)
    requires |b| == FRAME_SIZE
    ensures f.Some? ==> Stm32Frames.ToBytes(f.value) == b
  {
    var f := Stm32Frames.FromBytes(b);
    if Stm32Frames.Accepted(f) then Some(f) else None
  }

  /** The frames a step hands on, as a sequence. */
  function Handed(f: Option<Stm32Frames.Frame>): seq<Stm32Frames.Frame>
  {
    if f.Some? then [f.value] else []
  }

  /** The state after a run of bytes. */
  function Final(r: Reception, bytes: seq<byte>): (f: Reception)
    ensures WellFormed(r) ==> WellFormed(f)
    decreases |bytes|
  {
    if |bytes| == 0 then r else Next(Final(r, bytes[..|bytes| - 1]), bytes[|bytes| - 1])
  }

  /** The frames a run of bytes hands to the handler, in order. */
  function Frames(r: Reception, bytes: seq<byte>): seq<Stm32Frames.Frame>
    decreases |bytes|
  {
    if |bytes| == 0 then []
    else
      var init := bytes[..|bytes| - 1];
      Frames(r, init) + Handed(Out(Final(r, init), bytes[|bytes| - 1]))
  }

  /** One more byte: the run so far, then one step. */
  lemma RunSnoc(r: Reception, s: seq<byte>, b: byte)
    ensures Final(r, s + [b]) == Next(Final(r, s), b)
    ensures Frames(r, s + [b]) == Frames(r, s) + Handed(Out(Final(r, s), b))
  {
    assert (s + [b])[..|s|] == s;
  }

  /** Running two pieces one after the other is running their concatenation. */
  lemma {:induction false} RunAppend(r: Reception, a: seq<byte>, b: seq<byte>)
    ensures Final(r, a + b) == Final(Final(r, a), b)
    ensures Frames(r, a + b) == Frames(r, a) + Frames(Final(r, a), b)
    decreases |b|
  {
    if |b| == 0 {
      assert a + b == a;
    } else {
      var b', x := b[..|b| - 1], b[|b| - 1];
      assert a + b == (a + b') + [x] && b == b' + [x];
      RunAppend(r, a, b');
      RunSnoc(r, a + b', x);
      RunSnoc(Final(r, a), b', x);
    }
  }

  /** While waiting, bytes other than the header are dropped without a trace. */
  lemma {:induction false} NoiseIsDropped(noise: seq<byte>)
    requires Stm32Frames.FRAME_HEADER !in noise
    ensures Final(Waiting, noise) == Waiting && Frames(Waiting, noise) == []
    decreases |noise|
  {
    if |noise| > 0 {
      var p := noise[..|noise| - 1];
      assert noise[|noise| - 1] in noise;
      assert forall x :: x in p ==> x in noise;
      NoiseIsDropped(p);
      assert p + [noise[|noise| - 1]] == noise;
      RunSnoc(Waiting, p, noise[|noise| - 1]);
    }
  }

  /** After a header and up to six more bytes, a waiting task is collecting exactly those bytes and has handled nothing. */
  lemma {:induction false} Collecting(p: seq<byte>)
    requires 1 <= |p| < FRAME_SIZE && p[0] == Stm32Frames.FRAME_HEADER
    ensures Final(Waiting, p) == Reception(true, p)
    ensures Frames(Waiting, p) == []
  {
    if |p| == 1 {
      HeaderStarts(p);
    } else {
      Collecting(p[..|p| - 1]);
      CollectingStep(p);
    }
  }

  /** A header byte starts a frame and hands nothing on. */
  lemma HeaderStarts(h: seq<byte>)
    requires |h| == 1 && h[0] == Stm32Frames.FRAME_HEADER
    ensures Final(Waiting, h) == Reception(true, h) && Frames(Waiting, h) == []
  {
    RunSnoc(Waiting, [], h[0]);
    assert [] + [h[0]] == h;
  }

  /** A byte that does not complete the frame is stored and hands nothing on. */
  lemma CollectingStep(p: seq<byte>)
    requires 2 <= |p| < FRAME_SIZE
    ensures Next(Reception(true, p[..|p| - 1]), p[|p| - 1]) == Reception(true, p)
    ensures Out(Reception(true, p[..|p| - 1]), p[|p| - 1]) == None
  {
    assert p[..|p| - 1] + [p[|p| - 1]] == p;
  }

  /** Eight bytes starting with the header, fed to a waiting task, are read as one frame. */
  lemma EightBytesMakeAFrame(b: seq<byte>)
    requires |b| == FRAME_SIZE && b[0] == Stm32Frames.FRAME_HEADER
    ensures Final(Waiting, b) == Waiting
    ensures Frames(Waiting, b) == Handed(Completed(b))
  {
    Collecting(b[..7]);
    RunSnoc(Waiting, b[..7], b[7]);
    assert b[..7] + [b[7]] == b;
  }

  /** The eight bytes of a frame, fed to a waiting task, end with the task waiting and the frame handed on iff it is sound. */
  lemma FrameIsAssembled(f: Stm32Frames.Frame)
    requires f.header == Stm32Frames.FRAME_HEADER
    ensures Final(Waiting, Stm32Frames.ToBytes(f)) == Waiting
    ensures Frames(Waiting, Stm32Frames.ToBytes(f)) == if Stm32Frames.Accepted(f) then [f] else []
  {
    EightBytesMakeAFrame(Stm32Frames.ToBytes(f));
    Stm32Frames.BytesRoundTrip(f);
  }

  /**
   * Whatever junk precedes it, a frame the transmit side builds reaches the
   * handler intact and alone, provided the junk holds no header byte.
   */
  lemma BuiltFrameGetsThrough(noise: seq<byte>, cmdType: byte, boardId: byte, channel: byte, param1: byte, param2: byte)
    requires Stm32Frames.FRAME_HEADER !in noise
    ensures var f := Stm32Frames.Built(cmdType, boardId, channel, param1, param2);
      Final(Waiting, noise + Stm32Frames.ToBytes(f)) == Waiting && Frames(Waiting, noise + Stm32Frames.ToBytes(f)) == [f]
  {
    var f := Stm32Frames.Built(cmdType, boardId, channel, param1, param2);
    NoiseIsDropped(noise);
    RunAppend(Waiting, noise, Stm32Frames.ToBytes(f));
    FrameIsAssembled(f);
  }

  /** A frame whose footer or checksum is wrong is dropped, and the task waits for the next header. */
  lemma CorruptFrameIsDropped(f: Stm32Frames.Frame)
    requires f.header == Stm32Frames.FRAME_HEADER && !Stm32Frames.Accepted(f)
    ensures Final(Waiting, Stm32Frames.ToBytes(f)) == Waiting && Frames(Waiting, Stm32Frames.ToBytes(f)) == []
  {
    FrameIsAssembled(f);
  }

  /**
   * The task never looks for a header inside a frame: after a frame cut
   * short after two bytes, the next frame's first six bytes complete the
   * broken one, and its last two are dropped as noise, so that neither
   * frame is handled (unless the bytes happen to line up into a sound one).
   */
  lemma TruncatedFrameSwallowsTheNext(x: byte, f: Stm32Frames.Frame)
    requires f.header == Stm32Frames.FRAME_HEADER && Stm32Frames.Accepted(f)
    requires f.param2 != Stm32Frames.FRAME_FOOTER && f.checksum != Stm32Frames.FRAME_HEADER
    ensures Frames(Waiting, [Stm32Frames.FRAME_HEADER, x] + Stm32Frames.ToBytes(f)) == []
  {
    var b := Stm32Frames.ToBytes(f);
    var merged := [Stm32Frames.FRAME_HEADER, x] + b[..6];
    var tail := [f.checksum, f.footer];
    assert b == b[..6] + tail;
    assert merged + tail == [Stm32Frames.FRAME_HEADER, x] + b;
    MergedFrameIsDropped(x, f);
    assert Stm32Frames.FRAME_HEADER !in tail;
    NoiseIsDropped(tail);
    RunAppend(Waiting, merged, tail);
  }

  /** A header, one byte, and the first six bytes of a frame whose second parameter is not a footer are dropped. */
  lemma MergedFrameIsDropped(x: byte, f: Stm32Frames.Frame)
    requires f.param2 != Stm32Frames.FRAME_FOOTER
    ensures var merged := [Stm32Frames.FRAME_HEADER, x] + Stm32Frames.ToBytes(f)[..6];
      Final(Waiting, merged) == Waiting && Frames(Waiting, merged) == []
  {
    var merged := [Stm32Frames.FRAME_HEADER, x] + Stm32Frames.ToBytes(f)[..6];
    EightBytesMakeAFrame(merged);
    assert Stm32Frames.FromBytes(merged).footer == f.param2;
    assert Completed(merged) == None;
  }

  /** The task's state: the frame buffer it fills through a byte pointer, the state flag and the byte index. */
  class Stm32Receiver {
    const buffer: array<byte>
    var receiving: bool
    var byteIndex: nat

    ghost predicate Valid()
      reads this, buffer
    {
      && buffer.Length == FRAME_SIZE
      && (receiving ==> 1 <= byteIndex < FRAME_SIZE && buffer[0] == Stm32Frames.FRAME_HEADER)
    }

    /** The state machine's state the fields stand for; the buffer's stale bytes do not count while waiting. */
    ghost function State(): (r: Reception)
      requires Valid()
      reads this, buffer
      ensures WellFormed(r)
    {
      if receiving then Reception(true, buffer[..byteIndex]) else Waiting
    }

    constructor ()
      ensures Valid() && State() == Waiting && fresh(buffer)
    {
      buffer := new byte[FRAME_SIZE];
      receiving, byteIndex := false, 0;
    }

    /** One byte read from the UART; the frame that is then handled, if any. */
    method Feed(b: byte) returns (frame: Option<Stm32Frames.Frame>)
      requires Valid()
      modifies this, buffer
      ensures Valid()
      ensures State() == Next(old(State()), b) && frame == Out(old(State()), b)
    {
      frame := None;
      if !receiving {
        if b == Stm32Frames.FRAME_HEADER {
          receiving := true;
          byteIndex := 0;
          buffer[byteIndex] := b;
          byteIndex := byteIndex + 1;
          assert buffer[..byteIndex] == [b];
        }
      } else {
        buffer[byteIndex] := b;
        byteIndex := byteIndex + 1;
        assert buffer[..byteIndex] == old(buffer[..byteIndex]) + [b];
        if byteIndex == FRAME_SIZE {
          var f := Stm32Frames.Frame(buffer[0], buffer[1], buffer[2], buffer[3], buffer[4], buffer[5], buffer[6], buffer[7]);
          assert buffer[..byteIndex] == Stm32Frames.ToBytes(f);
          if f.footer == Stm32Frames.FRAME_FOOTER && f.checksum == Stm32Frames.FrameChecksum(f) {
            frame := Some(f);
          }
          receiving := false;
        }
      }
    }

    /** Bytes read one after the other: the frames handled, as the state machine runs them. */
    method Receive(bytes: seq<byte>) returns (frames: seq<Stm32Frames.Frame>)
      requires Valid()
      modifies this, buffer
      ensures Valid()
      ensures State() == Final(old(State()), bytes) && frames == Frames(old(State()), bytes)
    {
      frames := [];
      var i := 0;
      while i < |bytes|
        invariant 0 <= i <= |bytes| && Valid()
        invariant State() == Final(old(State()), bytes[..i]) && frames == Frames(old(State()), bytes[..i])
      {
        assert bytes[..i + 1][..i] == bytes[..i];
        var f := Feed(bytes[i]);
        frames := frames + Handed(f);
        i := i + 1;
      }
      assert bytes[..i] == bytes;
    }
  }

  /*
   * ---------------------------------------------------------------------
   * Handling a frame
   * ---------------------------------------------------------------------
   */

  const DO_NOT_DISTURB: string := "勿扰"

  /** The level a dry-contact report stands for: 1 is high, anything else low. */
  function LevelOf(state: byte): Inputs.TriggerType
  {
    if state == 1 then Inputs.HighLevel else Inputs.LowLevel
  }

  /** A curtain motor is running. */
  predicate Moving(s: Curtain.Phase)
  {
    s.Opening? || s.Closing?
  }

  /** Some registered curtain is opening or closing. */
  ghost predicate CurtainsMoving(lord: Lord.LordManager)
    reads lord, set d | d in lord.devices.Values && d.CurtainDevice? :: d.curtain
  {
    exists d :: d in lord.devices.Values && d.CurtainDevice? && Moving(d.curtain.state)
  }

  /** The scenes the registered dry-contact inputs can run. */
  ghost function InputScenes(lord: Lord.LordManager): set<ActionGroups.ActionGroup>
    reads lord
  {
    set i, g | i in lord.channelInputs.Values && g in i.actionGroups :: g
  }

  /** The objects the inputs' handlers change besides the context and the mode. */
  ghost function InputObjects(lord: Lord.LordManager): set<object>
    reads lord
  {
    lord.channelInputs.Values + lord.actionGroups.Values + InputScenes(lord)
  }

  /** The lord, its context, the room states and the curtains are none of them. */
  lemma InputObjectsApart(lord: Lord.LordManager, rooms: RoomState.RoomStates, board: Stm32Frames.Stm32Port)
    ensures lord !in InputObjects(lord) && lord.ctx !in InputObjects(lord) && rooms !in InputObjects(lord)
    ensures board !in InputObjects(lord)
    ensures forall d :: d in lord.devices.Values && d.CurtainDevice? ==> d.curtain !in InputObjects(lord)
  {
  }

  /** An input tagged as the card-slot channel that a presence sensor drives. */
  ghost predicate InfraredAliveChannel(lord: Lord.LordManager, i: ChannelInput.ChannelInput)
    reads lord
  {
    i in lord.channelInputs.Values && Inputs.IsAliveChannel in i.tags
    && (i.triggerType == Inputs.Infrared || i.triggerType == Inputs.InfraredTimeout)
  }

  /** The scan over `getDevicesByType<Curtain>()` for a curtain whose motor runs. */
  method AnyCurtainMoving(devs: seq<Lord.Device>) returns (moving: bool)
    ensures moving <==> exists k :: 0 <= k < |devs| && devs[k].CurtainDevice? && Moving(devs[k].curtain.state)
  {
    moving := false;
    var k := 0;
    while k < |devs|
      invariant 0 <= k <= |devs|
      invariant forall j :: 0 <= j < k ==> !(devs[j].CurtainDevice? && Moving(devs[j].curtain.state))
    {
      if devs[k].CurtainDevice? && Moving(devs[k].curtain.state) {
        moving := true;
        return;
      }
      k := k + 1;
    }
  }

  /** Whether a presence report is to be ignored because a curtain is moving. */
  method CurtainIsMoving(lord: Lord.LordManager) returns (moving: bool)
    ensures moving == CurtainsMoving(lord)
  {
    var devs := lord.GetDevicesByType(Lord.CurtainClass);
    moving := AnyCurtainMoving(devs);
    if moving {
      var k :| 0 <= k < |devs| && devs[k].CurtainDevice? && Moving(devs[k].curtain.state);
      assert devs[k] in devs;
    } else {
      forall d | d in lord.devices.Values && d.CurtainDevice?
        ensures !Moving(d.curtain.state)
      {
        assert Lord.IsA(d, Lord.CurtainClass);
        var k :| 0 <= k < |devs| && devs[k] == d;
      }
    }
  }

  /*
   * ---------------------------------------------------------------------
   * What the inputs' handlers change, as values
   * ---------------------------------------------------------------------
   */

  /** The part of an input that its handlers change: scene cursor, sensor state and uncertain timer. */
  datatype InputView = InputView(index: byte, sensor: ChannelInput.SensorState, armed: bool, periodMs: nat)

  /**
   * The part of an input that its handlers read and never change;
   * `timeoutMs` is the period its uncertain timer would be armed with.
   */
  datatype InputCfg = InputCfg(trigger: Inputs.TriggerType, ignoresAnyKey: bool, scenes: nat, timeoutMs: nat)

  /** The part of the lord's context that the inputs' handlers change. */
  datatype LordView = LordView(anyKeyAid: Option<int>, heartbeat: seq<int>, presence: int)

  /**
   * What reaches a channel's inputs: a dry-contact report of `level` at
   * uptime `nowMs` while some curtain is `moving` or not, or the expiry of
   * a presence sensor's uncertain timer on the channel.
   */
  datatype Stimulus = Report(level: byte, nowMs: int, moving: bool) | TimerExpired

  function ViewOf(i: ChannelInput.ChannelInput): InputView
    reads i
  {
    InputView(i.currentIndex, i.currentState, i.timerArmed, i.timerPeriodMs)
  }

  function CfgOf(i: ChannelInput.ChannelInput, ctx: LordContext.Context, wallClock: int, localHour: int): InputCfg
  {
    InputCfg(i.triggerType, Inputs.IgnoreAnyKeyExecute in i.tags, |i.actionGroups|, i.TimeoutMs(ctx, wallClock, localHour))
  }

  function CtxView(ctx: LordContext.Context): LordView
    reads ctx
  {
    LordView(ctx.anyKeyAid, ctx.heartbeatCode, ctx.lastPresenceTime)
  }

  function Views(inputs: seq<ChannelInput.ChannelInput>): (vs: seq<InputView>)
    reads inputs
  {
    seq(|inputs|, k requires 0 <= k < |inputs| reads inputs => ViewOf(inputs[k]))
  }

  function Cfgs(inputs: seq<ChannelInput.ChannelInput>, ctx: LordContext.Context, wallClock: int, localHour: int)
    : (cs: seq<InputCfg>)
    ensures |cs| == |inputs| && forall k :: 0 <= k < |inputs| ==> cs[k] == CfgOf(inputs[k], ctx, wallClock, localHour)
  {
    if inputs == [] then [] else [CfgOf(inputs[0], ctx, wallClock, localHour)] + Cfgs(inputs[1..], ctx, wallClock, localHour)
  }

  /** The heartbeat after a wake-up: a sleeping room is alive again. */
  function Woken(heartbeat: seq<int>): seq<int>
  {
    if heartbeat == LordContext.SLEEP_BYTES then LordContext.ALIVE_BYTES else heartbeat
  }

  /**
   * `execute`: the room wakes; an armed "any key" scene takes the trigger
   * unless the input ignores it, and keeps the cursor; otherwise the
   * cursor steps round-robin.
   */
  function Executed(c: InputCfg, v: InputView, lv: LordView): (InputView, LordView)
  {
    var awake := lv.(heartbeat := Woken(lv.heartbeat));
    if !c.ignoresAnyKey && lv.anyKeyAid.Some? then (v, awake.(anyKeyAid := None))
    else (v.(index := Inputs.Stepped(v.index, c.scenes)), awake)
  }

  /**
   * `execute_infrared(level)`: the sensor moves on and its timer with it,
   * presence is stamped, and an arrival runs the armed "any key" scene or
   * else steps the cursor.
   */
  function Heard(c: InputCfg, v: InputView, level: byte, nowMs: int, lv: LordView): (InputView, LordView)
  {
    var st := ChannelInput.Sensed(v.sensor, level);
    var v' := InputView(v.index, st.state, ChannelInput.ArmedAfter(st, v.armed), if st.arm then c.timeoutMs else v.periodMs);
    var lv' := lv.(presence := if st.present then nowMs else lv.presence);
    if !st.runScene then (v', lv')
    else if lv.anyKeyAid.Some? then (v', lv'.(anyKeyAid := None))
    else (v'.(index := Inputs.Stepped(v.index, c.scenes)), lv')
  }

  /** The input's `execute` runs for this stimulus. */
  predicate Executes(c: InputCfg, s: Stimulus)
  {
    match s
    case Report(level, _, _) => c.trigger == LevelOf(level)
    case TimerExpired => c.trigger == Inputs.InfraredTimeout
  }

  /** The input's `execute_infrared` runs for this stimulus. */
  predicate Hears(c: InputCfg, s: Stimulus)
  {
    s.Report? && c.trigger == Inputs.Infrared && !s.moving
  }

  /** The input's handler would hand the trigger to an armed "any key" scene. */
  predicate HonoursAnyKey(c: InputCfg, v: InputView, s: Stimulus)
  {
    (Executes(c, s) && !c.ignoresAnyKey) || (Hears(c, s) && ChannelInput.Sensed(v.sensor, s.level).runScene)
  }

  /** One input's reaction: the level inputs of the reported level run, the presence sensors hear the report, the timeout inputs run on expiry. */
  function Reacted(c: InputCfg, v: InputView, lv: LordView, s: Stimulus): (InputView, LordView)
  {
    if Executes(c, s) then Executed(c, v, lv)
    else if Hears(c, s) then Heard(c, v, s.level, s.nowMs, lv)
    else (v, lv)
  }

  /** The inputs' reactions in order, each seeing the context the ones before it left. */
  function ReactedAll(cs: seq<InputCfg>, vs: seq<InputView>, lv: LordView, s: Stimulus): (r: (seq<InputView>, LordView))
    requires |cs| == |vs|
    decreases |vs|, 1
    ensures |r.0| == |vs|
  {
    if vs == [] then ([], lv) else ReactedLast(cs, vs, lv, s)
  }

  /** The last input's reaction, in the context the inputs before it left. */
  function ReactedLast(cs: seq<InputCfg>, vs: seq<InputView>, lv: LordView, s: Stimulus): (r: (seq<InputView>, LordView))
    requires |cs| == |vs| > 0
    decreases |vs|, 0
    ensures |r.0| == |vs|
  {
    var n := |vs| - 1;
    var before := ReactedAll(cs[..n], vs[..n], lv, s);
    var last := Reacted(cs[n], vs[n], before.1, s);
    (before.0 + [last.0], last.1)
  }

  /** The reactions of a prefix one longer: one more reaction, in the context the prefix left. */
  lemma FoldNext(cs: seq<InputCfg>, vs: seq<InputView>, lv: LordView, s: Stimulus, k: nat,
                 done: (seq<InputView>, LordView), view: InputView, ctx: LordView)
    returns (next: (seq<InputView>, LordView))
    requires |cs| == |vs| && k < |vs|
    requires done == ReactedAll(cs[..k], vs[..k], lv, s) && (view, ctx) == Reacted(cs[k], vs[k], done.1, s)
    ensures next == ReactedAll(cs[..k + 1], vs[..k + 1], lv, s)
    ensures next.0 == done.0 + [view] && next.1 == ctx
  {
    assert cs[..k + 1][..k] == cs[..k] && vs[..k + 1][..k] == vs[..k];
    next := (done.0 + [view], ctx);
  }

  /** An input the stimulus does not reach is left as it was. */
  lemma {:induction false} UnreachedUnchanged(cs: seq<InputCfg>, vs: seq<InputView>, lv: LordView, s: Stimulus)
    requires |cs| == |vs|
    ensures forall k :: 0 <= k < |vs| && !Executes(cs[k], s) && !Hears(cs[k], s) ==> ReactedAll(cs, vs, lv, s).0[k] == vs[k]
  {
    if vs != [] {
      var n := |vs| - 1;
      UnreachedUnchanged(cs[..n], vs[..n], lv, s);
    }
  }

  /** Waking an awake room changes nothing. */
  lemma WokenTwice(heartbeat: seq<int>)
    ensures Woken(Woken(heartbeat)) == Woken(heartbeat)
  {
    assert LordContext.ALIVE_BYTES[5] != LordContext.SLEEP_BYTES[5];
  }

  /** Some input's `execute` runs for this stimulus. */
  predicate SomeExecutes(cs: seq<InputCfg>, s: Stimulus)
  {
    exists k :: 0 <= k < |cs| && Executes(cs[k], s)
  }

  /** The room wakes exactly when some input's `execute` runs; presence sensors never wake it. */
  lemma {:induction false} WakesIffExecuted(cs: seq<InputCfg>, vs: seq<InputView>, lv: LordView, s: Stimulus)
    requires |cs| == |vs|
    ensures ReactedAll(cs, vs, lv, s).1.heartbeat == if SomeExecutes(cs, s) then Woken(lv.heartbeat) else lv.heartbeat
  {
    if vs != [] {
      var n := |vs| - 1;
      var before := ReactedAll(cs[..n], vs[..n], lv, s);
      WakesIffExecuted(cs[..n], vs[..n], lv, s);
      WokenTwice(lv.heartbeat);
      assert ReactedAll(cs, vs, lv, s).1 == Reacted(cs[n], vs[n], before.1, s).1;
      assert Reacted(cs[n], vs[n], before.1, s).1.heartbeat
        == if Executes(cs[n], s) then Woken(before.1.heartbeat) else before.1.heartbeat;
      assert SomeExecutes(cs, s) <==> SomeExecutes(cs[..n], s) || Executes(cs[n], s) by {
        if SomeExecutes(cs, s) {
          var k :| 0 <= k < |cs| && Executes(cs[k], s);
          if k < n {
            assert Executes(cs[..n][k], s);
          }
        }
        if SomeExecutes(cs[..n], s) {
          var k :| 0 <= k < n && Executes(cs[..n][k], s);
          assert Executes(cs[k], s);
        }
      }
    }
  }

  /** Some input would hand the trigger to an armed "any key" scene. */
  predicate SomeHonours(cs: seq<InputCfg>, vs: seq<InputView>, s: Stimulus)
    requires |cs| == |vs|
  {
    exists k :: 0 <= k < |cs| && HonoursAnyKey(cs[k], vs[k], s)
  }

  /**
   * The armed "any key" scene is used at most once: it stays armed exactly
   * when no input would have handed it the trigger.
   */
  lemma {:induction false} AnyKeyUsedOnce(cs: seq<InputCfg>, vs: seq<InputView>, lv: LordView, s: Stimulus)
    requires |cs| == |vs|
    ensures ReactedAll(cs, vs, lv, s).1.anyKeyAid == if SomeHonours(cs, vs, s) then None else lv.anyKeyAid
  {
    if vs != [] {
      var n := |vs| - 1;
      var before := ReactedAll(cs[..n], vs[..n], lv, s);
      AnyKeyUsedOnce(cs[..n], vs[..n], lv, s);
      assert ReactedAll(cs, vs, lv, s).1 == Reacted(cs[n], vs[n], before.1, s).1;
      assert Reacted(cs[n], vs[n], before.1, s).1.anyKeyAid
        == if HonoursAnyKey(cs[n], vs[n], s) then None else before.1.anyKeyAid;
      assert SomeHonours(cs, vs, s) <==> SomeHonours(cs[..n], vs[..n], s) || HonoursAnyKey(cs[n], vs[n], s) by {
        if SomeHonours(cs, vs, s) {
          var k :| 0 <= k < |cs| && HonoursAnyKey(cs[k], vs[k], s);
          if k < n {
            assert HonoursAnyKey(cs[..n][k], vs[..n][k], s);
          }
        }
        if SomeHonours(cs[..n], vs[..n], s) {
          var k :| 0 <= k < n && HonoursAnyKey(cs[..n][k], vs[..n][k], s);
          assert HonoursAnyKey(cs[k], vs[k], s);
        }
      }
    }
  }

  /** With no "any key" scene armed, every input whose handler runs a scene steps its cursor. */
  lemma {:induction false} ScenesStepWithoutAnyKey(cs: seq<InputCfg>, vs: seq<InputView>, lv: LordView, s: Stimulus)
    requires |cs| == |vs| && lv.anyKeyAid.None?
    ensures ReactedAll(cs, vs, lv, s).1.anyKeyAid.None?
    ensures forall k :: 0 <= k < |vs| && (Executes(cs[k], s) || HonoursAnyKey(cs[k], vs[k], s)) ==>
      ReactedAll(cs, vs, lv, s).0[k].index == Inputs.Stepped(vs[k].index, cs[k].scenes)
  {
    if vs != [] {
      var n := |vs| - 1;
      ScenesStepWithoutAnyKey(cs[..n], vs[..n], lv, s);
    }
  }

  /**
   * One input of the channel: a level input runs when the reported level
   * is its own, a presence sensor hears the report unless a curtain is
   * moving, and an infrared-timeout input is left to its timer.
   */
  method RunInput(input: ChannelInput.ChannelInput, state: byte, lord: Lord.LordManager,
                  modes: ManagerBase.LordManager, nowMs: int, wallClock: int, localHour: int, spawned: bool)
    returns (ran: bool, heard: bool)
    requires input in lord.channelInputs.Values
    modifies lord.ctx`heartbeatCode, lord.ctx`anyKeyAid, lord.ctx`lastPresenceTime, modes`currMode
    modifies lord.channelInputs.Values, lord.actionGroups.Values, InputScenes(lord)
    ensures ran <==> input.triggerType == LevelOf(state)
    ensures heard <==> input.triggerType == Inputs.Infrared && !old(CurtainsMoving(lord))
    ensures (ViewOf(input), CtxView(lord.ctx))
      == Reacted(CfgOf(input, lord.ctx, wallClock, localHour), old(ViewOf(input)), old(CtxView(lord.ctx)),
                 Report(state, nowMs, old(CurtainsMoving(lord))))
    ensures forall i :: i in lord.channelInputs.Values && i != input ==> ViewOf(i) == old(ViewOf(i))
  {
    ran, heard := false, false;
    if input.currentIndex < |input.actionGroups| {
      ghost var g := input.actionGroups[input.currentIndex];
      assert g in input.actionGroups;
      assert g in InputScenes(lord);
    }
    ghost var c, v, lv := CfgOf(input, lord.ctx, wallClock, localHour), ViewOf(input), CtxView(lord.ctx);
    ghost var stimulus := Report(state, nowMs, CurtainsMoving(lord));
    if input.triggerType == Inputs.LowLevel || input.triggerType == Inputs.HighLevel {
      var level := if state == 0x01 then Inputs.HighLevel else Inputs.LowLevel;
      if input.triggerType == level {
        var _, _ := input.Execute(lord.ctx, lord.actionGroups, modes, spawned);
        ran := true;
        assert Executes(c, stimulus);
        assert (ViewOf(input), CtxView(lord.ctx)) == Executed(c, v, lv);
      }
    } else if input.triggerType == Inputs.Infrared {
      var moving := CurtainIsMoving(lord);
      if !moving {
        input.ExecuteInfrared(state, nowMs, wallClock, localHour, lord.ctx, lord.actionGroups, modes, spawned);
        heard := true;
        assert Hears(c, stimulus);
        assert (ViewOf(input), CtxView(lord.ctx)) == Heard(c, v, state, nowMs, lv);
      }
    }
  }

  /**
   * Partway through the loop over `inputs`: the first `k` inputs hold the
   * views `done` gives them, the rest still hold their views `vs` from
   * before the loop, and the context holds what `done` gives it.
   */
  ghost predicate Partway(inputs: seq<ChannelInput.ChannelInput>, ctx: LordContext.Context, k: nat,
                          vs: seq<InputView>, done: (seq<InputView>, LordView))
    reads ctx, inputs
  {
    && k <= |inputs| == |vs| && |done.0| == k
    && (forall j :: 0 <= j < k ==> ViewOf(inputs[j]) == done.0[j])
    && (forall j :: k <= j < |inputs| ==> ViewOf(inputs[j]) == vs[j])
    && CtxView(ctx) == done.1
  }

  /** Before the loop over `inputs` nothing has reacted, and every input holds the view it had. */
  lemma PartwayStart(inputs: seq<ChannelInput.ChannelInput>, ctx: LordContext.Context)
    ensures Partway(inputs, ctx, 0, Views(inputs), ([], CtxView(ctx)))
  {
  }

  /** After the loop over `inputs` every input holds the view the fold gave it. */
  lemma PartwayDone(inputs: seq<ChannelInput.ChannelInput>, ctx: LordContext.Context,
                    vs: seq<InputView>, done: (seq<InputView>, LordView))
    requires Partway(inputs, ctx, |inputs|, vs, done)
    ensures (Views(inputs), CtxView(ctx)) == done
  {
    assert Views(inputs) == done.0;
  }

  /**
   * Partway through the loop over `inputs`, each of them registered: the
   * first `k` have reacted to `s` as the fold says, the rest hold their
   * views `vs` from before the loop, and every registered input off the
   * list holds the view `views0` recorded for it before the loop.
   */
  ghost predicate Looping(inputs: seq<ChannelInput.ChannelInput>, lord: Lord.LordManager, k: nat,
                          cs: seq<InputCfg>, vs: seq<InputView>, lv: LordView, s: Stimulus,
                          done: (seq<InputView>, LordView), views0: map<ChannelInput.ChannelInput, InputView>)
    reads lord, lord.ctx, lord.channelInputs.Values
  {
    && k <= |inputs| == |cs| == |vs|
    && (forall i :: i in inputs ==> i in lord.channelInputs.Values)
    && done == ReactedAll(cs[..k], vs[..k], lv, s) && Partway(inputs, lord.ctx, k, vs, done)
    && (forall i :: i in lord.channelInputs.Values && i !in inputs ==> i in views0 && ViewOf(i) == views0[i])
  }

  /** One turn of the loop over the channel's inputs: the next input reacts, every other input keeps its view. */
  method RunNext(inputs: seq<ChannelInput.ChannelInput>, k: nat, state: byte, lord: Lord.LordManager,
                 modes: ManagerBase.LordManager, nowMs: int, wallClock: int, localHour: int, spawned: bool,
                 ghost cs: seq<InputCfg>, ghost vs: seq<InputView>, ghost lv: LordView, ghost stimulus: Stimulus,
                 ghost done: (seq<InputView>, LordView), ghost views0: map<ChannelInput.ChannelInput, InputView>)
    returns (ghost next: (seq<InputView>, LordView))
    requires k < |inputs| && Looping(inputs, lord, k, cs, vs, lv, stimulus, done, views0)
    requires forall a, b :: 0 <= a < b < |inputs| ==> inputs[a] != inputs[b]
    requires cs[k] == CfgOf(inputs[k], lord.ctx, wallClock, localHour)
    requires stimulus == Report(state, nowMs, CurtainsMoving(lord))
    modifies lord.ctx`heartbeatCode, lord.ctx`anyKeyAid, lord.ctx`lastPresenceTime, modes`currMode
    modifies lord.channelInputs.Values, lord.actionGroups.Values, InputScenes(lord)
    ensures Looping(inputs, lord, k + 1, cs, vs, lv, stimulus, next, views0)
    ensures CurtainsMoving(lord) == old(CurtainsMoving(lord))
  {
    var _, _ := RunInput(inputs[k], state, lord, modes, nowMs, wallClock, localHour, spawned);
    forall j | 0 <= j < |inputs| && j != k
      ensures ViewOf(inputs[j]) == old(ViewOf(inputs[j]))
    {
      assert inputs[j] != inputs[k];
    }
    next := FoldNext(cs, vs, lv, stimulus, k, done, ViewOf(inputs[k]), CtxView(lord.ctx));
  }

  /** The loop over the channel's inputs, in the order the registry lists them. */
  method RunInputs(inputs: seq<ChannelInput.ChannelInput>, state: byte, lord: Lord.LordManager,
                   modes: ManagerBase.LordManager, nowMs: int, wallClock: int, localHour: int, spawned: bool)
    requires forall i :: i in inputs ==> i in lord.channelInputs.Values
    requires forall a, b :: 0 <= a < b < |inputs| ==> inputs[a] != inputs[b]
    modifies lord.ctx`heartbeatCode, lord.ctx`anyKeyAid, lord.ctx`lastPresenceTime, modes`currMode
    modifies lord.channelInputs.Values, lord.actionGroups.Values, InputScenes(lord)
    ensures CurtainsMoving(lord) == old(CurtainsMoving(lord))
    ensures (Views(inputs), CtxView(lord.ctx))
      == ReactedAll(Cfgs(inputs, lord.ctx, wallClock, localHour), old(Views(inputs)), old(CtxView(lord.ctx)),
                    Report(state, nowMs, old(CurtainsMoving(lord))))
    ensures forall i :: i in lord.channelInputs.Values && i !in inputs ==> ViewOf(i) == old(ViewOf(i))
  {
    var k := 0;
    ghost var cs, vs, lv := Cfgs(inputs, lord.ctx, wallClock, localHour), Views(inputs), CtxView(lord.ctx);
    ghost var stimulus := Report(state, nowMs, CurtainsMoving(lord));
    ghost var done: (seq<InputView>, LordView) := ([], lv);
    ghost var views0 := map i | i in lord.channelInputs.Values :: ViewOf(i);
    PartwayStart(inputs, lord.ctx);
    while k < |inputs|
      invariant CurtainsMoving(lord) == stimulus.moving
      invariant Looping(inputs, lord, k, cs, vs, lv, stimulus, done, views0)
    {
      done := RunNext(inputs, k, state, lord, modes, nowMs, wallClock, localHour, spawned, cs, vs, lv, stimulus, done, views0);
      k := k + 1;
    }
    assert cs[..k] == cs && vs[..k] == vs;
    PartwayDone(inputs, lord.ctx, vs, done);
  }

  /**
   * A door contact changed: a non-zero level means the door closed, zero
   * that it opened. When the card-slot channel is a presence sensor, the
   * door movement also counts as a presence report on that channel, which
   * `wake` names for the caller to handle (within a handling already
   * caused by such a report, none is made).
   */
  method DoorChanged(lord: Lord.LordManager, state: byte, nowMs: int, nested: bool) returns (wake: Option<byte>)
    modifies lord.ctx`doorOpen, lord.ctx`lastDoorOpenTime, lord.ctx`lastDoorCloseTime
    ensures CtxView(lord.ctx) == old(CtxView(lord.ctx)) && PoolViews(lord) == old(PoolViews(lord))
    ensures CurtainsMoving(lord) == old(CurtainsMoving(lord))
    ensures state != 0 ==>
      !lord.ctx.doorOpen && lord.ctx.lastDoorCloseTime == nowMs && lord.ctx.lastDoorOpenTime == old(lord.ctx.lastDoorOpenTime)
    ensures state == 0 ==>
      lord.ctx.doorOpen && lord.ctx.lastDoorOpenTime == nowMs && lord.ctx.lastDoorCloseTime == old(lord.ctx.lastDoorCloseTime)
    ensures wake.Some? ==> !nested && exists i :: InfraredAliveChannel(lord, i) && i.channel == wake.value
    ensures !nested && (exists i :: i in lord.channelInputs.Values && Inputs.IsAliveChannel in i.tags)
      && (forall i :: i in lord.channelInputs.Values && Inputs.IsAliveChannel in i.tags ==> InfraredAliveChannel(lord, i))
      ==> wake.Some?
  {
    if state != 0 {
      lord.ctx.OnDoorClosed(nowMs);
    } else {
      lord.ctx.OnDoorOpened(nowMs);
    }
    wake := None;
    if !nested {
      var aliveChannel := lord.GetAliveChannel();
      if aliveChannel.Some? && (aliveChannel.value.triggerType == Inputs.Infrared
                                || aliveChannel.value.triggerType == Inputs.InfraredTimeout) {
        wake := Some(aliveChannel.value.channel);
      }
    }
  }

  /*
   * The chain of wake-up reports. As written, the wake-up report is handed
   * back to `handle_response` with no limit on the depth: when the first
   * input of the card-slot sensor's own channel is a door contact, every
   * wake-up report moves the door again and makes another one. The model
   * handles a wake-up report once, without making another (`nested`).
   */

  /**
   * What decides whether a report makes a wake-up report: the tags of the
   * first input configured on each channel (channels without inputs are
   * absent), whether a card is in, and the channel of the card-slot sensor
   * `getAliveChannel` returns, when it is an infrared one.
   */
  datatype WakeSetup = WakeSetup(firstTags: map<byte, set<Inputs.InputTag>>, alive: bool, sensor: Option<byte>)

  /** The wake-up report a report on `channel` makes: an admitted door contact wakes the infrared card-slot sensor. */
  function WakeStep(w: WakeSetup, channel: byte): (r: Option<byte>)
    ensures r.Some? <==>
      && channel in w.firstTags && Inputs.IsDoorChannel in w.firstTags[channel]
      && (w.alive || Inputs.RemoveCardUsable in w.firstTags[channel]) && w.sensor.Some?
    ensures r.Some? ==> r == w.sensor
  {
    if channel in w.firstTags && (w.alive || Inputs.RemoveCardUsable in w.firstTags[channel])
       && Inputs.IsDoorChannel in w.firstTags[channel] then w.sensor
    else None
  }

  /** As written: the wake-up reports `depth` levels of re-entry into `handle_response` make, starting from a report on `channel`. */
  function WakeChainAsWritten(w: WakeSetup, channel: byte, depth: nat): (r: seq<byte>)
    ensures |r| <= depth
    ensures forall k :: 0 <= k < |r| ==> Some(r[k]) == w.sensor
    decreases depth
  {
    if depth == 0 then []
    else match WakeStep(w, channel)
      case None => []
      case Some(s) => [s] + WakeChainAsWritten(w, s, depth - 1)
  }

  /**
   * As written, once a report wakes a card-slot sensor whose own channel
   * starts with a door contact, the chain of wake-up reports reaches every
   * depth: the recursion does not end.
   */
  lemma {:induction false} WakeChainUnboundedAsWritten(w: WakeSetup, channel: byte, depth: nat)
    requires WakeStep(w, channel).Some? && WakeStep(w, WakeStep(w, channel).value) == WakeStep(w, channel)
    ensures |WakeChainAsWritten(w, channel, depth)| == depth
    decreases depth
  {
    if depth > 0 {
      var s := WakeStep(w, channel).value;
      WakeChainUnboundedAsWritten(w, s, depth - 1);
    }
  }

  /** A concrete setup: channel 3 is both the door contact and the infrared card-slot sensor, and a door report on it never stops waking it. */
  lemma DoorOnSensorChannelLoopsAsWritten(depth: nat)
    ensures |WakeChainAsWritten(WakeSetup(map[3 := {Inputs.IsDoorChannel, Inputs.IsAliveChannel}], true, Some(3)), 3, depth)| == depth
  {
    var w := WakeSetup(map[3 := {Inputs.IsDoorChannel, Inputs.IsAliveChannel}], true, Some(3));
    WakeChainUnboundedAsWritten(w, 3, depth);
  }

  /** The model's rule: a report makes at most one wake-up report, the one the rule as written makes first. */
  function WakeChainCut(w: WakeSetup, channel: byte): (r: seq<byte>)
    ensures |r| <= 1
    ensures forall depth: nat :: depth >= 1 ==> r <= WakeChainAsWritten(w, channel, depth)
  {
    match WakeStep(w, channel)
    case None => []
    case Some(s) => [s]
  }

  /** What became of a dry-contact report. */
  datatype DryContactOutcome =
      /** Test mode: the report was echoed to the relay of the same channel. */
    | Echoed
      /** No input is configured on the channel. */
    | Unconfigured
      /** The card is out and the channel is not usable without it. */
    | RefusedWithoutCard
      /** A doorbell while the room asks not to be disturbed. */
    | DoNotDisturb
      /**
       * The channel's inputs were run: `wake` is the card-slot channel a
       * door movement reported presence on, `woken` what became of that
       * wake-up report, and `before` and `ctxBefore` the inputs' views and
       * the context as the inputs found them, after it was handled.
       */
    | Ran(inputs: seq<ChannelInput.ChannelInput>, wake: Option<byte>, woken: Option<DryContactOutcome>,
          before: seq<InputView>, ctxBefore: LordView)

  /**
   * The `CMD_DRYCONTACT_INPUT` case of `handle_response`. In test mode the
   * report is echoed to the relay of the same channel; otherwise the flags
   * of the first input configured on the channel decide whether the report
   * is refused without a card (`alive` is the lord's `getAlive`).
   */
  method HandleDryContact(frame: Stm32Frames.Frame, testMode: bool, alive: bool, lord: Lord.LordManager,
                          rooms: RoomState.RoomStates, modes: ManagerBase.LordManager, board: Stm32Frames.Stm32Port,
                          nowMs: int, wallClock: int, localHour: int, spawned: bool, nested: bool)
    returns (o: DryContactOutcome)
    requires lord.Valid()
    modifies board, lord.ctx`heartbeatCode, lord.ctx`anyKeyAid, lord.ctx`lastPresenceTime
    modifies lord.ctx`doorOpen, lord.ctx`lastDoorOpenTime, lord.ctx`lastDoorCloseTime, modes`currMode
    modifies lord.channelInputs.Values, lord.actionGroups.Values, InputScenes(lord)
    decreases if nested then 0 else 1, 4
    ensures o.Echoed? <==> testMode
    ensures testMode ==>
      board.sent == old(board.sent) + [Stm32Frames.Built(Stm32Frames.CMD_RELAY_CONTROL, 0, frame.channel, frame.param1, 0)]
    ensures !testMode ==> board.sent == old(board.sent)
    ensures !testMode ==> (o.Unconfigured? <==> forall i :: i in lord.channelInputs.Values ==> i.channel != frame.channel)
    ensures o.RefusedWithoutCard? ==> !alive
    ensures o.Echoed? || o.Unconfigured? || o.RefusedWithoutCard? ==>
      unchanged(lord.ctx) && unchanged(lord.channelInputs.Values) && modes.currMode == old(modes.currMode)
    ensures o.Ran? || o.DoNotDisturb? ==> Acted(o, frame, alive, lord, rooms, nowMs, nested)
    ensures o.Ran? ==> DoorKept(o, frame, nowMs, lord.ctx, old(lord.ctx.doorOpen), old(lord.ctx.lastDoorOpenTime), old(lord.ctx.lastDoorCloseTime))
    ensures o.DoNotDisturb? ==> unchanged(lord.ctx) && unchanged(lord.channelInputs.Values) && modes.currMode == old(modes.currMode)
    ensures frame.param1 == 0 ==> lord.ctx.lastDoorCloseTime == old(lord.ctx.lastDoorCloseTime)
    ensures frame.param1 == 0 && old(lord.ctx.doorOpen) && old(lord.ctx.lastDoorOpenTime) == nowMs ==>
      lord.ctx.doorOpen && lord.ctx.lastDoorOpenTime == nowMs
    ensures o.Ran? ==> var ran := o.inputs; old(allocated(ran))
    ensures o.Ran? ==> var ran := o.inputs;
      RanAsReported(o, frame.param1, nowMs, Cfgs(ran, lord.ctx, wallClock, localHour), lord, old(CurtainsMoving(lord)))
    ensures o.Ran? && o.wake.None? ==> var ran := o.inputs;
      o.before == old(Views(ran)) && o.ctxBefore == old(CtxView(lord.ctx))
    ensures o.Ran? ==> var ran := o.inputs;
      WakeAccounted(o, old(Views(ran)), old(CtxView(lord.ctx)), old(PoolViews(lord)), lord, nowMs, wallClock, localHour,
                    old(CurtainsMoving(lord)), nested)
    ensures forall i :: i in lord.channelInputs.Values && i.channel != frame.channel && !Woke(o, i.channel) ==> ViewOf(i) == old(ViewOf(i))
  {
    if testMode {
      board.SendStm32Cmd(Stm32Frames.CMD_RELAY_CONTROL, 0x00, frame.channel, frame.param1, 0x00);
      return Echoed;
    }
    o := AdmitReport(frame, alive, lord, rooms, modes, board, nowMs, wallClock, localHour, spawned, nested);
  }

  /** A report outside test mode: refused when no input is configured on its channel or the card rule forbids it, run otherwise. */
  method AdmitReport(frame: Stm32Frames.Frame, alive: bool, lord: Lord.LordManager,
                     rooms: RoomState.RoomStates, modes: ManagerBase.LordManager, board: Stm32Frames.Stm32Port,
                     nowMs: int, wallClock: int, localHour: int, spawned: bool, nested: bool)
    returns (o: DryContactOutcome)
    requires lord.Valid()
    modifies board, lord.ctx`heartbeatCode, lord.ctx`anyKeyAid, lord.ctx`lastPresenceTime
    modifies lord.ctx`doorOpen, lord.ctx`lastDoorOpenTime, lord.ctx`lastDoorCloseTime, modes`currMode
    modifies lord.channelInputs.Values, lord.actionGroups.Values, InputScenes(lord)
    decreases if nested then 0 else 1, 3
    ensures !o.Echoed? && board.sent == old(board.sent)
    ensures o.Unconfigured? <==> forall i :: i in lord.channelInputs.Values ==> i.channel != frame.channel
    ensures o.RefusedWithoutCard? ==> !alive
    ensures o.Unconfigured? || o.RefusedWithoutCard? ==>
      unchanged(lord.ctx) && unchanged(lord.channelInputs.Values) && modes.currMode == old(modes.currMode)
    ensures o.Ran? || o.DoNotDisturb? ==> Acted(o, frame, alive, lord, rooms, nowMs, nested)
    ensures o.Ran? ==> DoorKept(o, frame, nowMs, lord.ctx, old(lord.ctx.doorOpen), old(lord.ctx.lastDoorOpenTime), old(lord.ctx.lastDoorCloseTime))
    ensures o.DoNotDisturb? ==> unchanged(lord.ctx) && unchanged(lord.channelInputs.Values) && modes.currMode == old(modes.currMode)
    ensures frame.param1 == 0 ==> lord.ctx.lastDoorCloseTime == old(lord.ctx.lastDoorCloseTime)
    ensures frame.param1 == 0 && old(lord.ctx.doorOpen) && old(lord.ctx.lastDoorOpenTime) == nowMs ==>
      lord.ctx.doorOpen && lord.ctx.lastDoorOpenTime == nowMs
    ensures o.Ran? ==> var ran := o.inputs; old(allocated(ran))
    ensures o.Ran? ==> var ran := o.inputs;
      RanAsReported(o, frame.param1, nowMs, Cfgs(ran, lord.ctx, wallClock, localHour), lord, old(CurtainsMoving(lord)))
    ensures o.Ran? && o.wake.None? ==> var ran := o.inputs;
      o.before == old(Views(ran)) && o.ctxBefore == old(CtxView(lord.ctx))
    ensures o.Ran? ==> var ran := o.inputs;
      WakeAccounted(o, old(Views(ran)), old(CtxView(lord.ctx)), old(PoolViews(lord)), lord, nowMs, wallClock, localHour,
                    old(CurtainsMoving(lord)), nested)
    ensures forall i :: i in lord.channelInputs.Values && i.channel != frame.channel && !Woke(o, i.channel) ==> ViewOf(i) == old(ViewOf(i))
  {
    ghost var pool := lord.channelInputs.Values;
    var inputs := lord.GetAllChannelInputByChannelNum(frame.channel);
    forall k | 0 <= k < |inputs|
      ensures old(allocated(inputs[k]))
    {
      assert inputs[k] in pool;
    }
    if |inputs| == 0 {
      return Unconfigured;
    }
    assert inputs[0] in inputs;
    if !alive && Inputs.RemoveCardUsable !in inputs[0].tags {
      return RefusedWithoutCard;
    }
    o := ActOnInputs(inputs, frame, alive, lord, rooms, modes, board, nowMs, wallClock, localHour, spawned, nested);
  }

  /**
   * What a handled report did to the channel's inputs: they are the ones
   * configured on its channel, admitted by the card rule, and a doorbell
   * was silenced exactly when the room asks not to be disturbed.
   */
  ghost predicate Acted(o: DryContactOutcome, frame: Stm32Frames.Frame, alive: bool, lord: Lord.LordManager,
                        rooms: RoomState.RoomStates, nowMs: int, nested: bool)
    requires o.Ran? || o.DoNotDisturb?
    reads lord, rooms
  {
    match o
    case DoNotDisturb => DO_NOT_DISTURB in rooms.states
    case Ran(inputs, wake, _, _, _) =>
      && |inputs| > 0
      && (forall i :: i in inputs ==> i in lord.channelInputs.Values && i.channel == frame.channel)
      && (forall i :: i in lord.channelInputs.Values && i.channel == frame.channel ==> i in inputs)
      && (alive || Inputs.RemoveCardUsable in inputs[0].tags)
      && (Inputs.IsDoorChannel !in inputs[0].tags && Inputs.IsDoorbellChannel in inputs[0].tags ==>
            DO_NOT_DISTURB !in rooms.states)
      && (wake.Some? ==>
            !nested && Inputs.IsDoorChannel in inputs[0].tags
            && exists i :: i in lord.channelInputs.Values && InfraredAliveChannel(lord, i) && i.channel == wake.value)
  }

  /**
   * What a handled report did to the door: a door contact records the
   * opening or closing at `nowMs`; any other channel leaves the door alone.
   */
  ghost predicate DoorKept(o: DryContactOutcome, frame: Stm32Frames.Frame, nowMs: int, ctx: LordContext.Context,
                           doorOpen0: bool, openTime0: int, closeTime0: int)
    requires o.Ran? && |o.inputs| > 0
    reads ctx
  {
    if Inputs.IsDoorChannel !in o.inputs[0].tags then
      o.wake.None? && ctx.doorOpen == doorOpen0 && ctx.lastDoorOpenTime == openTime0 && ctx.lastDoorCloseTime == closeTime0
    else if frame.param1 == 0 then
      ctx.doorOpen && ctx.lastDoorOpenTime == nowMs
    else
      ctx.lastDoorCloseTime == nowMs && (o.wake.None? ==> !ctx.doorOpen)
  }

  /**
   * The admitted report: a door contact moves the door and, when the
   * card-slot channel is a presence sensor, is handled as a report of
   * level 0 on that channel before the door's own inputs run; a doorbell is
   * silenced while the room asks not to be disturbed; then the inputs run.
   */
  method ActOnInputs(inputs: seq<ChannelInput.ChannelInput>, frame: Stm32Frames.Frame, alive: bool, lord: Lord.LordManager,
                     rooms: RoomState.RoomStates, modes: ManagerBase.LordManager, board: Stm32Frames.Stm32Port,
                     nowMs: int, wallClock: int, localHour: int, spawned: bool, nested: bool)
    returns (o: DryContactOutcome)
    requires |inputs| > 0 && (alive || Inputs.RemoveCardUsable in inputs[0].tags)
    requires forall a, b :: 0 <= a < b < |inputs| ==> inputs[a] != inputs[b]
    requires forall i :: i in inputs ==> i in lord.channelInputs.Values && i.channel == frame.channel
    requires forall i :: i in lord.channelInputs.Values && i.channel == frame.channel ==> i in inputs
    requires lord.Valid()
    modifies board, lord.ctx`heartbeatCode, lord.ctx`anyKeyAid, lord.ctx`lastPresenceTime
    modifies lord.ctx`doorOpen, lord.ctx`lastDoorOpenTime, lord.ctx`lastDoorCloseTime, modes`currMode
    modifies lord.channelInputs.Values, lord.actionGroups.Values, InputScenes(lord)
    decreases if nested then 0 else 1, 2
    ensures board.sent == old(board.sent)
    ensures o.Ran? || o.DoNotDisturb?
    ensures Acted(o, frame, alive, lord, rooms, nowMs, nested)
    ensures o.Ran? ==> o.inputs == inputs
    ensures o.Ran? ==> DoorKept(o, frame, nowMs, lord.ctx, old(lord.ctx.doorOpen), old(lord.ctx.lastDoorOpenTime), old(lord.ctx.lastDoorCloseTime))
    ensures o.DoNotDisturb? ==> unchanged(lord.ctx) && unchanged(lord.channelInputs.Values) && modes.currMode == old(modes.currMode)
    ensures frame.param1 == 0 ==> lord.ctx.lastDoorCloseTime == old(lord.ctx.lastDoorCloseTime)
    ensures frame.param1 == 0 && old(lord.ctx.doorOpen) && old(lord.ctx.lastDoorOpenTime) == nowMs ==>
      lord.ctx.doorOpen && lord.ctx.lastDoorOpenTime == nowMs
    ensures o.Ran? ==> var ran := o.inputs; old(allocated(ran))
    ensures o.Ran? ==>
      RanAsReported(o, frame.param1, nowMs, Cfgs(inputs, lord.ctx, wallClock, localHour), lord, old(CurtainsMoving(lord)))
    ensures o.Ran? && o.wake.None? ==> o.before == old(Views(inputs)) && o.ctxBefore == old(CtxView(lord.ctx))
    ensures o.Ran? ==>
      WakeAccounted(o, old(Views(inputs)), old(CtxView(lord.ctx)), old(PoolViews(lord)), lord, nowMs, wallClock,
                    localHour, old(CurtainsMoving(lord)), nested)
    ensures forall i :: i in lord.channelInputs.Values && i.channel != frame.channel && !Woke(o, i.channel) ==> ViewOf(i) == old(ViewOf(i))
  {
    InputObjectsApart(lord, rooms, board);
    var tags := inputs[0].tags;
    if Inputs.IsDoorChannel in tags {
      o := DoorReport(inputs, frame, alive, lord, rooms, modes, board, nowMs, wallClock, localHour, spawned, nested);
      return;
    } else if Inputs.IsDoorbellChannel in tags {
      var disturbing := rooms.ExistState(DO_NOT_DISTURB);
      if disturbing {
        return DoNotDisturb;
      }
    }
    o := RunChannel(inputs, frame.param1, None, None, lord, modes, nowMs, wallClock, localHour, spawned);
  }

  /**
   * A door contact's admitted report: the door moves and the card-slot
   * sensor hears of it through a wake-up report, then the door channel's
   * own inputs run from where that report left them.
   */
  method DoorReport(inputs: seq<ChannelInput.ChannelInput>, frame: Stm32Frames.Frame, alive: bool, lord: Lord.LordManager,
                    rooms: RoomState.RoomStates, modes: ManagerBase.LordManager, board: Stm32Frames.Stm32Port,
                    nowMs: int, wallClock: int, localHour: int, spawned: bool, nested: bool)
    returns (o: DryContactOutcome)
    requires |inputs| > 0 && Inputs.IsDoorChannel in inputs[0].tags
    requires forall a, b :: 0 <= a < b < |inputs| ==> inputs[a] != inputs[b]
    requires forall i :: i in inputs ==> i in lord.channelInputs.Values && i.channel == frame.channel
    requires lord.Valid()
    modifies board, lord.ctx`heartbeatCode, lord.ctx`anyKeyAid, lord.ctx`lastPresenceTime
    modifies lord.ctx`doorOpen, lord.ctx`lastDoorOpenTime, lord.ctx`lastDoorCloseTime, modes`currMode
    modifies lord.channelInputs.Values, lord.actionGroups.Values, InputScenes(lord)
    decreases if nested then 0 else 1, 1
    ensures board.sent == old(board.sent)
    ensures o.Ran? && o.inputs == inputs
    ensures o.wake.Some? ==>
      !nested && exists i :: i in lord.channelInputs.Values && InfraredAliveChannel(lord, i) && i.channel == o.wake.value
    ensures !nested && AliveIsInfrared(lord) ==> o.wake.Some?
    ensures DoorKept(o, frame, nowMs, lord.ctx, old(lord.ctx.doorOpen), old(lord.ctx.lastDoorOpenTime), old(lord.ctx.lastDoorCloseTime))
    ensures frame.param1 == 0 ==> lord.ctx.lastDoorCloseTime == old(lord.ctx.lastDoorCloseTime)
    ensures RanAsReported(o, frame.param1, nowMs, Cfgs(inputs, lord.ctx, wallClock, localHour), lord, old(CurtainsMoving(lord)))
    ensures o.wake.None? ==> o.before == old(Views(inputs)) && o.ctxBefore == old(CtxView(lord.ctx))
    ensures WakeAccounted(o, old(Views(inputs)), old(CtxView(lord.ctx)), old(PoolViews(lord)), lord, nowMs, wallClock,
                          localHour, old(CurtainsMoving(lord)), nested)
    ensures forall i :: i in lord.channelInputs.Values && i.channel != frame.channel && !Woke(o, i.channel) ==> ViewOf(i) == old(ViewOf(i))
  {
    InputObjectsApart(lord, rooms, board);
    ghost var views0, ctx0, pool0, moving := Views(inputs), CtxView(lord.ctx), PoolViews(lord), CurtainsMoving(lord);
    assert forall k :: 0 <= k < |inputs| ==> inputs[k] in pool0 && views0[k] == pool0[inputs[k]];
    var wake, woken := MoveDoor(frame.param1, alive, lord, rooms, modes, board, nowMs, wallClock, localHour, spawned, nested);
    o := RunAfterWake(inputs, frame.param1, wake, woken, alive, lord, rooms, modes, board, nowMs, wallClock, localHour, spawned, nested,
                      views0, ctx0, pool0, moving);
  }

  /**
   * The door channel's own inputs run once the wake-up report, if there
   * was one, is done. `views0`, `ctx0` and `pool0` are their views, the
   * context and every configured input's view before the door moved, and
   * `moving` whether a curtain motor ran then. The run leaves the door, the
   * lord's registries and the board as they are.
   */
  method RunAfterWake(inputs: seq<ChannelInput.ChannelInput>, state: byte, wake: Option<byte>, woken: Option<DryContactOutcome>,
                      alive: bool, lord: Lord.LordManager, rooms: RoomState.RoomStates, modes: ManagerBase.LordManager,
                      board: Stm32Frames.Stm32Port, nowMs: int, wallClock: int, localHour: int, spawned: bool, nested: bool,
                      ghost views0: seq<InputView>, ghost ctx0: LordView, ghost pool0: map<ChannelInput.ChannelInput, InputView>,
                      ghost moving: bool)
    returns (o: DryContactOutcome)
    requires |inputs| > 0 && Inputs.IsDoorChannel in inputs[0].tags
    requires forall a, b :: 0 <= a < b < |inputs| ==> inputs[a] != inputs[b]
    requires forall i :: i in inputs ==> i in lord.channelInputs.Values
    requires forall i :: i in lord.channelInputs.Values ==> i in pool0
    requires |views0| == |inputs| && forall k :: 0 <= k < |inputs| ==> inputs[k] in pool0 && views0[k] == pool0[inputs[k]]
    requires CurtainsMoving(lord) == moving
    requires wake.Some? <==> woken.Some?
    requires wake.Some? ==>
      !nested && exists i :: i in lord.channelInputs.Values && InfraredAliveChannel(lord, i) && i.channel == wake.value
    requires !nested && AliveIsInfrared(lord) ==> wake.Some?
    requires wake.Some? ==> WokeAsReported(woken.value, wake.value, alive, lord, rooms, nowMs)
    requires wake.Some? && woken.value.Ran? ==> var w := woken.value;
      && w.ctxBefore == ctx0
      && (forall j :: 0 <= j < |w.inputs| && w.inputs[j] in pool0 ==> w.before[j] == pool0[w.inputs[j]])
      && RanAsReported(w, 0, nowMs, Cfgs(w.inputs, lord.ctx, wallClock, localHour), lord, moving)
    requires wake.None? || !woken.value.Ran? ==>
      CtxView(lord.ctx) == ctx0 && forall i :: i in lord.channelInputs.Values ==> ViewOf(i) == pool0[i]
    requires forall i :: i in lord.channelInputs.Values && wake != Some(i.channel) ==> ViewOf(i) == pool0[i]
    modifies lord.ctx`heartbeatCode, lord.ctx`anyKeyAid, lord.ctx`lastPresenceTime, modes`currMode
    modifies lord.channelInputs.Values, lord.actionGroups.Values, InputScenes(lord)
    ensures o.Ran? && o.inputs == inputs && o.wake == wake && o.woken == woken
    ensures unchanged(lord) && board.sent == old(board.sent)
    ensures o.wake.Some? ==>
      !nested && exists i :: i in lord.channelInputs.Values && InfraredAliveChannel(lord, i) && i.channel == o.wake.value
    ensures lord.ctx.doorOpen == old(lord.ctx.doorOpen) && lord.ctx.lastDoorOpenTime == old(lord.ctx.lastDoorOpenTime)
    ensures lord.ctx.lastDoorCloseTime == old(lord.ctx.lastDoorCloseTime)
    ensures RanAsReported(o, state, nowMs, Cfgs(inputs, lord.ctx, wallClock, localHour), lord, moving)
    ensures wake.None? ==> o.before == views0 && o.ctxBefore == ctx0
    ensures WakeAccounted(o, views0, ctx0, pool0, lord, nowMs, wallClock, localHour, moving, nested)
    ensures forall i :: i in lord.channelInputs.Values && i !in inputs && wake != Some(i.channel) ==> ViewOf(i) == pool0[i]
  {
    InputObjectsApart(lord, rooms, board);
    if wake.Some? && woken.value.Ran? {
      WokenRunLeft(inputs, woken.value, wake.value, lord, views0, pool0);
    } else {
      assert Views(inputs) == views0 by {
        forall k | 0 <= k < |inputs| ensures ViewOf(inputs[k]) == views0[k] {
          assert inputs[k] in inputs;
        }
      }
    }
    o := RunChannel(inputs, state, wake, woken, lord, modes, nowMs, wallClock, localHour, spawned);
    if wake.Some? && woken.value.Ran? {
      var w := woken.value;
      ghost var end := WakeEnd(w, lord.ctx, nowMs, wallClock, localHour, moving);
      assert (old(Views(w.inputs)), old(CtxView(lord.ctx))) == end;
      WokenFound(o, views0, ctx0, lord.ctx, nowMs, wallClock, localHour, moving, old(Views(w.inputs)));
      forall j | 0 <= j < |w.inputs| && w.inputs[j] !in o.inputs
        ensures ViewOf(w.inputs[j]) == end.0[j]
      {
        assert w.inputs[j] in lord.channelInputs.Values;
      }
    }
  }

  /** The door channel's run found the wake-up report's fold where that report ran its inputs. */
  lemma WokenFound(o: DryContactOutcome, views0: seq<InputView>, ctx0: LordView, ctx: LordContext.Context,
                   nowMs: int, wallClock: int, localHour: int, moving: bool, wokenViews: seq<InputView>)
    requires o.Ran? && o.woken.Some? && o.woken.value.Ran?
    requires var w := o.woken.value; |w.before| == |w.inputs| && |views0| == |o.inputs| == |o.before|
    requires var w := o.woken.value; (wokenViews, o.ctxBefore) == WakeEnd(w, ctx, nowMs, wallClock, localHour, moving)
    requires var w := o.woken.value;
      forall k, j :: 0 <= k < |o.inputs| && 0 <= j < |w.inputs| && o.inputs[k] == w.inputs[j] ==> o.before[k] == wokenViews[j]
    requires var w := o.woken.value; forall k :: 0 <= k < |o.inputs| && o.inputs[k] !in w.inputs ==> o.before[k] == views0[k]
    ensures FoundAfterWake(o, views0, ctx0, ctx, nowMs, wallClock, localHour, moving)
  {
  }

  /**
   * Once the wake-up report on `channel` ran, a door-channel input it did
   * not run still holds the view it had before the door moved.
   */
  lemma WokenRunLeft(inputs: seq<ChannelInput.ChannelInput>, w: DryContactOutcome, channel: byte, lord: Lord.LordManager,
                     views0: seq<InputView>, pool0: map<ChannelInput.ChannelInput, InputView>)
    requires w.Ran? && |views0| == |inputs|
    requires forall i :: i in inputs ==> i in lord.channelInputs.Values
    requires forall i :: i in lord.channelInputs.Values && i.channel == channel ==> i in w.inputs
    requires forall k :: 0 <= k < |inputs| ==> inputs[k] in pool0 && views0[k] == pool0[inputs[k]]
    requires forall i :: i in lord.channelInputs.Values ==> i in pool0
    requires forall i :: i in lord.channelInputs.Values && Some(channel) != Some(i.channel) ==> ViewOf(i) == pool0[i]
    ensures forall k :: 0 <= k < |inputs| && inputs[k] !in w.inputs ==> ViewOf(inputs[k]) == views0[k]
  {
    forall k | 0 <= k < |inputs| && inputs[k] !in w.inputs
      ensures ViewOf(inputs[k]) == views0[k]
    {
      assert inputs[k] in inputs;
    }
  }

  /** The inputs of one channel run on a report of `state`; the outcome records what they found. */
  method RunChannel(inputs: seq<ChannelInput.ChannelInput>, state: byte, wake: Option<byte>, woken: Option<DryContactOutcome>,
                    lord: Lord.LordManager,
                    modes: ManagerBase.LordManager, nowMs: int, wallClock: int, localHour: int, spawned: bool)
    returns (o: DryContactOutcome)
    requires forall i :: i in inputs ==> i in lord.channelInputs.Values
    requires forall a, b :: 0 <= a < b < |inputs| ==> inputs[a] != inputs[b]
    modifies lord.ctx`heartbeatCode, lord.ctx`anyKeyAid, lord.ctx`lastPresenceTime, modes`currMode
    modifies lord.channelInputs.Values, lord.actionGroups.Values, InputScenes(lord)
    ensures o == Ran(inputs, wake, woken, old(Views(inputs)), old(CtxView(lord.ctx)))
    ensures RanAsReported(o, state, nowMs, Cfgs(inputs, lord.ctx, wallClock, localHour), lord, old(CurtainsMoving(lord)))
    ensures forall i :: i in lord.channelInputs.Values && i !in inputs ==> ViewOf(i) == old(ViewOf(i))
  {
    o := Ran(inputs, wake, woken, Views(inputs), CtxView(lord.ctx));
    RunInputs(inputs, state, lord, modes, nowMs, wallClock, localHour, spawned);
  }

  /**
   * The channel's inputs now stand where the fold of their reactions to
   * the report takes them from the views the outcome recorded.
   */
  ghost predicate RanAsReported(o: DryContactOutcome, state: byte, nowMs: int, cs: seq<InputCfg>, lord: Lord.LordManager, moving: bool)
    requires o.Ran?
    reads lord.ctx, o.inputs
  {
    && |cs| == |o.before|
    && (Views(o.inputs), CtxView(lord.ctx)) == ReactedAll(cs, o.before, o.ctxBefore, Report(state, nowMs, moving))
  }

  /** A door movement woke the card-slot channel `channel`. */
  predicate Woke(o: DryContactOutcome, channel: byte)
  {
    o.Ran? && o.wake == Some(channel)
  }

  /** The report of level 0 a door movement hands on for the card-slot channel `channel`. */
  function WakeupFrame(channel: byte): (f: Stm32Frames.Frame)
    ensures f.cmdType == Stm32Frames.CMD_DRYCONTACT_INPUT && f.channel == channel && f.param1 == 0
  {
    Stm32Frames.Built(Stm32Frames.CMD_DRYCONTACT_INPUT, 0x00, channel, 0x00, 0x00)
  }

  /** Some input is the card-slot channel, and every such input is a presence sensor. */
  ghost predicate AliveIsInfrared(lord: Lord.LordManager)
    reads lord
  {
    && (exists i :: i in lord.channelInputs.Values && Inputs.IsAliveChannel in i.tags)
    && (forall i :: i in lord.channelInputs.Values && Inputs.IsAliveChannel in i.tags ==> InfraredAliveChannel(lord, i))
  }

  /**
   * What became of a wake-up report on `channel`, handled within a door
   * movement: it is not echoed, the channel is configured, a refusal means
   * the card is out, and a run acted on the channel's inputs without
   * making a wake-up report of its own.
   */
  ghost predicate WokeAsReported(w: DryContactOutcome, channel: byte, alive: bool, lord: Lord.LordManager,
                                 rooms: RoomState.RoomStates, nowMs: int)
    reads lord, rooms
  {
    && !w.Echoed? && !w.Unconfigured?
    && (w.RefusedWithoutCard? ==> !alive)
    && (w.Ran? || w.DoNotDisturb? ==> Acted(w, WakeupFrame(channel), alive, lord, rooms, nowMs, true))
    && (w.Ran? ==> w.woken.None? && |w.before| == |w.inputs|)
  }

  /** Where the wake-up report's run left its inputs and the context: the fold of their reactions to level 0. */
  function WakeEnd(w: DryContactOutcome, ctx: LordContext.Context, nowMs: int, wallClock: int, localHour: int, moving: bool)
    : (r: (seq<InputView>, LordView))
    requires w.Ran? && |w.before| == |w.inputs|
    ensures |r.0| == |w.inputs|
  {
    ReactedAll(Cfgs(w.inputs, ctx, wallClock, localHour), w.before, w.ctxBefore, Report(0, nowMs, moving))
  }

  /**
   * The views and context a door contact's own inputs found after the
   * wake-up report: where that report ran, an input it ran holds the view
   * its fold gave it and the context is the one the fold left; every other
   * input, and the context when it did not run, are as before the report
   * (`views0`, `ctx0`).
   */
  ghost predicate FoundAfterWake(o: DryContactOutcome, views0: seq<InputView>, ctx0: LordView, ctx: LordContext.Context,
                                 nowMs: int, wallClock: int, localHour: int, moving: bool)
    requires o.Ran? && o.woken.Some?
  {
    var w := o.woken.value;
    && |views0| == |o.inputs| == |o.before|
    && if w.Ran? && |w.before| == |w.inputs| then
         var end := WakeEnd(w, ctx, nowMs, wallClock, localHour, moving);
         && o.ctxBefore == end.1
         && (forall k, j :: 0 <= k < |o.inputs| && 0 <= j < |w.inputs| && o.inputs[k] == w.inputs[j] ==> o.before[k] == end.0[j])
         && (forall k :: 0 <= k < |o.inputs| && o.inputs[k] !in w.inputs ==> o.before[k] == views0[k])
       else
         o.before == views0 && o.ctxBefore == ctx0
  }

  /** Every configured input's view. */
  function PoolViews(lord: Lord.LordManager): (m: map<ChannelInput.ChannelInput, InputView>)
    reads lord, lord.channelInputs.Values
  {
    map i | i in lord.channelInputs.Values :: ViewOf(i)
  }

  /** The inputs a door movement's wake-up report ran, when it ran; none otherwise. */
  function WokenInputs(o: DryContactOutcome): (ins: seq<ChannelInput.ChannelInput>)
    ensures o.Ran? && o.woken.Some? && o.woken.value.Ran? ==> ins == o.woken.value.inputs
    ensures !(o.Ran? && o.woken.Some? && o.woken.value.Ran?) ==> ins == []
  {
    if o.Ran? && o.woken.Some? && o.woken.value.Ran? then o.woken.value.inputs else []
  }

  /**
   * What a run says of the wake-up report a door movement handed on before
   * it: there is an outcome exactly when a channel was woken; where that
   * report ran, it ran every input configured on the woken channel, from
   * the views every configured input had (`pool0`) and the context the run
   * started from (`ctx0`); the run's own inputs found what FoundAfterWake
   * describes, and the woken inputs outside the
   * run's channel stay where that report left them. A door report outside
   * a nested one wakes the card-slot sensor whenever one is configured and
   * every such input is a presence sensor.
   */
  ghost predicate WakeAccounted(o: DryContactOutcome, views0: seq<InputView>, ctx0: LordView,
                                pool0: map<ChannelInput.ChannelInput, InputView>, lord: Lord.LordManager,
                                nowMs: int, wallClock: int, localHour: int, moving: bool, nested: bool)
    requires o.Ran?
    reads lord, WokenInputs(o)
  {
    match o.woken
    case None =>
      && o.wake.None?
      && !(|o.inputs| > 0 && Inputs.IsDoorChannel in o.inputs[0].tags && !nested && AliveIsInfrared(lord))
    case Some(w) =>
      && o.wake.Some?
      && FoundAfterWake(o, views0, ctx0, lord.ctx, nowMs, wallClock, localHour, moving)
      && WokenKept(o, lord.ctx, nowMs, wallClock, localHour, moving)
      && (w.Ran? ==>
            && |w.before| == |w.inputs| && w.ctxBefore == ctx0
            && (forall i :: i in w.inputs ==> i in lord.channelInputs.Values && i.channel == o.wake.value)
            && (forall i :: i in lord.channelInputs.Values && i.channel == o.wake.value ==> i in w.inputs)
            && forall j :: 0 <= j < |w.inputs| && w.inputs[j] in pool0 ==> w.before[j] == pool0[w.inputs[j]])
  }

  /** The inputs the wake-up report ran that are not the door channel's own hold the view its fold gave them. */
  ghost predicate WokenKept(o: DryContactOutcome, ctx: LordContext.Context, nowMs: int, wallClock: int, localHour: int, moving: bool)
    requires o.Ran? && o.woken.Some?
    reads WokenInputs(o)
  {
    var w := o.woken.value;
    w.Ran? && |w.before| == |w.inputs| ==>
      var end := WakeEnd(w, ctx, nowMs, wallClock, localHour, moving);
      forall j :: 0 <= j < |w.inputs| && w.inputs[j] !in o.inputs ==> ViewOf(w.inputs[j]) == end.0[j]
  }

  /**
   * A door contact's report: record the door movement, then hand the
   * wake-up report for the card-slot sensor, if there is one, to the
   * dry-contact handler; `woken` is what became of it.
   */
  method MoveDoor(state: byte, alive: bool, lord: Lord.LordManager,
                  rooms: RoomState.RoomStates, modes: ManagerBase.LordManager, board: Stm32Frames.Stm32Port,
                  nowMs: int, wallClock: int, localHour: int, spawned: bool, nested: bool)
    returns (wake: Option<byte>, woken: Option<DryContactOutcome>)
    requires lord.Valid()
    modifies board, lord.ctx`heartbeatCode, lord.ctx`anyKeyAid, lord.ctx`lastPresenceTime
    modifies lord.ctx`doorOpen, lord.ctx`lastDoorOpenTime, lord.ctx`lastDoorCloseTime, modes`currMode
    modifies lord.channelInputs.Values, lord.actionGroups.Values, InputScenes(lord)
    decreases if nested then 0 else 1, 0
    ensures board.sent == old(board.sent)
    ensures unchanged(lord) && CurtainsMoving(lord) == old(CurtainsMoving(lord))
    ensures state != 0 ==> lord.ctx.lastDoorCloseTime == nowMs && (wake.None? ==> !lord.ctx.doorOpen)
    ensures state == 0 ==>
      lord.ctx.doorOpen && lord.ctx.lastDoorOpenTime == nowMs && lord.ctx.lastDoorCloseTime == old(lord.ctx.lastDoorCloseTime)
    ensures wake.Some? ==>
      !nested && exists i :: i in lord.channelInputs.Values && InfraredAliveChannel(lord, i) && i.channel == wake.value
    ensures !nested && AliveIsInfrared(lord) ==> wake.Some?
    ensures wake.Some? <==> woken.Some?
    ensures wake.Some? ==> WokeAsReported(woken.value, wake.value, alive, lord, rooms, nowMs)
    ensures forall i :: i in lord.channelInputs.Values ==> i in old(PoolViews(lord))
    ensures wake.Some? && woken.value.Ran? ==> var w := woken.value;
      && w.ctxBefore == old(CtxView(lord.ctx))
      && (forall j :: 0 <= j < |w.inputs| && w.inputs[j] in old(PoolViews(lord)) ==> w.before[j] == old(PoolViews(lord))[w.inputs[j]])
      && RanAsReported(w, 0, nowMs, Cfgs(w.inputs, lord.ctx, wallClock, localHour), lord, old(CurtainsMoving(lord)))
    ensures wake.None? || !woken.value.Ran? ==>
      CtxView(lord.ctx) == old(CtxView(lord.ctx)) && forall i :: i in lord.channelInputs.Values ==> ViewOf(i) == old(PoolViews(lord))[i]
    ensures forall i :: i in lord.channelInputs.Values && wake != Some(i.channel) ==> ViewOf(i) == old(PoolViews(lord))[i]
  {
    InputObjectsApart(lord, rooms, board);
    ghost var pool := PoolViews(lord);
    wake := DoorChanged(lord, state, nowMs, nested);
    woken := None;
    if wake.Some? {
      var o := HandleDryContact(WakeupFrame(wake.value), false, alive, lord, rooms, modes, board, nowMs, wallClock, localHour, spawned, true);
      woken := Some(o);
    }
  }

  /**
   * `handle_response`: a relay report records the relay's state, a
   * dry-contact report is handled as above; dimming and version reports
   * are only logged, and so is any other command. The `0x09` case calls a
   * member the lord does not declare and is not part of this model.
   */
  method HandleResponse(frame: Stm32Frames.Frame, testMode: bool, alive: bool, lord: Lord.LordManager,
                        rooms: RoomState.RoomStates, modes: ManagerBase.LordManager, board: Stm32Frames.Stm32Port,
                        nowMs: int, wallClock: int, localHour: int, spawned: bool)
    returns (dry: Option<DryContactOutcome>)
    requires lord.Valid()
    modifies board, lord.ctx`heartbeatCode, lord.ctx`anyKeyAid, lord.ctx`lastPresenceTime, lord.ctx`relayPhysics
    modifies lord.ctx`doorOpen, lord.ctx`lastDoorOpenTime, lord.ctx`lastDoorCloseTime, modes`currMode
    modifies lord.channelInputs.Values, lord.actionGroups.Values, InputScenes(lord)
    ensures frame.cmdType == Stm32Frames.CMD_RELAY_QUERY ==>
      dry.None? && lord.ctx.relayPhysics == old(lord.ctx.relayPhysics)[frame.channel as int := frame.param1 != 0]
    ensures frame.cmdType == Stm32Frames.CMD_DRYCONTACT_INPUT ==>
      dry.Some? && lord.ctx.relayPhysics == old(lord.ctx.relayPhysics)
      && (dry.value.Echoed? <==> testMode)
    ensures frame.cmdType == Stm32Frames.CMD_DRYCONTACT_INPUT && testMode ==>
      board.sent == old(board.sent) + [Stm32Frames.Built(Stm32Frames.CMD_RELAY_CONTROL, 0, frame.channel, frame.param1, 0)]
      && unchanged(lord.ctx) && unchanged(lord.channelInputs.Values) && modes.currMode == old(modes.currMode)
    ensures frame.cmdType != Stm32Frames.CMD_DRYCONTACT_INPUT ==>
      dry.None? && board.sent == old(board.sent) && modes.currMode == old(modes.currMode)
      && unchanged(lord.channelInputs.Values)
    ensures frame.cmdType != Stm32Frames.CMD_RELAY_QUERY && frame.cmdType != Stm32Frames.CMD_DRYCONTACT_INPUT ==>
      unchanged(lord.ctx)
  {
    dry := None;
    if frame.cmdType == Stm32Frames.CMD_RELAY_QUERY {
      lord.ctx.UpdateRelayPhysicsState(frame.channel as int, frame.param1 as int);
    } else if frame.cmdType == Stm32Frames.CMD_DRYCONTACT_INPUT {
      var o := HandleDryContact(frame, testMode, alive, lord, rooms, modes, board, nowMs, wallClock, localHour, spawned, false);
      dry := Some(o);
    }
  }

  /** One byte of `stm32_receive_task`: feed it to the state machine and handle the frame it completes, if any. */
  method ServeByte(rx: Stm32Receiver, ghost r0: Reception, bytes: seq<byte>, i: nat, testMode: bool, alive: bool, lord: Lord.LordManager,
                   rooms: RoomState.RoomStates, modes: ManagerBase.LordManager, board: Stm32Frames.Stm32Port,
                   nowMs: int, wallClock: int, localHour: int, spawned: bool, ghost scenes: set<ActionGroups.ActionGroup>)
    returns (frame: Option<Stm32Frames.Frame>)
    requires lord.Valid()
    requires i < |bytes| && rx.Valid() && WellFormed(r0) && rx.State() == Final(r0, bytes[..i])
    requires scenes == InputScenes(lord)
    modifies rx, rx.buffer, board, lord.ctx, modes, lord.channelInputs.Values, lord.actionGroups.Values, scenes
    ensures scenes == InputScenes(lord)
    ensures rx.Valid()
    ensures rx.State() == Next(old(rx.State()), bytes[i]) && frame == Out(old(rx.State()), bytes[i])
    ensures rx.State() == Final(r0, bytes[..i + 1]) && Frames(r0, bytes[..i + 1]) == Frames(r0, bytes[..i]) + Handed(frame)
  {
    var b := bytes[i];
    assert bytes[..i] + [b] == bytes[..i + 1];
    RunSnoc(r0, bytes[..i], b);
    frame := rx.Feed(b);
    ghost var after := rx.State();
    if frame.Some? {
      var _ := HandleResponse(frame.value, testMode, alive, lord, rooms, modes, board, nowMs, wallClock, localHour, spawned);
    }
    assert rx.State() == after;
  }

  /**
   * `stm32_receive_task` over the bytes `bytes` read from the UART: each
   * frame the state machine hands on is handled as it completes.
   */
  method Serve(rx: Stm32Receiver, bytes: seq<byte>, testMode: bool, alive: bool, lord: Lord.LordManager,
               rooms: RoomState.RoomStates, modes: ManagerBase.LordManager, board: Stm32Frames.Stm32Port,
               nowMs: int, wallClock: int, localHour: int, spawned: bool)
    returns (handled: seq<Stm32Frames.Frame>)
    requires lord.Valid()
    requires rx.Valid()
    modifies rx, rx.buffer, board, lord.ctx, modes, lord.channelInputs.Values, lord.actionGroups.Values, InputScenes(lord)
    ensures rx.Valid()
    ensures rx.State() == Final(old(rx.State()), bytes) && handled == Frames(old(rx.State()), bytes)
  {
    handled := [];
    ghost var r0 := rx.State();
    ghost var scenes := InputScenes(lord);
    var i := 0;
    while i < |bytes|
      invariant 0 <= i <= |bytes| && rx.Valid()
      invariant rx.State() == Final(r0, bytes[..i]) && handled == Frames(r0, bytes[..i])
      invariant lord.channelInputs == old(lord.channelInputs) && lord.actionGroups == old(lord.actionGroups)
      invariant scenes == InputScenes(lord) && lord.Valid()
    {
      var frame := ServeByte(rx, r0, bytes, i, testMode, alive, lord, rooms, modes, board, nowMs, wallClock, localHour, spawned, scenes);
      handled := handled + Handed(frame);
      i := i + 1;
    }
    assert bytes[..i] == bytes;
  }
}
