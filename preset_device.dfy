/**
 * Preset devices (preset_device.cpp, preset_device.h): pseudo-devices whose
 * operations, run as steps of a scene, act on the controller itself: the
 * heartbeat, the room states, delays, other scenes, the snapshot of which
 * devices are on, and single key backlights. Each `case` of
 * `PresetDevice::execute` is one method here; the device's type chooses
 * among them.
 */
module PresetDevice {
  import opened Wrappers
  import opened Bytes
  import Commons
  import DeviceBase
  import LordContext
  import ManagerBase
  import RoomState
  import ActionGroups
  import Indicator
  import PanelInput
  import Rs485Frames
  import Lamp
  import AirConditioner
  import Lord
  import Inputs

  // ------------------------------------------------------------ number parsing

  /**
   * `std::from_chars` into an `int`, over the whole parameter: an optional
   * '-', then at least one digit. Neither white space nor '+' is accepted,
   * and whatever follows the digits is ignored. `None` is an error code:
   * no digit, or a value outside `int`.
   */
  function FromChars(s: string): (r: Option<int>)
    ensures r.Some? ==> Commons.INT_MIN <= r.value <= Commons.INT_MAX
    ensures r.Some? ==> |s| > 0 && (s[0] == '-' || '0' <= s[0] <= '9')
  {
    if |s| > 0 && s[0] == '+' then None
    else
      match Commons.ScanSigned(s)
      case Some((v, _)) => Some(v)
      case None => None
  }

  /** `std::from_chars` reads back every `int` it is given in decimal, whatever non-digit text follows. */
  lemma FromCharsReadsSpelled(n: int, rest: string)
    requires Commons.INT_MIN <= n <= Commons.INT_MAX
    requires |rest| == 0 || !('0' <= rest[0] <= '9')
    ensures FromChars(Commons.Spelled(n) + rest) == Some(n)
  {
    var m: nat := if n < 0 then -n else n;
    Commons.DecimalValueOfDecimal(m);
    if n < 0 {
      FromCharsReadsNegative(Commons.Spelled(n) + rest, Commons.Decimal(m), rest);
    } else {
      FromCharsReadsDigits(Commons.Decimal(m), rest);
    }
  }

  lemma FromCharsReadsDigits(d: string, rest: string)
    requires |d| > 0 && Commons.AllDigits(d) && Commons.DecimalValue(d) <= Commons.INT_MAX
    requires |rest| == 0 || !('0' <= rest[0] <= '9')
    ensures FromChars(d + rest) == Some(Commons.DecimalValue(d) as int)
  {
    assert (d + rest)[0] == d[0];
    Commons.ScanSignedReadsDigits(d, rest);
  }

  lemma FromCharsReadsNegative(s: string, d: string, rest: string)
    requires |d| > 0 && Commons.AllDigits(d) && Commons.DecimalValue(d) <= -Commons.INT_MIN
    requires |rest| == 0 || !('0' <= rest[0] <= '9')
    requires s == "-" + d + rest
    ensures FromChars(s) == Some(-(Commons.DecimalValue(d) as int))
  {
    assert s[0] == '-' && s[1..] == d + rest;
    Commons.ScanSignedReadsNegative(s, d, rest);
  }

  /** Unlike `std::stoi`, `std::from_chars` rejects leading white space and a '+' sign. */
  lemma FromCharsIsStricterThanStoi()
    ensures FromChars(" 5") == None && FromChars("+5") == None && FromChars("") == None
    ensures AirConditioner.Stoi(" 5") == Some(5)
  {
    assert Commons.DigitRun(" 5") == 0;
    assert Commons.DigitRun("+5") == 0;
    assert Commons.SpaceRun("5") == 0;
    assert Commons.SpaceRun(" 5") == 1;
    assert " 5"[1..] == "5";
    assert Commons.DigitRun("5"[1..]) == 0;
    assert "5"[..1] == "5" && "5"[..0] == "";
  }

  /** `sscanf(parameter, "%d,%d", &pid, &bid) == 2`: a number, a comma straight after it, a number. */
  function ScanPair(s: string): Option<(int, int)>
  {
    match Commons.ScanInt(s)
    case None => None
    case Some((a, k)) =>
      if k < |s| && s[k] == ',' then
        match Commons.ScanInt(s[k + 1..])
        case None => None
        case Some((b, _)) => Some((a, b))
      else None
  }

  /** `%d` reads a decimal number and stops at the first non-digit. */
  lemma ScanIntReadsDecimal(n: nat, rest: string)
    requires n <= Commons.INT_MAX
    requires |rest| == 0 || !('0' <= rest[0] <= '9')
    ensures Commons.ScanInt(Commons.Decimal(n) + rest) == Some((n, |Commons.Decimal(n)|))
  {
    var d := Commons.Decimal(n);
    assert (d + rest)[0] == d[0];
    assert Commons.SpaceRun(d + rest) == 0;
    assert (d + rest)[0..] == d + rest;
    Commons.DecimalValueOfDecimal(n);
    Commons.ScanSignedReadsDigits(d, rest);
  }

  /** The indicator parameter "pid,bid" is read back as the two numbers. */
  lemma ScanPairReadsPair(p: nat, b: nat)
    requires p <= Commons.INT_MAX && b <= Commons.INT_MAX
    ensures ScanPair(Commons.Decimal(p) + "," + Commons.Decimal(b)) == Some((p, b))
  {
    var s := Commons.Decimal(p) + "," + Commons.Decimal(b);
    ScanIntReadsDecimal(p, "," + Commons.Decimal(b));
    assert s == Commons.Decimal(p) + ("," + Commons.Decimal(b));
    var k := |Commons.Decimal(p)|;
    assert s[k] == ',';
    assert s[k + 1..] == Commons.Decimal(b) + "";
    ScanIntReadsDecimal(b, "");
  }

  /** A blank before the comma is not skipped: the literal ',' must follow the first number directly. */
  lemma ScanPairNeedsAdjacentComma(p: nat, b: nat)
    requires p <= Commons.INT_MAX && b <= Commons.INT_MAX
    ensures ScanPair(Commons.Decimal(p) + " ," + Commons.Decimal(b)) == None
  {
    var s := Commons.Decimal(p) + " ," + Commons.Decimal(b);
    ScanIntReadsDecimal(p, " ," + Commons.Decimal(b));
    assert s == Commons.Decimal(p) + (" ," + Commons.Decimal(b));
    assert s[|Commons.Decimal(p)|] == ' ';
  }

  // ------------------------------------------------------------ HEARTBEAT

  /** `ALL_TIME_SYNC`, the bus command that broadcasts the wall-clock time. */
  const ALL_TIME_SYNC: byte := 0x78

  /**
   * `(now >> 24) & 0xFF`, `(now >> 16) & 0xFF`, `(now >> 8) & 0xFF`,
   * `now & 0xFF`, each shift written as repeated shifts by eight.
   */
  function TimeBytes(now: nat): (b: seq<byte>)
    ensures |b| == 4
  {
    var q1 := now / 256;
    var q2 := q1 / 256;
    var q3 := q2 / 256;
    [LowByte(q3), LowByte(q2), LowByte(q1), LowByte(now)]
  }

  /** The number four bytes spell, most significant first. */
  function BigEndian(b: seq<byte>): nat
    requires |b| == 4
  {
    var b0: int, b1: int, b2: int, b3: int := b[0], b[1], b[2], b[3];
    ((b0 * 256 + b1) * 256 + b2) * 256 + b3
  }

  /** The broadcast carries the time modulo 2^32: the receiver reads back `now` until 2106. */
  lemma TimeBytesRoundTrip(now: nat)
    ensures BigEndian(TimeBytes(now)) == now % 0x1_0000_0000
  {
    var q1 := now / 256;
    var q2 := q1 / 256;
    var q3 := q2 / 256;
    var q4 := q3 / 256;
    var e := BigEndian(TimeBytes(now));
    assert e == ((LowByte(q3) * 256 + LowByte(q2)) * 256 + LowByte(q1)) * 256 + LowByte(now);
    assert now == q4 * 0x1_0000_0000 + e;
    Inputs.ModUnique(now, q4, e, 0x1_0000_0000);
  }

  /** The time broadcast sent on "插卡": one frame, and only once the clock is synchronised. */
  function TimeSync(wallClock: int): seq<seq<byte>>
  {
    var now := Commons.GetCurrentTimestamp(wallClock);
    if now == 0 then []
    else
      var b := TimeBytes(now);
      [Rs485Frames.ResponseFrame(ALL_TIME_SYNC, b[0], b[1], b[2], b[3])]
  }

  /** With a synchronised clock, the one frame sent carries the time in bytes 2..5 and passes the checksum test. */
  lemma TimeSyncCarriesTheClock(wallClock: int)
    requires wallClock >= Commons.SYNCED_EPOCH
    ensures |TimeSync(wallClock)| == 1
    ensures var f := TimeSync(wallClock)[0];
      f[1] == ALL_TIME_SYNC && BigEndian(f[2..6]) == wallClock % 0x1_0000_0000 && Rs485Frames.ChecksumOk(f)
  {
    var f := TimeSync(wallClock)[0];
    assert f[2..6] == f[1..6][1..];
    assert f[2..6] == TimeBytes(wallClock);
    TimeBytesRoundTrip(wallClock);
  }

  /**
   * The heartbeat case: "睡眠" and "拔卡" switch to the sleep heartbeat,
   * "插卡" to the alive heartbeat followed by the time broadcast; every
   * other operation does nothing.
   */
  method Heartbeat(operation: string, wallClock: int, ctx: LordContext.Context, port: Rs485Frames.Rs485Port)
    modifies ctx`heartbeatCode, port
    ensures operation == "睡眠" || operation == "拔卡" ==>
      ctx.heartbeatCode == LordContext.SLEEP_BYTES && port.queue == old(port.queue)
    ensures operation == "插卡" ==>
      ctx.heartbeatCode == LordContext.ALIVE_BYTES && port.queue == old(port.queue) + TimeSync(wallClock)
    ensures operation != "睡眠" && operation != "拔卡" && operation != "插卡" ==>
      ctx.heartbeatCode == old(ctx.heartbeatCode) && port.queue == old(port.queue)
  {
    if operation == "睡眠" {
      ctx.UseSleepHeartBeat();
    } else if operation == "拔卡" {
      ctx.UseSleepHeartBeat();
    } else if operation == "插卡" {
      ctx.UseAliveHeartBeat();
      var now := Commons.GetCurrentTimestamp(wallClock);
      if now != 0 {
        var b := TimeBytes(now);
        port.GenerateResponse(ALL_TIME_SYNC, b[0], b[1], b[2], b[3]);
      }
    }
  }

  // ------------------------------------------------------------ ROOM_STATE

  /**
   * The room-state case. `report` is whether the states are published at
   * once (an added "SOS"); `stopped` is whether the scene running this step
   * was stopped because the state is present.
   */
  method RoomStateOp(operation: string, parameter: string, rooms: RoomState.RoomStates,
                     self: Option<ActionGroups.ActionGroup>, holder: Indicator.IndicatorHolder)
    returns (report: bool, stopped: bool)
    requires rooms.Valid() && holder.Valid()
    modifies rooms, holder, if self.Some? then {self.value} else {}
    ensures rooms.Valid() && holder.Valid()
    ensures report <==> operation == "添加" && parameter == "SOS"
    ensures operation == "添加" ==> rooms.states == RoomState.Added(old(rooms.states), parameter)
    ensures operation == "删除" ==> rooms.states == RoomState.Removed(old(rooms.states), parameter)
    ensures operation == "反转" ==> rooms.states == RoomState.Toggled(old(rooms.states), parameter)
    ensures operation != "添加" && operation != "删除" && operation != "反转" ==> rooms.states == old(rooms.states)
    ensures stopped <==> operation == "如果存在此状态则跳出" && parameter in old(rooms.states) && self.Some?
    ensures stopped ==> !self.value.running && holder.functions == [] && holder.registeredPanels == {}
    ensures !stopped ==> holder.Contents() == old(holder.Contents())
    ensures !stopped && self.Some? ==> self.value.running == old(self.value.running)
  {
    report, stopped := false, false;
    if operation == "添加" {
      rooms.AddState(parameter);
      report := parameter == "SOS";
    } else if operation == "删除" {
      var _ := rooms.RemoveState(parameter);
    } else if operation == "反转" {
      rooms.ToggleState(parameter);
    } else if operation == "如果存在此状态则跳出" {
      var present := rooms.ExistState(parameter);
      if present {
        match self {
          case Some(group) =>
            var _ := group.Suicide(holder);
            stopped := true;
          case None =>
        }
      }
    }
  }

  // ------------------------------------------------------------ DELAYER

  /**
   * The wait a "延时" step asks for, in milliseconds: a non-negative whole
   * number of seconds. `delay * 1000` is an `int` product handed on as a
   * `uint32_t`, so the wait is the product modulo 2^32.
   */
  function DelayMs(parameter: string): Option<int>
  {
    match FromChars(parameter)
    case Some(d) => if d >= 0 then Some((d * 1000) % 0x1_0000_0000) else None
    case None => None
  }

  /**
   * A delay of d seconds, spelled in decimal, waits d * 1000 ms modulo
   * 2^32: exactly d seconds up to 4294967 s, and less than asked above.
   */
  lemma DelayReadsSeconds(d: nat, rest: string)
    requires d <= Commons.INT_MAX
    requires |rest| == 0 || !('0' <= rest[0] <= '9')
    ensures DelayMs(Commons.Decimal(d) + rest) == Some((d * 1000) % 0x1_0000_0000)
    ensures d <= 4294967 ==> DelayMs(Commons.Decimal(d) + rest) == Some(d * 1000)
    ensures d > 4294967 ==> DelayMs(Commons.Decimal(d) + rest).value < d * 1000
  {
    FromCharsReadsSpelled(d, rest);
    assert Commons.Spelled(d) == Commons.Decimal(d);
    WrappedWait(d * 1000);
  }

  /** A product below 2^32 is kept, and a larger one shrinks. */
  lemma WrappedWait(ms: nat)
    ensures ms < 0x1_0000_0000 ==> ms % 0x1_0000_0000 == ms
    ensures ms >= 0x1_0000_0000 ==> ms % 0x1_0000_0000 < ms
  {
  }

  /** "5" waits five seconds, "5秒" too; " 5", "-5" and "五" wait nothing. */
  lemma DelayParameters()
    ensures DelayMs(Commons.Decimal(5)) == Some(5000) && DelayMs(Commons.Decimal(5) + "秒") == Some(5000)
    ensures DelayMs(" 5") == None && DelayMs("-5") == None && DelayMs("五") == None
  {
    FromCharsReadsSpelled(5, "");
    assert Commons.Decimal(5) + "" == Commons.Decimal(5);
    FromCharsReadsSpelled(5, "秒");
    FromCharsReadsSpelled(-5, "");
    assert Commons.Spelled(-5) + "" == "-5";
    assert FromChars(" 5") == None by { assert Commons.DigitRun(" 5") == 0; }
    assert FromChars("五") == None by { assert Commons.DigitRun("五") == 0; }
  }

  /**
   * The delayer case: for a valid delay, flush the queued backlight
   * updates first and return the wait (`waitMs`); the wait itself, and its
   * cancellation, belong to the scene's task. An invalid delay is only
   * logged.
   */
  method Delayer(operation: string, parameter: string, holder: Indicator.IndicatorHolder)
    returns (waitMs: Option<int>, flushed: seq<Indicator.Publish>)
    requires holder.Valid()
    modifies holder
    ensures holder.Valid()
    ensures waitMs == if operation == "延时" then DelayMs(parameter) else None
    ensures waitMs.Some? ==> flushed == old(holder.functions) && holder.functions == [] && holder.registeredPanels == {}
    ensures waitMs.None? ==> flushed == [] && holder.Contents() == old(holder.Contents())
  {
    waitMs, flushed := None, [];
    if operation == "延时" {
      var delay := FromChars(parameter);
      if delay.None? || delay.value < 0 {
        return;
      }
      flushed := holder.CallAllAndClear();
      waitMs := Some((delay.value * 1000) % 0x1_0000_0000);
    }
  }

  // ------------------------------------------------------------ ACTION_GROUP_OP

  /** The scene id an action-group step names, if the parameter is a valid non-negative number. */
  function TargetAid(parameter: string): Option<int>
  {
    match FromChars(parameter)
    case Some(id) => if id >= 0 then Some(id) else None
    case None => None
  }

  /** The scene a "调用" or "中断" step acts on, when it is registered. */
  function Target(parameter: string, groups: map<int, ActionGroups.ActionGroup>): set<ActionGroups.ActionGroup>
  {
    match TargetAid(parameter)
    case Some(id) => if id in groups then {groups[id]} else {}
    case None => {}
  }

  /**
   * The action-group case: "调用" runs the scene, "中断" stops it, and the
   * other two arm or disarm it as the "any key" scene. An invalid id, an
   * unregistered scene or another operation does nothing.
   */
  method ActionGroupOp(operation: string, parameter: string, groups: map<int, ActionGroups.ActionGroup>,
                       ctx: LordContext.Context, modes: ManagerBase.LordManager, spawned: bool,
                       holder: Indicator.IndicatorHolder)
    returns (flushed: seq<Indicator.Publish>)
    requires holder.Valid()
    modifies ctx`anyKeyAid, modes`currMode, holder, Target(parameter, groups)
    ensures holder.Valid()
    ensures TargetAid(parameter).Some? && operation == "生成任意键执行" ==> ctx.anyKeyAid == Some(TargetAid(parameter).value)
    ensures TargetAid(parameter).Some? && operation == "删除任意键执行" ==> ctx.anyKeyAid == None
    ensures TargetAid(parameter).None? || (operation != "生成任意键执行" && operation != "删除任意键执行") ==>
      ctx.anyKeyAid == old(ctx.anyKeyAid)
    ensures operation == "调用" && Target(parameter, groups) != {} ==>
      var g := groups[TargetAid(parameter).value];
      g.State(modes) == ActionGroups.Requested(old(g.State(modes)), "", spawned)
    ensures !(operation == "调用" && Target(parameter, groups) != {}) ==> modes.currMode == old(modes.currMode)
    ensures operation == "中断" && Target(parameter, groups) != {} ==>
      !groups[TargetAid(parameter).value].running && flushed == old(holder.functions)
      && holder.functions == [] && holder.registeredPanels == {}
    ensures !(operation == "中断" && Target(parameter, groups) != {}) ==> flushed == [] && holder.Contents() == old(holder.Contents())
  {
    flushed := [];
    var id := FromChars(parameter);
    if id.None? || id.value < 0 {
      return;
    }
    if operation == "调用" {
      match ManagerBase.Lookup(groups, id.value) {
        case Some(g) => g.ExecuteAllAtomicAction("", modes, spawned);
        case None =>
      }
    } else if operation == "中断" {
      match ManagerBase.Lookup(groups, id.value) {
        case Some(g) => flushed := g.Suicide(holder);
        case None =>
      }
    } else if operation == "生成任意键执行" {
      ctx.SetAnyKeyActionGroup(id.value);
    } else if operation == "删除任意键执行" {
      ctx.ClearAnyKeyActionGroup();
    }
  }

  // ------------------------------------------------------------ SNAPSHOT

  /**
   * The operation "读取并删除快照" sends a device recorded as `on`, as
   * written: "开"/"关" to every kind it restores (a relay output is never a
   * doorbell, so that check passes). Preset, RS485 and other devices get
   * nothing.
   */
  function RestoreOperationAsWritten(t: DeviceBase.DeviceType, on: bool): Option<string>
  {
    if t in {DeviceBase.Lamp, DeviceBase.Curtain, DeviceBase.InfraredAir, DeviceBase.SingleAir, DeviceBase.DryContact, DeviceBase.Relay}
    then Some(if on then "开" else "关")
    else None
  }

  /** The restore operation a lamp understands: "打开"/"关闭" for lamps, as written for the rest. */
  function RestoreOperation(t: DeviceBase.DeviceType, on: bool): Option<string>
  {
    if t == DeviceBase.Lamp then Some(if on then "打开" else "关闭")
    else RestoreOperationAsWritten(t, on)
  }

  /**
   * How the restore spells its operations: as written, "开"/"关" for every
   * kind (preset_device.cpp:137); corrected, with lamps given the words
   * `Lamp::execute` accepts.
   */
  datatype Spelling = AsWritten | LampWords

  /** The operation a device recorded as `on` is sent under the spelling. */
  function RestoreOperationBy(spelling: Spelling, t: DeviceBase.DeviceType, on: bool): Option<string>
  {
    if spelling == AsWritten then RestoreOperationAsWritten(t, on) else RestoreOperation(t, on)
  }

  /** The operation sent to each recorded device still registered. */
  function Restoration(spelling: Spelling, taken: map<int, bool>, devices: map<int, Lord.Device>): map<int, string>
  {
    map k | k in taken && k in devices && RestoreOperationBy(spelling, Lord.TypeOf(devices[k]), taken[k]).Some? ::
      RestoreOperationBy(spelling, Lord.TypeOf(devices[k]), taken[k]).value
  }

  /** Handing one more recorded device to the restore adds at most its own operation. */
  lemma RestorationAddsOne(spelling: Spelling, taken: map<int, bool>, devices: map<int, Lord.Device>, rest: set<int>, k: int)
    requires k in rest && rest <= taken.Keys
    ensures var before, after := Restoration(spelling, taken - rest, devices), Restoration(spelling, taken - (rest - {k}), devices);
      if k in devices && RestoreOperationBy(spelling, Lord.TypeOf(devices[k]), taken[k]).Some?
      then after == before[k := RestoreOperationBy(spelling, Lord.TypeOf(devices[k]), taken[k]).value]
      else after == before
  {
    assert taken - (rest - {k}) == (taken - rest)[k := taken[k]];
  }

  /** As written, a recorded lamp is sent an operation `Lamp::execute` ignores, whatever it was recorded as. */
  lemma RestoreIgnoresLampsAsWritten(taken: map<int, bool>, devices: map<int, Lord.Device>, did: int, currentOn: bool)
    requires did in taken && did in devices && devices[did].LampDevice?
    ensures did in Restoration(AsWritten, taken, devices)
    ensures Lamp.LampTarget(Restoration(AsWritten, taken, devices)[did], currentOn) == None
  {
  }

  /**
   * The restore puts every registered device back as recorded: a lamp
   * switches to its recorded state, a curtain opens or closes, and an air
   * conditioner powers on with its defaults or powers off.
   */
  lemma RestoreSwitchesEveryDevice(taken: map<int, bool>, devices: map<int, Lord.Device>, did: int, currentOn: bool,
                                   parameter: string, s: AirConditioner.Settings, cfg: AirConditioner.AcConfig)
    requires did in taken && did in devices
    ensures did in Restoration(LampWords, taken, devices)
    ensures var op := Restoration(LampWords, taken, devices)[did];
      && (devices[did].LampDevice? ==> Lamp.LampTarget(op, currentOn) == Some(taken[did]))
      && (devices[did].CurtainDevice? ==> op == if taken[did] then "开" else "关")
      && (devices[did].InfraredAirDevice? || devices[did].SingleAirDevice? ==>
            (AirConditioner.IsOff(op) <==> !taken[did])
            && (taken[did] ==> AirConditioner.Operated(op, parameter, s, cfg) == Some(AirConditioner.Settings(cfg.defaultMode, cfg.defaultFanSpeed, cfg.defaultTargetTemp))))
  {
  }

  /** The corrected restore differs from the code as written only for lamps. */
  lemma RestorationDiffersOnlyForLamps(taken: map<int, bool>, devices: map<int, Lord.Device>, did: int)
    requires did in taken && did in devices && !devices[did].LampDevice?
    ensures did in Restoration(LampWords, taken, devices) && did in Restoration(AsWritten, taken, devices)
    ensures Restoration(LampWords, taken, devices)[did] == Restoration(AsWritten, taken, devices)[did]
  {
  }

  /** `all_device_onoff_snapshot`: the on/off state of each device, by device id. */
  class Snapshot {
    /** The restore's spelling: `AsWritten` is the firmware. */
    const spelling: Spelling
    var taken: map<int, bool>

    constructor (spelling: Spelling)
      ensures taken == map[] && this.spelling == spelling
    {
      this.spelling := spelling;
      taken := map[];
    }

    /**
     * "记录快照": record whether every registered device is on (preset
     * devices are skipped, and none is ever registered). Earlier records of
     * other devices stay.
     */
    method Record(devices: map<int, Lord.Device>, ctx: LordContext.Context)
      requires forall k :: k in devices ==> Lord.DidOf(devices[k]) == k
      modifies this
      ensures taken.Keys == old(taken).Keys + devices.Keys
      ensures forall k :: k in devices ==> taken[k] == old(Lord.IsOn(devices[k], ctx))
      ensures forall k :: k in old(taken) && k !in devices ==> taken[k] == old(taken)[k]
    {
      var isDevice := d => Lord.IsA(d, Lord.IDeviceClass);
      var devs, keys := ManagerBase.CollectMatching(devices, isDevice);
      var i := 0;
      ghost var seen: set<int> := {};
      while i < |devs|
        invariant 0 <= i <= |devs|
        invariant forall j :: 0 <= j < i ==> keys[j] in seen
        invariant seen <= devices.Keys
        invariant taken.Keys == old(taken).Keys + seen
        invariant forall k :: k in seen ==> taken[k] == old(Lord.IsOn(devices[k], ctx))
        invariant forall k :: k in old(taken) && k !in seen ==> taken[k] == old(taken)[k]
      {
        ghost var k := keys[i];
        assert devs[i] == devices[k] && Lord.DidOf(devs[i]) == k;
        if !Lord.IsA(devs[i], Lord.PresetDeviceClass) {
          Take(devs[i], ctx);
        } else {
          assert false;
        }
        seen := seen + {k};
        i := i + 1;
      }
      assert forall k :: k in devices ==> k in ManagerBase.MatchingKeys(devices, isDevice);
    }

    /** One pass of the record loop. */
    method Take(d: Lord.Device, ctx: LordContext.Context)
      modifies this
      ensures taken == old(taken)[Lord.DidOf(d) := Lord.IsOn(d, ctx)]
    {
      taken := taken[Lord.DidOf(d) := Lord.IsOn(d, ctx)];
    }

    /**
     * "读取并删除快照": the operation sent to each recorded device still
     * registered (`commands`, by device id; the source sends them in the
     * map's unspecified order), then an empty snapshot.
     */
    method ReadAndClear(devices: map<int, Lord.Device>) returns (commands: map<int, string>)
      modifies this
      ensures commands == Restoration(spelling, old(taken), devices)
      ensures taken == map[]
    {
      commands := map[];
      var recorded := taken;
      var rest := recorded.Keys;
      while rest != {}
        invariant rest <= recorded.Keys
        invariant commands == Restoration(spelling, recorded - rest, devices)
        decreases rest
      {
        var k := ManagerBase.Choose(rest);
        RestorationAddsOne(spelling, recorded, devices, rest, k);
        match ManagerBase.Lookup(devices, k) {
          case Some(d) =>
            match RestoreOperationBy(spelling, Lord.TypeOf(d), recorded[k]) {
              case Some(op) => commands := commands[k := op];
              case None =>
            }
          case None =>
        }
        rest := rest - {k};
      }
      assert recorded - {} == recorded;
      taken := map[];
    }

    /** "删除快照". */
    method Clear()
      modifies this
      ensures taken == map[]
    {
      taken := map[];
    }

    /** "清除快照并跳出": clear, then stop the scene running this step, if there is one. */
    method ClearAndStop(self: Option<ActionGroups.ActionGroup>, holder: Indicator.IndicatorHolder)
      returns (flushed: seq<Indicator.Publish>)
      requires holder.Valid()
      modifies this, holder, if self.Some? then {self.value} else {}
      ensures taken == map[] && holder.Valid()
      ensures self.Some? ==> !self.value.running && flushed == old(holder.functions) && holder.functions == [] && holder.registeredPanels == {}
      ensures self.None? ==> flushed == [] && holder.Contents() == old(holder.Contents())
    {
      taken := map[];
      flushed := [];
      match self {
        case Some(group) => flushed := group.Suicide(holder);
        case None =>
      }
    }
  }

  // ------------------------------------------------------------ INDICATOR

  /**
   * The key an indicator step lights ("亮") or darkens ("灭"): the panel and
   * key ids "pid,bid" converted to `uint8_t`, which keeps them modulo 256.
   */
  function IndicatorTarget(operation: string, parameter: string): Option<(byte, byte, bool)>
  {
    match ScanPair(parameter)
    case Some((p, b)) =>
      if operation == "亮" || operation == "灭" then Some((LowByte(p), LowByte(b), operation == "亮")) else None
    case None => None
  }

  /** "亮" on "pid,bid" addresses panel pid and key bid as given, for ids that fit in a byte. */
  lemma IndicatorAddressesTheKey(p: byte, b: byte)
    ensures IndicatorTarget("亮", Commons.Decimal(p) + "," + Commons.Decimal(b)) == Some((p, b, true))
    ensures IndicatorTarget("灭", Commons.Decimal(p) + "," + Commons.Decimal(b)) == Some((p, b, false))
  {
    IndicatorReadsPair(p, b);
  }

  /** A panel id of 256 or more wraps around: "257,1" addresses panel 1. */
  lemma IndicatorPanelIdWraps(p: nat, b: byte)
    requires p <= Commons.INT_MAX
    ensures IndicatorTarget("亮", Commons.Decimal(p) + "," + Commons.Decimal(b)) == Some((LowByte(p), b, true))
  {
    IndicatorReadsPair(p, b);
  }

  lemma IndicatorReadsPair(p: nat, b: nat)
    requires p <= Commons.INT_MAX && b <= Commons.INT_MAX
    ensures IndicatorTarget("亮", Commons.Decimal(p) + "," + Commons.Decimal(b)) == Some((LowByte(p), LowByte(b), true))
    ensures IndicatorTarget("灭", Commons.Decimal(p) + "," + Commons.Decimal(b)) == Some((LowByte(p), LowByte(b), false))
  {
    ScanPairReadsPair(p, b);
  }

  /**
   * The indicator case: set one key's backlight bit on its panel and queue
   * the panel's publication. A parameter that does not scan, an unknown
   * panel or key, and "亮1秒" change nothing here.
   */
  method IndicatorOp(operation: string, parameter: string, panels: map<byte, PanelInput.Panel>, holder: Indicator.IndicatorHolder)
    requires DeviceBase.PanelsValid(panels) && holder.Valid()
    modifies panels.Values`buttonBlStates, holder
    ensures DeviceBase.PanelsValid(panels) && holder.Valid()
    ensures match IndicatorTarget(operation, parameter)
      case Some((pid, bid, on)) =>
        if pid in panels && bid in panels[pid].buttonsMap then
          && panels[pid].buttonBlStates == WithBit(old(panels[pid].buttonBlStates), bid, on)
          && holder.Contents() == Indicator.Added(old(holder.Contents()), Indicator.PublishBacklight(pid), pid)
          && forall q :: q in panels && q != pid ==> panels[q].buttonBlStates == old(panels[q].buttonBlStates)
        else
          holder.Contents() == old(holder.Contents()) && forall q :: q in panels ==> panels[q].buttonBlStates == old(panels[q].buttonBlStates)
      case None =>
        holder.Contents() == old(holder.Contents()) && forall q :: q in panels ==> panels[q].buttonBlStates == old(panels[q].buttonBlStates)
  {
    var pair := ScanPair(parameter);
    if pair.None? {
      return;
    }
    var pid: byte, bid: byte := LowByte(pair.value.0), LowByte(pair.value.1);
    match ManagerBase.Lookup(panels, pid) {
      case Some(panel) =>
        if operation == "亮" {
          panel.UpdateButtonIndicator(bid, true, holder);
        } else if operation == "灭" {
          panel.UpdateButtonIndicator(bid, false, holder);
        }
      case None =>
    }
  }
}
