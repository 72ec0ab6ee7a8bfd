/**
 * The room's air conditioners (air_conditioner.cpp, air_conditioner.h).
 *
 * A single-pipe fan-coil unit drives one water valve and three fan relays
 * of the I/O board and regulates the room temperature with a hysteresis
 * band; an infrared unit only records the settings and reports them. Both
 * report their settings to the wall thermostat as one bus frame whose
 * state byte packs power, mode, fan speed and unit id, and whose
 * temperature byte packs target and room temperature as nibbles above 16.
 */
module AirConditioner {
  import opened Bytes
  import opened Wrappers
  import Commons
  import Stm32Frames
  import Rs485Frames

  /** `ACFanSpeed`. */
  datatype FanSpeed = Low | Medium | High | Auto

  /** `ACMode`. */
  datatype AcMode = Cooling | Heating | Fan

  /** `ACStopAction`: what is switched off when the room reaches its target. */
  datatype StopAction = CloseAll | CloseValve | CloseFan | CloseNone

  /**
   * The global air-conditioning settings. Two singletons hold them in the
   * firmware: the unit constructor reads the defaults from `AirConManager`,
   * and the operation bodies read `AirConGlobalConfig`. The model takes the
   * two to agree and keeps one value. The settings can change at run time,
   * so every operation takes them as an argument.
   */
  datatype AcConfig = AcConfig(defaultTargetTemp: byte, defaultMode: AcMode, defaultFanSpeed: FanSpeed,
                               stopThreshold: byte, reworkThreshold: byte, stopAction: StopAction,
                               removeCardAirUsable: bool, lowDiff: byte, highDiff: byte,
                               autoFanSpeed: FanSpeed, shutdownAfterFanSpeed: FanSpeed)

  /** The four board relays of a single-pipe unit. */
  datatype Channels = Channels(water1: byte, low: byte, mid: byte, high: byte)

  /** The user-settable part of a unit's state. */
  datatype Settings = Settings(mode: AcMode, fan: FanSpeed, target: byte)

  // ---------------------------------------------------------------- codecs

  /** `bitsToMode`: 0 cooling, 1 heating, 3 fan; anything else is taken as cooling. */
  function BitsToMode(bits: byte): AcMode
  {
    if bits == 0 then Cooling
    else if bits == 1 then Heating
    else if bits == 3 then Fan
    else Cooling
  }

  /** `modeToBits`: a two-bit code that `bitsToMode` reads back as the same mode. */
  function ModeToBits(m: AcMode): (bits: byte)
    ensures bits < 4 && bits != 2
    ensures BitsToMode(bits) == m
  {
    match m
    case Cooling => 0
    case Heating => 1
    case Fan => 3
  }

  /** `bitsToFanSpeed`: 0 low, 1 medium, 2 high, 3 auto; anything else is taken as low. */
  function BitsToFan(bits: byte): FanSpeed
  {
    if bits == 0 then Low
    else if bits == 1 then Medium
    else if bits == 2 then High
    else if bits == 3 then Auto
    else Low
  }

  /** `fanSpeedToBits`: a two-bit code that `bitsToFanSpeed` reads back as the same speed. */
  function FanToBits(f: FanSpeed): (bits: byte)
    ensures bits < 4
    ensures BitsToFan(bits) == f
  {
    match f
    case Low => 0
    case Medium => 1
    case High => 2
    case Auto => 3
  }

  /** The fan codec is a bijection between the four speeds and the two-bit codes 0..3. */
  lemma FanCodecIsBijective(bits: byte)
    requires bits < 4
    ensures FanToBits(BitsToFan(bits)) == bits
  {
  }

  /** The mode code 2 has no mode: it is read as cooling, which is sent back as 0. */
  lemma ModeBitsTwoReadAsCooling()
    ensures BitsToMode(2) == Cooling && ModeToBits(BitsToMode(2)) == 0
  {
  }

  /** What `update_state` reads out of the thermostat's two bytes. */
  datatype Report = Report(power: bool, modeBits: byte, fanBits: byte, target: byte, room: byte)

  /**
   * Power is bit 7 of `state`, the mode bits 6-5 and the fan bits 4-3; the
   * target temperature is the high nibble of `temps` plus 16 and the room
   * temperature the low nibble plus 16.
   */
  function Decode(state: byte, temps: byte): (r: Report)
    ensures r.modeBits < 4 && r.fanBits < 4
    ensures 16 <= r.target <= 31 && 16 <= r.room <= 31
  {
    Report(state / 128 % 2 == 1, state / 32 % 4, state / 8 % 4, temps / 16 % 16 + 16, temps % 16 + 16)
  }

  /**
   * The state byte of `sync_states`: running in bit 7, mode in bits 6-5,
   * fan in bits 4-3 and the low two bits of the unit id in bits 1-0. The
   * fields do not overlap, so the firmware's bitwise or is a sum.
   */
  function StateByte(running: bool, mode: AcMode, fan: FanSpeed, acId: byte): byte
  {
    (if running then 128 else 0) + ModeToBits(mode) * 32 + FanToBits(fan) * 8 + acId % 4
  }

  /**
   * The temperature byte of `sync_states`: `(t - 16) & 0x0F` of each
   * temperature, target in the high nibble. The subtraction is done on
   * `int`, so a temperature below 16 wraps modulo 16 as two's complement
   * does.
   */
  function TempsByte(target: byte, room: byte): byte
  {
    (target - 16) % 16 * 16 + (room - 16) % 16
  }

  /** The frame `sync_states` queues for the thermostat. */
  function SyncFrame(running: bool, s: Settings, room: byte, acId: byte): seq<byte>
  {
    Rs485Frames.ResponseFrame(Rs485Frames.AIR_CON, Rs485Frames.AIR_CON_CONTROL, 0x00,
                              StateByte(running, s.mode, s.fan, acId), TempsByte(s.target, room))
  }

  /** Euclidean division of `x` by `n` has quotient `q` and remainder `r`. */
  lemma DivMod(x: int, q: int, r: int, n: int)
    requires n > 0 && x == q * n + r && 0 <= r < n
    ensures x / n == q && x % n == r
  {
    var q', r' := x / n, x % n;
    assert x == q' * n + r';
    assert (q - q') * n == r' - r;
    if q > q' {
      AtLeastOnce(q - q', n);
    } else if q < q' {
      AtLeastOnce(q' - q, n);
    }
  }

  lemma AtLeastOnce(d: int, n: int)
    requires d >= 1 && n > 0
    ensures d * n >= n
  {
  }

  /**
   * The thermostat reads back what `sync_states` sends: for temperatures in
   * the thermostat's range 16..31, decoding the two bytes gives the same
   * power, mode, fan speed and temperatures, whatever the unit id.
   */
  lemma {:induction false} SyncDecodesBack(running: bool, mode: AcMode, fan: FanSpeed, acId: byte, target: byte, room: byte)
    requires 16 <= target <= 31 && 16 <= room <= 31
    ensures var r := Decode(StateByte(running, mode, fan, acId), TempsByte(target, room));
      && r.power == running && BitsToMode(r.modeBits) == mode && BitsToFan(r.fanBits) == fan
      && r.target == target && r.room == room
  {
    var p, m, f, a := if running then 1 else 0, ModeToBits(mode), FanToBits(fan), acId % 4;
    var state := StateByte(running, mode, fan, acId);
    assert state == p * 128 + (m * 32 + f * 8 + a);
    DivMod(state, p, m * 32 + f * 8 + a, 128);
    DivMod(p, 0, p, 2);
    assert state == (p * 4 + m) * 32 + (f * 8 + a);
    DivMod(state, p * 4 + m, f * 8 + a, 32);
    DivMod(p * 4 + m, p, m, 4);
    assert state == (p * 16 + m * 4 + f) * 8 + a;
    DivMod(state, p * 16 + m * 4 + f, a, 8);
    DivMod(p * 16 + m * 4 + f, p * 4 + m, f, 4);
    var hi, lo := target - 16, room - 16;
    DivMod(target - 16, 0, hi, 16);
    DivMod(room - 16, 0, lo, 16);
    var temps := TempsByte(target, room);
    assert temps == hi * 16 + lo;
    DivMod(temps, hi, lo, 16);
    DivMod(hi, 0, hi, 16);
  }

  /** A target of 32 does not fit the nibble: it is sent as 0 and read back as 16. */
  lemma TargetAboveRangeWraps(room: byte)
    requires 16 <= room <= 31
    ensures Decode(0, TempsByte(32, room)).target == 16
  {
    DivMod(room - 16, 0, room - 16, 16);
    DivMod(TempsByte(32, room), 0, room - 16, 16);
  }

  // ------------------------------------------------------------ operations

  /** "风量加大": one step up, stopping at high; auto is left alone. */
  function FanUp(f: FanSpeed): (r: FanSpeed)
    ensures f == Auto <==> r == Auto
    ensures f != Auto ==> Rank(r) == if Rank(f) < 2 then Rank(f) + 1 else 2
  {
    match f
    case Low => Medium
    case Medium => High
    case High => High
    case Auto => Auto
  }

  /** "风量减小": one step down, stopping at low; auto is left alone. */
  function FanDown(f: FanSpeed): (r: FanSpeed)
    ensures f == Auto <==> r == Auto
    ensures f != Auto ==> Rank(r) == if Rank(f) > 0 then Rank(f) - 1 else 0
  {
    match f
    case Low => Low
    case Medium => Low
    case High => Medium
    case Auto => Auto
  }

  /** The order of the three fixed speeds. */
  function Rank(f: FanSpeed): nat
  {
    match f
    case Low => 0
    case Medium => 1
    case High => 2
    case Auto => 3
  }

  /** Stepping down undoes stepping up below the top, and the other way round above the bottom. */
  lemma FanStepsUndo(f: FanSpeed)
    ensures f == Low || f == Medium ==> FanDown(FanUp(f)) == f
    ensures f == Medium || f == High ==> FanUp(FanDown(f)) == f
  {
  }

  /** Two steps up from any fixed speed reach high, two steps down reach low. */
  lemma FanStepsSaturate(f: FanSpeed)
    requires f != Auto
    ensures FanUp(FanUp(f)) == High && FanDown(FanDown(f)) == Low
  {
  }

  /** `std::max(16, std::min(t, 31))`. */
  function Clamp(t: int): (r: byte)
    ensures 16 <= r <= 31
    ensures 16 <= t <= 31 ==> r == t
    ensures t < 16 ==> r == 16
    ensures t > 31 ==> r == 31
  {
    if t < 16 then 16 else if t > 31 then 31 else t
  }

  /**
   * `std::stoi(parameter)`: optional white space and sign, then at least one
   * digit; the rest of the string is ignored. `None` is the exception it
   * throws: no digit (`invalid_argument`) or a value outside `int`
   * (`out_of_range`).
   */
  function Stoi(s: string): (r: Option<int>)
    ensures r.Some? ==> -0x8000_0000 <= r.value < 0x8000_0000
  {
    match Commons.ScanInt(s)
    case Some((v, _)) => Some(v)
    case None => None
  }

  /**
   * Every `int`, spelled in decimal after any white space and followed by
   * any text that does not start with a digit, is read as itself.
   */
  lemma StoiReadsSpelled(w: string, n: int, rest: string)
    requires forall i :: 0 <= i < |w| ==> Commons.IsSpace(w[i])
    requires Commons.INT_MIN <= n <= Commons.INT_MAX
    requires |rest| == 0 || !('0' <= rest[0] <= '9')
    ensures Stoi(w + Commons.Spelled(n) + rest) == Some(n)
  {
    var t := Commons.Spelled(n) + rest;
    Commons.ScanSignedReadsSpelled(n, rest);
    StoiSkipsSpace(w, t);
    assert w + Commons.Spelled(n) + rest == w + t;
  }

  /** White space before a number `std::stoi` reads is skipped. */
  lemma StoiSkipsSpace(w: string, t: string)
    requires forall i :: 0 <= i < |w| ==> Commons.IsSpace(w[i])
    requires |t| > 0 && !Commons.IsSpace(t[0]) && Commons.ScanSigned(t).Some?
    ensures Stoi(w + t) == Some(Commons.ScanSigned(t).value.0)
  {
    Commons.ScanIntSkipsSpace(w, t);
  }

  /** A parameter without digits is rejected. */
  lemma StoiRejectsText()
    ensures Stoi("") == None && Stoi("abc") == None
  {
    assert Commons.SpaceRun("abc") == 0;
    assert "abc"[0..] == "abc";
  }

  /**
   * What an operation other than "关"/"关闭" makes of the settings, shared
   * by both kinds of unit. `None` is an "调节温度" whose parameter
   * `std::stoi` rejects. An unknown operation changes nothing.
   */
  function Operated(operation: string, parameter: string, s: Settings, cfg: AcConfig): Option<Settings>
  {
    if operation == "开" || operation == "打开" then Some(Settings(cfg.defaultMode, cfg.defaultFanSpeed, cfg.defaultTargetTemp))
    else if operation == "制冷" then Some(s.(mode := Cooling))
    else if operation == "制热" then Some(s.(mode := Heating))
    else if operation == "通风" then Some(s.(mode := Fan))
    else if operation == "高风" then Some(s.(fan := High))
    else if operation == "中风" then Some(s.(fan := Medium))
    else if operation == "低风" then Some(s.(fan := Low))
    else if operation == "自动" then Some(s.(fan := Auto))
    else if operation == "风量加大" then Some(s.(fan := FanUp(s.fan)))
    else if operation == "风量减小" then Some(s.(fan := FanDown(s.fan)))
    else if operation == "温度升高" then Some(s.(target := if s.target < 31 then s.target + 1 else s.target))
    else if operation == "温度降低" then Some(s.(target := if s.target > 16 then s.target - 1 else s.target))
    else if operation == "调节温度" then
      match Stoi(parameter)
      case Some(t) => Some(s.(target := Clamp(t)))
      case None => None
    else Some(s)
  }

  predicate IsOff(operation: string)
  {
    operation == "关" || operation == "关闭"
  }

  /**
   * The target stays in the thermostat's range 16..31: the step operations
   * keep it there once it is there, "调节温度" puts it there from anywhere,
   * and "开" uses the configured default.
   */
  lemma OperatedKeepsTargetInRange(operation: string, parameter: string, s: Settings, cfg: AcConfig)
    requires 16 <= s.target <= 31 && 16 <= cfg.defaultTargetTemp <= 31
    ensures match Operated(operation, parameter, s, cfg)
      case Some(s') => 16 <= s'.target <= 31
      case None => operation == "调节温度" && Stoi(parameter).None?
  {
    if operation == "调节温度" {
    } else if operation == "温度升高" || operation == "温度降低" {
    } else {
      assert Operated(operation, parameter, s, cfg).Some?;
    }
  }

  /** "调节温度" with a number sets the target to that number clamped to 16..31, and touches nothing else. */
  lemma SetTemperatureClamps(parameter: string, s: Settings, cfg: AcConfig)
    requires Stoi(parameter).Some?
    ensures Operated("调节温度", parameter, s, cfg) == Some(s.(target := Clamp(Stoi(parameter).value)))
    ensures 16 <= Stoi(parameter).value <= 31 ==> Operated("调节温度", parameter, s, cfg).value.target == Stoi(parameter).value
  {
  }

  /** The temperature steps move the target by one inside 16..31 and stop at its ends. */
  lemma TemperatureSteps(s: Settings, cfg: AcConfig)
    requires 16 <= s.target <= 31
    ensures Operated("温度升高", "", s, cfg).value.target == if s.target < 31 then s.target + 1 else 31
    ensures Operated("温度降低", "", s, cfg).value.target == if s.target > 16 then s.target - 1 else 16
  {
  }

  // -------------------------------------------------------------- relays

  /** The frame `controlRelay(channel, on)` sends. */
  function RelayFrame(channel: byte, on: bool): Stm32Frames.Frame
  {
    Stm32Frames.Built(Stm32Frames.CMD_RELAY_CONTROL, 0x00, channel, if on then 1 else 0, 0x00)
  }

  /** What `f` does to relay `channel` of board 0: nothing, or switch it on or off. */
  function Switch(f: Stm32Frames.Frame, channel: byte): Option<bool>
  {
    if f.cmdType == Stm32Frames.CMD_RELAY_CONTROL && f.boardId == 0 && f.channel == channel then Some(f.param1 == 1) else None
  }

  /** What the last frame for `channel` in `frames` left the relay at, if any frame switched it. */
  function Setting(frames: seq<Stm32Frames.Frame>, channel: byte): Option<bool>
  {
    if |frames| == 0 then None
    else if Switch(frames[|frames| - 1], channel).Some? then Switch(frames[|frames| - 1], channel)
    else Setting(frames[..|frames| - 1], channel)
  }

  /** `Setting` of a frame list of up to three frames, read from the back. */
  lemma SettingOfThree(x: Stm32Frames.Frame, y: Stm32Frames.Frame, z: Stm32Frames.Frame, channel: byte)
    ensures Setting([x], channel) == Switch(x, channel)
    ensures Setting([x, y, z], channel) ==
      if Switch(z, channel).Some? then Switch(z, channel)
      else if Switch(y, channel).Some? then Switch(y, channel)
      else Switch(x, channel)
  {
    assert [x, y, z][..2] == [x, y];
    assert [x, y][..1] == [x];
    assert [x][..0] == [];
  }

  /** A relay frame switches its own channel and no other. */
  lemma RelayFrameSwitches(channel: byte, on: bool, other: byte)
    ensures Switch(RelayFrame(channel, on), other) == if other == channel then Some(on) else None
  {
  }

  /** The later frames win: a relay the suffix switches ends as the suffix left it. */
  lemma {:induction false} SettingAppend(a: seq<Stm32Frames.Frame>, b: seq<Stm32Frames.Frame>, channel: byte)
    ensures Setting(a + b, channel) == if Setting(b, channel).Some? then Setting(b, channel) else Setting(a, channel)
    decreases |b|
  {
    if |b| == 0 {
      assert a + b == a;
    } else {
      assert (a + b)[..|a + b| - 1] == a + b[..|b| - 1];
      SettingAppend(a, b[..|b| - 1], channel);
    }
  }

  /** The fan relay that runs speed `f`. */
  function FanChannel(f: FanSpeed, ch: Channels): byte
    requires f != Auto
  {
    match f
    case Low => ch.low
    case Medium => ch.mid
    case High => ch.high
  }

  /** The four relays are different relays. */
  predicate Distinct(ch: Channels)
  {
    && ch.water1 != ch.low && ch.water1 != ch.mid && ch.water1 != ch.high
    && ch.low != ch.mid && ch.low != ch.high && ch.mid != ch.high
  }

  /** `open_fan_relay(speed)`: low, mid, high in that order, only the one for `speed` on; nothing for auto. */
  function FanFrames(speed: FanSpeed, ch: Channels): seq<Stm32Frames.Frame>
  {
    match speed
    case Low => [RelayFrame(ch.low, true), RelayFrame(ch.mid, false), RelayFrame(ch.high, false)]
    case Medium => [RelayFrame(ch.low, false), RelayFrame(ch.mid, true), RelayFrame(ch.high, false)]
    case High => [RelayFrame(ch.low, false), RelayFrame(ch.mid, false), RelayFrame(ch.high, true)]
    case Auto => []
  }

  /** After `open_fan_relay` with a fixed speed, exactly the fan relay of that speed is on and the valve is not touched. */
  lemma OneFanRuns(speed: FanSpeed, ch: Channels)
    requires speed != Auto && Distinct(ch)
    ensures forall f :: f != Auto ==> Setting(FanFrames(speed, ch), FanChannel(f, ch)) == Some(f == speed)
    ensures Setting(FanFrames(speed, ch), ch.water1) == None
  {
    var frames := FanFrames(speed, ch);
    assert frames == [frames[0], frames[1], frames[2]];
    SettingOfThree(frames[0], frames[1], frames[2], ch.water1);
    SettingOfThree(frames[0], frames[1], frames[2], ch.low);
    SettingOfThree(frames[0], frames[1], frames[2], ch.mid);
    SettingOfThree(frames[0], frames[1], frames[2], ch.high);
  }

  /** `|a - b|` on the promoted `int` values. */
  function Abs(x: int): nat
  {
    if x < 0 then -x else x
  }

  /** The automatic speed for a temperature difference `diff`: low up to `low_diff`, high from `high_diff`, medium between. */
  function AutoSpeed(diff: nat, cfg: AcConfig): (f: FanSpeed)
    ensures f != Auto
    ensures f == Low <==> diff <= cfg.lowDiff
    ensures f == High <==> diff > cfg.lowDiff && diff >= cfg.highDiff
  {
    if diff <= cfg.lowDiff then Low else if diff >= cfg.highDiff then High else Medium
  }

  /** A larger temperature difference never gets a slower fan. */
  lemma AutoSpeedMonotone(d1: nat, d2: nat, cfg: AcConfig)
    requires d1 <= d2
    ensures Rank(AutoSpeed(d1, cfg)) <= Rank(AutoSpeed(d2, cfg))
  {
  }

  /**
   * The speed `adjust_fan_relay` opens: a fixed speed as set; auto in fan
   * mode is the configured speed, otherwise the automatic speed for the
   * distance between target and room.
   */
  function FanRelaySpeed(s: Settings, room: byte, cfg: AcConfig): (f: FanSpeed)
    ensures s.fan != Auto ==> f == s.fan
    ensures s.fan == Auto && s.mode == Fan ==> f == cfg.autoFanSpeed
    ensures s.fan == Auto && s.mode != Fan ==> f == AutoSpeed(Abs(s.target - room), cfg)
    ensures s.mode != Fan ==> f != Auto
  {
    if s.fan == Auto then
      if s.mode == Fan then cfg.autoFanSpeed else AutoSpeed(Abs(s.target - room), cfg)
    else s.fan
  }

  /** `stop_on_reached_target`: what each stop action switches off. */
  function StopFrames(action: StopAction, ch: Channels): seq<Stm32Frames.Frame>
  {
    match action
    case CloseAll => [RelayFrame(ch.low, false), RelayFrame(ch.mid, false), RelayFrame(ch.high, false), RelayFrame(ch.water1, false)]
    case CloseFan => [RelayFrame(ch.low, false), RelayFrame(ch.mid, false), RelayFrame(ch.high, false)]
    case CloseValve => [RelayFrame(ch.water1, false)]
    case CloseNone => []
  }

  /** The relay frames of one `adjust_relay_states` and whether the unit works afterwards. */
  datatype Regulation = Regulation(frames: seq<Stm32Frames.Frame>, working: bool)

  /**
   * `adjust_relay_states`. Cooling stops once the room is `stop_threshold`
   * below the target and starts again once it is `rework_threshold` above
   * it; heating stops once the room is `stop_threshold` above the target
   * and starts again once it is `stop_threshold` below it. Fan mode closes
   * the valve and sets the fan, leaving the working flag as it was.
   */
  function Regulated(s: Settings, working: bool, room: byte, cfg: AcConfig, ch: Channels): Regulation
  {
    var fan := FanFrames(FanRelaySpeed(s, room, cfg), ch);
    match s.mode
    case Cooling =>
      if working then
        if room <= s.target - cfg.stopThreshold then Regulation(StopFrames(cfg.stopAction, ch), false)
        else Regulation(fan, true)
      else if room >= s.target + cfg.reworkThreshold then Regulation([RelayFrame(ch.water1, true)] + fan, true)
      else Regulation([], false)
    case Heating =>
      if working then
        if room >= s.target + cfg.stopThreshold then Regulation(StopFrames(cfg.stopAction, ch), false)
        else Regulation(fan, true)
      else if room <= s.target - cfg.stopThreshold then Regulation([RelayFrame(ch.water1, true)] + fan, true)
      else Regulation([], false)
    case Fan => Regulation([RelayFrame(ch.water1, false)] + fan, working)
  }

  /**
   * Cooling hysteresis: at or above `target + rework_threshold` the unit
   * works, at or below `target - stop_threshold` it does not, and strictly
   * between the two it keeps doing what it did.
   */
  lemma CoolingHysteresis(s: Settings, working: bool, room: byte, cfg: AcConfig, ch: Channels)
    requires s.mode == Cooling
    ensures room >= s.target + cfg.reworkThreshold && room > s.target - cfg.stopThreshold ==> Regulated(s, working, room, cfg, ch).working
    ensures room <= s.target - cfg.stopThreshold && room < s.target + cfg.reworkThreshold ==> !Regulated(s, working, room, cfg, ch).working
    ensures s.target - cfg.stopThreshold < room < s.target + cfg.reworkThreshold ==> Regulated(s, working, room, cfg, ch).working == working
  {
  }

  /** Heating hysteresis: the band is `stop_threshold` wide on both sides of the target. */
  lemma HeatingHysteresis(s: Settings, working: bool, room: byte, cfg: AcConfig, ch: Channels)
    requires s.mode == Heating
    ensures room <= s.target - cfg.stopThreshold && room < s.target + cfg.stopThreshold ==> Regulated(s, working, room, cfg, ch).working
    ensures room >= s.target + cfg.stopThreshold && room > s.target - cfg.stopThreshold ==> !Regulated(s, working, room, cfg, ch).working
    ensures s.target - cfg.stopThreshold < room < s.target + cfg.stopThreshold ==> Regulated(s, working, room, cfg, ch).working == working
  {
  }

  /**
   * While a cooling or heating unit works after regulation, exactly one fan
   * relay is on, the one for `FanRelaySpeed`; a unit that has just started
   * has also opened its valve.
   */
  lemma {:induction false} WorkingRunsOneFan(s: Settings, working: bool, room: byte, cfg: AcConfig, ch: Channels)
    requires s.mode != Fan && Distinct(ch)
    requires Regulated(s, working, room, cfg, ch).working
    ensures var r := Regulated(s, working, room, cfg, ch);
      forall f :: f != Auto ==> Setting(r.frames, FanChannel(f, ch)) == Some(f == FanRelaySpeed(s, room, cfg))
    ensures !working ==> Setting(Regulated(s, working, room, cfg, ch).frames, ch.water1) == Some(true)
  {
    var speed := FanRelaySpeed(s, room, cfg);
    var fan := FanFrames(speed, ch);
    OneFanRuns(speed, ch);
    if !working {
      assert Regulated(s, working, room, cfg, ch).frames == [RelayFrame(ch.water1, true)] + fan;
      forall f | f != Auto
        ensures Setting([RelayFrame(ch.water1, true)] + fan, FanChannel(f, ch)) == Some(f == speed)
      {
        SettingAppend([RelayFrame(ch.water1, true)], fan, FanChannel(f, ch));
      }
      SettingAppend([RelayFrame(ch.water1, true)], fan, ch.water1);
      assert [RelayFrame(ch.water1, true)][..0] == [];
    }
  }

  /** When a unit stops with `CLOSE_ALL`, the valve and all three fans end off. */
  lemma CloseAllStopsEverything(ch: Channels)
    ensures Setting(StopFrames(CloseAll, ch), ch.water1) == Some(false)
    ensures forall f :: f != Auto ==> Setting(StopFrames(CloseAll, ch), FanChannel(f, ch)) == Some(false)
  {
    var fans := [RelayFrame(ch.low, false), RelayFrame(ch.mid, false), RelayFrame(ch.high, false)];
    var valve := [RelayFrame(ch.water1, false)];
    assert StopFrames(CloseAll, ch) == fans + valve;
    forall f | f != Auto
      ensures Setting(StopFrames(CloseAll, ch), FanChannel(f, ch)) == Some(false)
    {
      SettingAppend(fans, valve, FanChannel(f, ch));
      SettingOfThree(fans[0], fans[1], fans[2], FanChannel(f, ch));
      SettingOfThree(valve[0], valve[0], valve[0], FanChannel(f, ch));
    }
    SettingAppend(fans, valve, ch.water1);
    SettingOfThree(valve[0], valve[0], valve[0], ch.water1);
  }

  /** In fan mode the valve always ends closed, whatever the unit did before. */
  lemma {:induction false} FanModeClosesValve(s: Settings, working: bool, room: byte, cfg: AcConfig, ch: Channels)
    requires s.mode == Fan && Distinct(ch)
    ensures Setting(Regulated(s, working, room, cfg, ch).frames, ch.water1) == Some(false)
    ensures Regulated(s, working, room, cfg, ch).working == working
  {
    var speed := FanRelaySpeed(s, room, cfg);
    var fan := FanFrames(speed, ch);
    if speed != Auto {
      OneFanRuns(speed, ch);
    }
    SettingAppend([RelayFrame(ch.water1, false)], fan, ch.water1);
    assert [RelayFrame(ch.water1, false)][..0] == [];
  }

  /** `power_off`'s relay frames: the valve, then the fans as `shutdown_after_fan_speed` says (none for auto). */
  function PowerOffFrames(cfg: AcConfig, ch: Channels): seq<Stm32Frames.Frame>
  {
    [RelayFrame(ch.water1, false)] + FanFrames(cfg.shutdownAfterFanSpeed, ch)
  }

  /** The shutdown timer's frames: every fan off, medium first. */
  function ShutdownFrames(ch: Channels): seq<Stm32Frames.Frame>
  {
    [RelayFrame(ch.mid, false), RelayFrame(ch.high, false), RelayFrame(ch.low, false)]
  }

  /**
   * A unit switched off with a fixed `shutdown_after_fan_speed` closes its
   * valve and keeps just that fan running, and once the shutdown timer has
   * fired every fan is off.
   */
  lemma {:induction false} PowerOffThenShutdown(cfg: AcConfig, ch: Channels)
    requires cfg.shutdownAfterFanSpeed != Auto && Distinct(ch)
    ensures Setting(PowerOffFrames(cfg, ch), ch.water1) == Some(false)
    ensures forall f :: f != Auto ==> Setting(PowerOffFrames(cfg, ch), FanChannel(f, ch)) == Some(f == cfg.shutdownAfterFanSpeed)
    ensures forall f :: f != Auto ==> Setting(PowerOffFrames(cfg, ch) + ShutdownFrames(ch), FanChannel(f, ch)) == Some(false)
  {
    var valve := [RelayFrame(ch.water1, false)];
    var fan := FanFrames(cfg.shutdownAfterFanSpeed, ch);
    OneFanRuns(cfg.shutdownAfterFanSpeed, ch);
    SettingAppend(valve, fan, ch.water1);
    assert valve[..0] == [];
    forall f | f != Auto
      ensures Setting(PowerOffFrames(cfg, ch), FanChannel(f, ch)) == Some(f == cfg.shutdownAfterFanSpeed)
      ensures Setting(PowerOffFrames(cfg, ch) + ShutdownFrames(ch), FanChannel(f, ch)) == Some(false)
    {
      SettingAppend(valve, fan, FanChannel(f, ch));
      SettingAppend(PowerOffFrames(cfg, ch), ShutdownFrames(ch), FanChannel(f, ch));
      SettingOfThree(ShutdownFrames(ch)[0], ShutdownFrames(ch)[1], ShutdownFrames(ch)[2], FanChannel(f, ch));
    }
  }

  // ------------------------------------------------------------- the units

  /** `SinglePipeFCU`: a fan-coil unit on four board relays. */
  class SinglePipeFcu {
    /** `IDevice` keeps the id in a `uint8_t`: the low eight bits of the constructor's `uint16_t` argument. */
    const did: byte
    const name: string
    const carryState: string
    const acId: byte
    const ch: Channels
    var mode: AcMode
    var fanSpeed: FanSpeed
    var targetTemp: byte
    var roomTemp: byte
    var isRunning: bool
    var isWork: bool
    /** Whether the "shutdown after" timer is armed. */
    var shutdownTimerArmed: bool

    /** A new unit takes the configured defaults, is off, and has a room temperature of 26. */
    constructor (did: uint16, name: string, carryState: string, acId: byte, ch: Channels, cfg: AcConfig)
      ensures this.did == LowByte(did) && this.name == name && this.carryState == carryState && this.acId == acId && this.ch == ch
      ensures Current() == Settings(cfg.defaultMode, cfg.defaultFanSpeed, cfg.defaultTargetTemp)
      ensures roomTemp == 26 && !isRunning && !isWork && !shutdownTimerArmed
    {
      this.did, this.name, this.carryState, this.acId, this.ch := LowByte(did), name, carryState, acId, ch;
      mode, fanSpeed, targetTemp := cfg.defaultMode, cfg.defaultFanSpeed, cfg.defaultTargetTemp;
      roomTemp := 26;
      isRunning, isWork, shutdownTimerArmed := false, false, false;
    }

    function Current(): Settings
      reads this
    {
      Settings(mode, fanSpeed, targetTemp)
    }

    /** `update_room_temp`: take the room temperature a thermostat reported, and nothing else. */
    method UpdateRoomTemp(temp: byte)
      modifies this`roomTemp
      ensures roomTemp == temp
    {
      roomTemp := temp;
    }

    /** `open_fan_relay`. */
    method OpenFanRelay(speed: FanSpeed, board: Stm32Frames.Stm32Port)
      modifies board
      ensures board.sent == old(board.sent) + FanFrames(speed, ch)
    {
      match speed {
        case Low =>
          board.ControlRelay(ch.low, true);
          board.ControlRelay(ch.mid, false);
          board.ControlRelay(ch.high, false);
        case Medium =>
          board.ControlRelay(ch.low, false);
          board.ControlRelay(ch.mid, true);
          board.ControlRelay(ch.high, false);
        case High =>
          board.ControlRelay(ch.low, false);
          board.ControlRelay(ch.mid, false);
          board.ControlRelay(ch.high, true);
        case Auto =>
      }
    }

    /** `adjust_fan_relay`. */
    method AdjustFanRelay(cfg: AcConfig, board: Stm32Frames.Stm32Port)
      modifies board
      ensures board.sent == old(board.sent) + FanFrames(FanRelaySpeed(Current(), roomTemp, cfg), ch)
    {
      if fanSpeed == Auto {
        if mode == Fan {
          OpenFanRelay(cfg.autoFanSpeed, board);
        } else {
          var diff := Abs(targetTemp - roomTemp);
          if diff <= cfg.lowDiff {
            OpenFanRelay(Low, board);
          } else if diff >= cfg.highDiff {
            OpenFanRelay(High, board);
          } else {
            OpenFanRelay(Medium, board);
          }
        }
      } else {
        OpenFanRelay(fanSpeed, board);
      }
    }

    /** `stop_on_reached_target`. */
    method StopOnReachedTarget(cfg: AcConfig, board: Stm32Frames.Stm32Port)
      modifies board
      ensures board.sent == old(board.sent) + StopFrames(cfg.stopAction, ch)
    {
      match cfg.stopAction {
        case CloseAll =>
          board.ControlRelay(ch.low, false);
          board.ControlRelay(ch.mid, false);
          board.ControlRelay(ch.high, false);
          board.ControlRelay(ch.water1, false);
        case CloseFan =>
          board.ControlRelay(ch.low, false);
          board.ControlRelay(ch.mid, false);
          board.ControlRelay(ch.high, false);
        case CloseValve =>
          board.ControlRelay(ch.water1, false);
        case CloseNone =>
      }
    }

    /** The room reached the target: apply the stop action and stop working. */
    method StopWork(cfg: AcConfig, board: Stm32Frames.Stm32Port)
      modifies this`isWork, board
      ensures !isWork
      ensures board.sent == old(board.sent) + StopFrames(cfg.stopAction, ch)
    {
      StopOnReachedTarget(cfg, board);
      isWork := false;
    }

    /** The room left the band: open the valve, set the fan and start working. */
    method StartWork(cfg: AcConfig, board: Stm32Frames.Stm32Port)
      modifies this`isWork, board
      ensures isWork
      ensures board.sent == old(board.sent) + ([RelayFrame(ch.water1, true)] + FanFrames(FanRelaySpeed(Current(), roomTemp, cfg), ch))
    {
      board.ControlRelay(ch.water1, true);
      AdjustFanRelay(cfg, board);
      isWork := true;
    }

    /** The cooling branch of `adjust_relay_states`. */
    method RegulateCooling(cfg: AcConfig, board: Stm32Frames.Stm32Port)
      requires mode == Cooling
      modifies this`isWork, board
      ensures isWork == Regulated(Current(), old(isWork), roomTemp, cfg, ch).working
      ensures board.sent == old(board.sent) + Regulated(Current(), old(isWork), roomTemp, cfg, ch).frames
    {
      if isWork {
        if roomTemp <= targetTemp - cfg.stopThreshold {
          StopWork(cfg, board);
        } else {
          AdjustFanRelay(cfg, board);
        }
      } else if roomTemp >= targetTemp + cfg.reworkThreshold {
        StartWork(cfg, board);
      }
    }

    /** The heating branch of `adjust_relay_states`. */
    method RegulateHeating(cfg: AcConfig, board: Stm32Frames.Stm32Port)
      requires mode == Heating
      modifies this`isWork, board
      ensures isWork == Regulated(Current(), old(isWork), roomTemp, cfg, ch).working
      ensures board.sent == old(board.sent) + Regulated(Current(), old(isWork), roomTemp, cfg, ch).frames
    {
      if isWork {
        if roomTemp >= targetTemp + cfg.stopThreshold {
          StopWork(cfg, board);
        } else {
          AdjustFanRelay(cfg, board);
        }
      } else if roomTemp <= targetTemp - cfg.stopThreshold {
        StartWork(cfg, board);
      }
    }

    /** `adjust_relay_states`: one step of the hysteresis regulator; fan mode closes the valve and sets the fan. */
    method AdjustRelayStates(cfg: AcConfig, board: Stm32Frames.Stm32Port)
      modifies this`isWork, board
      ensures isWork == Regulated(Current(), old(isWork), roomTemp, cfg, ch).working
      ensures board.sent == old(board.sent) + Regulated(Current(), old(isWork), roomTemp, cfg, ch).frames
    {
      match mode {
        case Cooling => RegulateCooling(cfg, board);
        case Heating => RegulateHeating(cfg, board);
        case Fan =>
          board.ControlRelay(ch.water1, false);
          AdjustFanRelay(cfg, board);
      }
    }

    /** `power_off`: the base class clears both flags; then the valve and fans are set and the shutdown timer armed. */
    method PowerOff(cfg: AcConfig, board: Stm32Frames.Stm32Port)
      modifies this`isWork, this`isRunning, this`shutdownTimerArmed, board
      ensures !isWork && !isRunning && shutdownTimerArmed
      ensures board.sent == old(board.sent) + PowerOffFrames(cfg, ch)
    {
      isWork, isRunning := false, false;
      board.ControlRelay(ch.water1, false);
      OpenFanRelay(cfg.shutdownAfterFanSpeed, board);
      shutdownTimerArmed := true;
    }

    /** The shutdown timer fires: every fan relay off. */
    method ShutdownAfterTimerFired(board: Stm32Frames.Stm32Port)
      requires shutdownTimerArmed
      modifies this`shutdownTimerArmed, board
      ensures !shutdownTimerArmed
      ensures board.sent == old(board.sent) + ShutdownFrames(ch)
    {
      shutdownTimerArmed := false;
      board.ControlRelay(ch.mid, false);
      board.ControlRelay(ch.high, false);
      board.ControlRelay(ch.low, false);
    }

    /** `sync_states`: report the settings to the thermostat. */
    method SyncStates(port: Rs485Frames.Rs485Port)
      modifies port
      ensures port.queue == old(port.queue) + [SyncFrame(isRunning, Current(), roomTemp, acId)]
    {
      var state := StateByte(isRunning, mode, fanSpeed, acId);
      var temps := TempsByte(targetTemp, roomTemp);
      port.GenerateResponse(Rs485Frames.AIR_CON, Rs485Frames.AIR_CON_CONTROL, 0x00, state, temps);
    }

    /** Switch on, disarm the shutdown timer and apply the operation's settings. */
    method Apply(operation: string, parameter: string, cfg: AcConfig) returns (ok: bool)
      modifies this`mode, this`fanSpeed, this`targetTemp, this`isRunning, this`shutdownTimerArmed
      ensures isRunning && !shutdownTimerArmed
      ensures ok == Operated(operation, parameter, old(Current()), cfg).Some?
      ensures ok ==> Current() == Operated(operation, parameter, old(Current()), cfg).value
      ensures !ok ==> Current() == old(Current())
    {
      isRunning := true;
      shutdownTimerArmed := false;
      ok := true;
      if operation == "开" || operation == "打开" {
        targetTemp, fanSpeed, mode := cfg.defaultTargetTemp, cfg.defaultFanSpeed, cfg.defaultMode;
      } else if operation == "制冷" {
        mode := Cooling;
      } else if operation == "制热" {
        mode := Heating;
      } else if operation == "通风" {
        mode := Fan;
      } else if operation == "高风" {
        fanSpeed := High;
      } else if operation == "中风" {
        fanSpeed := Medium;
      } else if operation == "低风" {
        fanSpeed := Low;
      } else if operation == "自动" {
        fanSpeed := Auto;
      } else if operation == "风量加大" {
        if fanSpeed == Low {
          fanSpeed := Medium;
        } else if fanSpeed == Medium {
          fanSpeed := High;
        }
      } else if operation == "风量减小" {
        if fanSpeed == High {
          fanSpeed := Medium;
        } else if fanSpeed == Medium {
          fanSpeed := Low;
        }
      } else if operation == "温度升高" {
        if targetTemp < 31 {
          targetTemp := targetTemp + 1;
        }
      } else if operation == "温度降低" {
        if targetTemp > 16 {
          targetTemp := targetTemp - 1;
        }
      } else if operation == "调节温度" {
        match Stoi(parameter) {
          case Some(t) => targetTemp := Clamp(t);
          case None => ok := false;
        }
      }
    }

    /**
     * `execute`: "关"/"关闭" power the unit off; any other operation powers
     * it on, applies the settings, regulates and reports. An "调节温度"
     * whose parameter `std::stoi` rejects stops the operation after the
     * unit was marked running.
     */
    method Execute(operation: string, parameter: string, cfg: AcConfig, board: Stm32Frames.Stm32Port, port: Rs485Frames.Rs485Port)
      modifies this`mode, this`fanSpeed, this`targetTemp, this`isRunning, this`isWork, this`shutdownTimerArmed, board, port
      ensures IsOff(operation) ==>
        && Current() == old(Current()) && !isRunning && !isWork && shutdownTimerArmed
        && board.sent == old(board.sent) + PowerOffFrames(cfg, ch)
        && port.queue == old(port.queue) + [SyncFrame(false, Current(), roomTemp, acId)]
      ensures !IsOff(operation) ==> isRunning && !shutdownTimerArmed
      ensures !IsOff(operation) ==> match Operated(operation, parameter, old(Current()), cfg)
        case Some(s) =>
          var r := Regulated(s, old(isWork), roomTemp, cfg, ch);
          && Current() == s && isWork == r.working
          && board.sent == old(board.sent) + r.frames
          && port.queue == old(port.queue) + [SyncFrame(true, s, roomTemp, acId)]
        case None =>
          Current() == old(Current()) && isWork == old(isWork) && board.sent == old(board.sent) && port.queue == old(port.queue)
    {
      if operation == "关" || operation == "关闭" {
        PowerOff(cfg, board);
        SyncStates(port);
        return;
      }
      var ok := Apply(operation, parameter, cfg);
      if !ok {
        return;
      }
      AdjustRelayStates(cfg, board);
      SyncStates(port);
    }

    /**
     * The base `update_state`: the room temperature is always taken; the
     * rest only when the card is in or the settings allow the air
     * conditioner without a card.
     */
    method TakeReport(state: byte, temps: byte, alive: bool, cfg: AcConfig)
      modifies this`mode, this`fanSpeed, this`targetTemp, this`roomTemp
      ensures roomTemp == Decode(state, temps).room
      ensures !alive && !cfg.removeCardAirUsable ==> Current() == old(Current())
      ensures alive || cfg.removeCardAirUsable ==>
        var r := Decode(state, temps);
        Current() == Settings(BitsToMode(r.modeBits), BitsToFan(r.fanBits), r.target)
    {
      var r := Decode(state, temps);
      roomTemp := r.room;
      if !alive && !cfg.removeCardAirUsable {
        return;
      }
      mode := BitsToMode(r.modeBits);
      fanSpeed := BitsToFan(r.fanBits);
      targetTemp := r.target;
    }

    /** Follow the thermostat's power bit: off, or on with the timer disarmed and one regulation step. */
    method FollowPower(power: bool, cfg: AcConfig, board: Stm32Frames.Stm32Port)
      modifies this`isRunning, this`isWork, this`shutdownTimerArmed, board
      ensures !power ==> !isRunning && !isWork && shutdownTimerArmed && board.sent == old(board.sent) + PowerOffFrames(cfg, ch)
      ensures power ==>
        var r := Regulated(Current(), old(isWork), roomTemp, cfg, ch);
        isRunning && !shutdownTimerArmed && isWork == r.working && board.sent == old(board.sent) + r.frames
    {
      if !power {
        PowerOff(cfg, board);
      } else {
        isRunning := true;
        shutdownTimerArmed := false;
        AdjustRelayStates(cfg, board);
      }
    }

    /**
     * `update_state`: the thermostat reported `state` and `temps`. Without
     * a card, and unless the settings allow it, only the room temperature
     * is taken; otherwise the unit takes the settings, follows the power
     * bit and reports back.
     */
    method UpdateState(state: byte, temps: byte, alive: bool, cfg: AcConfig, board: Stm32Frames.Stm32Port, port: Rs485Frames.Rs485Port)
      modifies this`mode, this`fanSpeed, this`targetTemp, this`roomTemp, this`isRunning, this`isWork, this`shutdownTimerArmed, board, port
      ensures roomTemp == Decode(state, temps).room
      ensures !alive && !cfg.removeCardAirUsable ==>
        && Current() == old(Current()) && isRunning == old(isRunning) && isWork == old(isWork)
        && shutdownTimerArmed == old(shutdownTimerArmed) && board.sent == old(board.sent) && port.queue == old(port.queue)
      ensures alive || cfg.removeCardAirUsable ==>
        var r := Decode(state, temps);
        var s := Settings(BitsToMode(r.modeBits), BitsToFan(r.fanBits), r.target);
        && Current() == s && isRunning == r.power && shutdownTimerArmed == !r.power
        && (if r.power then isWork == Regulated(s, old(isWork), r.room, cfg, ch).working && board.sent == old(board.sent) + Regulated(s, old(isWork), r.room, cfg, ch).frames
            else !isWork && board.sent == old(board.sent) + PowerOffFrames(cfg, ch))
        && port.queue == old(port.queue) + [SyncFrame(r.power, s, r.room, acId)]
    {
      TakeReport(state, temps, alive, cfg);
      if !alive && !cfg.removeCardAirUsable {
        return;
      }
      FollowPower(state / 128 % 2 == 1, cfg, board);
      SyncStates(port);
    }
  }

  /** `InfraredAC`: a unit driven through the infrared controller; it keeps and reports the settings only. */
  class InfraredAc {
    /** `IDevice` keeps the id in a `uint8_t`: the low eight bits of the constructor's `uint16_t` argument. */
    const did: byte
    const name: string
    const carryState: string
    const acId: byte
    var mode: AcMode
    var fanSpeed: FanSpeed
    var targetTemp: byte
    var roomTemp: byte
    var isRunning: bool
    var isWork: bool
    var codeBase: string

    constructor (did: uint16, name: string, carryState: string, acId: byte, cfg: AcConfig)
      ensures this.did == LowByte(did) && this.name == name && this.carryState == carryState && this.acId == acId
      ensures Current() == Settings(cfg.defaultMode, cfg.defaultFanSpeed, cfg.defaultTargetTemp)
      ensures roomTemp == 26 && !isRunning && !isWork && codeBase == ""
    {
      this.did, this.name, this.carryState, this.acId := LowByte(did), name, carryState, acId;
      mode, fanSpeed, targetTemp := cfg.defaultMode, cfg.defaultFanSpeed, cfg.defaultTargetTemp;
      roomTemp := 26;
      isRunning, isWork := false, false;
      codeBase := "";
    }

    function Current(): Settings
      reads this
    {
      Settings(mode, fanSpeed, targetTemp)
    }

    /** `update_room_temp`: take the room temperature a thermostat reported, and nothing else. */
    method UpdateRoomTemp(temp: byte)
      modifies this`roomTemp
      ensures roomTemp == temp
    {
      roomTemp := temp;
    }

    /** `sync_states`: the same report as the single-pipe unit's. */
    method SyncStates(port: Rs485Frames.Rs485Port)
      modifies port
      ensures port.queue == old(port.queue) + [SyncFrame(isRunning, Current(), roomTemp, acId)]
    {
      var state := StateByte(isRunning, mode, fanSpeed, acId);
      var temps := TempsByte(targetTemp, roomTemp);
      port.GenerateResponse(Rs485Frames.AIR_CON, Rs485Frames.AIR_CON_CONTROL, 0x00, state, temps);
    }

    /** Switch on and apply the operation's settings. */
    method Apply(operation: string, parameter: string, cfg: AcConfig) returns (ok: bool)
      modifies this`mode, this`fanSpeed, this`targetTemp, this`isRunning
      ensures isRunning
      ensures ok == Operated(operation, parameter, old(Current()), cfg).Some?
      ensures ok ==> Current() == Operated(operation, parameter, old(Current()), cfg).value
      ensures !ok ==> Current() == old(Current())
    {
      isRunning := true;
      ok := true;
      if operation == "开" || operation == "打开" {
        targetTemp, fanSpeed, mode := cfg.defaultTargetTemp, cfg.defaultFanSpeed, cfg.defaultMode;
      } else if operation == "制冷" {
        mode := Cooling;
      } else if operation == "制热" {
        mode := Heating;
      } else if operation == "通风" {
        mode := Fan;
      } else if operation == "高风" {
        fanSpeed := High;
      } else if operation == "中风" {
        fanSpeed := Medium;
      } else if operation == "低风" {
        fanSpeed := Low;
      } else if operation == "自动" {
        fanSpeed := Auto;
      } else if operation == "风量加大" {
        if fanSpeed == Low {
          fanSpeed := Medium;
        } else if fanSpeed == Medium {
          fanSpeed := High;
        }
      } else if operation == "风量减小" {
        if fanSpeed == High {
          fanSpeed := Medium;
        } else if fanSpeed == Medium {
          fanSpeed := Low;
        }
      } else if operation == "温度升高" {
        if targetTemp < 31 {
          targetTemp := targetTemp + 1;
        }
      } else if operation == "温度降低" {
        if targetTemp > 16 {
          targetTemp := targetTemp - 1;
        }
      } else if operation == "调节温度" {
        match Stoi(parameter) {
          case Some(t) => targetTemp := Clamp(t);
          case None => ok := false;
        }
      }
    }

    /** `execute`: as the single-pipe unit's, without relays and without a shutdown timer. */
    method Execute(operation: string, parameter: string, cfg: AcConfig, port: Rs485Frames.Rs485Port)
      modifies this`mode, this`fanSpeed, this`targetTemp, this`isRunning, this`isWork, port
      ensures IsOff(operation) ==>
        && Current() == old(Current()) && !isRunning && !isWork
        && port.queue == old(port.queue) + [SyncFrame(false, Current(), roomTemp, acId)]
      ensures !IsOff(operation) ==> isRunning && isWork == old(isWork)
      ensures !IsOff(operation) ==> match Operated(operation, parameter, old(Current()), cfg)
        case Some(s) => Current() == s && port.queue == old(port.queue) + [SyncFrame(true, s, roomTemp, acId)]
        case None => Current() == old(Current()) && port.queue == old(port.queue)
    {
      if operation == "关" || operation == "关闭" {
        isWork, isRunning := false, false;
        SyncStates(port);
        return;
      }
      var ok := Apply(operation, parameter, cfg);
      if !ok {
        return;
      }
      SyncStates(port);
    }

    /** `update_state`: take the report as the base class does, follow the power bit, report back. */
    method UpdateState(state: byte, temps: byte, alive: bool, cfg: AcConfig, port: Rs485Frames.Rs485Port)
      modifies this`mode, this`fanSpeed, this`targetTemp, this`roomTemp, this`isRunning, this`isWork, port
      ensures roomTemp == Decode(state, temps).room
      ensures !alive && !cfg.removeCardAirUsable ==>
        Current() == old(Current()) && isRunning == old(isRunning) && isWork == old(isWork) && port.queue == old(port.queue)
      ensures alive || cfg.removeCardAirUsable ==>
        var r := Decode(state, temps);
        var s := Settings(BitsToMode(r.modeBits), BitsToFan(r.fanBits), r.target);
        && Current() == s && isRunning == r.power && isWork == (r.power && old(isWork))
        && port.queue == old(port.queue) + [SyncFrame(r.power, s, r.room, acId)]
    {
      var r := Decode(state, temps);
      roomTemp := r.room;
      if !alive && !cfg.removeCardAirUsable {
        return;
      }
      mode, fanSpeed, targetTemp := BitsToMode(r.modeBits), BitsToFan(r.fanBits), r.target;
      if !r.power {
        isWork, isRunning := false, false;
      } else {
        isRunning := true;
      }
      SyncStates(port);
    }

    /**
     * `set_code_base` as written: the two code bytes are set only for
     * "gree"; for any other code base they are read uninitialised, which
     * the model takes as the arbitrary `stale1`, `stale2`.
     */
    method SetCodeBaseAsWritten(codeBase: string, stale1: byte, stale2: byte, port: Rs485Frames.Rs485Port)
      modifies this`codeBase, port
      ensures this.codeBase == codeBase
      ensures port.queue == old(port.queue) + [CodeBaseFrameAsWritten(codeBase, stale1, stale2)]
    {
      this.codeBase := codeBase;
      var code1: byte := stale1;
      var code2: byte := stale2;
      if codeBase == "gree" {
        code1 := 0x03;
        code2 := 0x3E;
      }
      port.GenerateResponse(Rs485Frames.INFRARED_CONTROLLER, 0x12, 0x00, code1, code2);
    }

    /** `set_code_base` corrected: the frame is sent only for a code base whose codes are known. */
    method SetCodeBase(codeBase: string, port: Rs485Frames.Rs485Port)
      modifies this`codeBase, port
      ensures this.codeBase == codeBase
      ensures port.queue == old(port.queue) + CodeBaseFrames(codeBase)
    {
      this.codeBase := codeBase;
      match CodeBaseCodes(codeBase) {
        case Some(codes) => port.GenerateResponse(Rs485Frames.INFRARED_CONTROLLER, 0x12, 0x00, codes.0, codes.1);
        case None =>
      }
    }
  }

  /** The frame the written `set_code_base` sends. */
  function CodeBaseFrameAsWritten(codeBase: string, stale1: byte, stale2: byte): seq<byte>
  {
    if codeBase == "gree" then Rs485Frames.ResponseFrame(Rs485Frames.INFRARED_CONTROLLER, 0x12, 0x00, 0x03, 0x3E)
    else Rs485Frames.ResponseFrame(Rs485Frames.INFRARED_CONTROLLER, 0x12, 0x00, stale1, stale2)
  }

  /** The infrared code bytes of the code bases the firmware knows. */
  function CodeBaseCodes(codeBase: string): Option<(byte, byte)>
  {
    if codeBase == "gree" then Some((0x03, 0x3E)) else None
  }

  /** The frames the corrected `set_code_base` sends. */
  function CodeBaseFrames(codeBase: string): seq<seq<byte>>
  {
    match CodeBaseCodes(codeBase)
    case Some(codes) => [Rs485Frames.ResponseFrame(Rs485Frames.INFRARED_CONTROLLER, 0x12, 0x00, codes.0, codes.1)]
    case None => []
  }

  /**
   * As written, the frame for any code base but "gree" depends on what the
   * uninitialised bytes held: two calls with the same argument can send
   * different frames.
   */
  lemma CodeBaseFrameDependsOnStaleBytes(codeBase: string)
    requires codeBase != "gree"
    ensures CodeBaseFrameAsWritten(codeBase, 0, 0) != CodeBaseFrameAsWritten(codeBase, 1, 0)
  {
    assert CodeBaseFrameAsWritten(codeBase, 0, 0)[4] != CodeBaseFrameAsWritten(codeBase, 1, 0)[4];
  }

  /** Corrected, the frames depend on the code base alone: "gree" sends its codes, an unknown code base sends nothing. */
  lemma CodeBaseFramesKnownOnly(codeBase: string)
    ensures |CodeBaseFrames(codeBase)| == if codeBase == "gree" then 1 else 0
    ensures codeBase == "gree" ==> CodeBaseFrames(codeBase) == [CodeBaseFrameAsWritten(codeBase, 0, 0)]
    ensures forall f :: f in CodeBaseFrames(codeBase) ==> f[1] == Rs485Frames.INFRARED_CONTROLLER && f[4] == 0x03 && f[5] == 0x3E
  {
  }
}
