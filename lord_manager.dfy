/**
 * The lord singleton's registries (lord_manager.cpp, lord_manager.h):
 * devices by id, scenes by id, dry-contact inputs by id and panels by panel
 * id, the queries over them, and the dispatch of panel and thermostat
 * reports to the registered objects. The heartbeat and the other flags the
 * singleton keeps live in `LordContext.Context`, which the lord holds.
 */
module Lord {
  import opened Wrappers
  import opened Bytes
  import Inputs
  import ManagerBase
  import LordContext
  import ActionGroups
  import PanelInput
  import ChannelInput
  import Lamp
  import Curtain
  import AirConditioner
  import DeviceBase
  import Indicator
  import Stm32Frames
  import Rs485Frames

  /**
   * A registered device. Only `registerLamp`, `registerCurtain`,
   * `registerIngraredAir` and `registerSingleAir` create one; the bodies of
   * `registerPreset`, `registerRs485`, `registerRelayOut` and
   * `registerDryContactOut` are empty.
   */
  datatype Device =
    | LampDevice(lamp: Lamp.Lamp)
    | CurtainDevice(curtain: Curtain.Curtain)
    | InfraredAirDevice(ir: AirConditioner.InfraredAc)
    | SingleAirDevice(fcu: AirConditioner.SinglePipeFcu)

  /** `getDid`: the id as `IDevice` keeps it, in eight bits. */
  function DidOf(d: Device): byte
  {
    match d
    case LampDevice(l) => l.did
    case CurtainDevice(c) => c.did
    case InfraredAirDevice(a) => a.did
    case SingleAirDevice(f) => f.did
  }

  /** `getType`: the type each class passes to the `IDevice` constructor. */
  function TypeOf(d: Device): DeviceBase.DeviceType
  {
    match d
    case LampDevice(_) => DeviceBase.Lamp
    case CurtainDevice(_) => DeviceBase.Curtain
    case InfraredAirDevice(_) => DeviceBase.InfraredAir
    case SingleAirDevice(_) => DeviceBase.SingleAir
  }

  /** The classes derived from `IDevice` that `getDevicesByType<T>` can be asked for. */
  datatype DeviceClass =
    | IDeviceClass | SingleRelayDeviceClass | LampClass | CurtainClass
    | AirConBaseClass | SinglePipeFcuClass | DoublePipeFcuClass | InfraredAcClass
    | DryContactOutClass | BgmClass | Rs485CommandClass | PresetDeviceClass

  /** Whether `dynamic_cast<T*>` of the device succeeds: a lamp is a single-relay device, both air conditioners are `AirConBase`. */
  predicate IsA(d: Device, c: DeviceClass)
  {
    match d
    case LampDevice(_) => c in {IDeviceClass, SingleRelayDeviceClass, LampClass}
    case CurtainDevice(_) => c in {IDeviceClass, CurtainClass}
    case InfraredAirDevice(_) => c in {IDeviceClass, AirConBaseClass, InfraredAcClass}
    case SingleAirDevice(_) => c in {IDeviceClass, AirConBaseClass, SinglePipeFcuClass}
  }

  /**
   * What the registry can hold: every device is an `IDevice`; the
   * `AirConBase` query finds exactly the two kinds of air conditioner and
   * the single-relay query exactly the lamps; no query for a double-pipe
   * unit, a dry-contact output, the amplifier, an RS485 command or a preset
   * device ever finds anything.
   */
  lemma RegisteredClasses(d: Device)
    ensures IsA(d, IDeviceClass)
    ensures IsA(d, AirConBaseClass) <==> d.InfraredAirDevice? || d.SingleAirDevice?
    ensures IsA(d, SingleRelayDeviceClass) <==> d.LampDevice?
    ensures !IsA(d, DoublePipeFcuClass) && !IsA(d, DryContactOutClass) && !IsA(d, BgmClass)
    ensures !IsA(d, Rs485CommandClass) && !IsA(d, PresetDeviceClass)
  {
  }

  /**
   * `isOn`, as each class answers it: a lamp reads the relay state the
   * board last reported, a curtain is on while open or opening, and an air
   * conditioner is taken as on while running.
   */
  predicate IsOn(d: Device, ctx: LordContext.Context)
    reads ctx, if d.CurtainDevice? then {d.curtain} else {}
    reads if d.InfraredAirDevice? then {d.ir} else {}, if d.SingleAirDevice? then {d.fcu} else {}
  {
    match d
    case LampDevice(l) => l.IsOn(ctx)
    case CurtainDevice(c) => c.IsOn()
    case InfraredAirDevice(a) => a.isRunning
    case SingleAirDevice(f) => f.isRunning
  }

  /** The settings a thermostat report carries. */
  function ReportedSettings(states: byte, temps: byte): AirConditioner.Settings
  {
    var r := AirConditioner.Decode(states, temps);
    AirConditioner.Settings(AirConditioner.BitsToMode(r.modeBits), AirConditioner.BitsToFan(r.fanBits), r.target)
  }

  /** A fan-coil unit that took the report `states`, `temps` with the card in. */
  ghost predicate FcuTook(f: AirConditioner.SinglePipeFcu, states: byte, temps: byte)
    reads f
  {
    var r := AirConditioner.Decode(states, temps);
    f.roomTemp == r.room && f.Current() == ReportedSettings(states, temps) && f.isRunning == r.power
  }

  /** An infrared unit that took the report `states`, `temps` with the card in. */
  ghost predicate IrTook(a: AirConditioner.InfraredAc, states: byte, temps: byte)
    reads a
  {
    var r := AirConditioner.Decode(states, temps);
    a.roomTemp == r.room && a.Current() == ReportedSettings(states, temps) && a.isRunning == r.power
  }

  /** The map `m1` is `m0` with one key added or replaced. */
  ghost predicate Updated<K, V>(m0: map<K, V>, m1: map<K, V>, key: K)
  {
    m1.Keys == m0.Keys + {key} && forall k :: k in m0 && k != key ==> m1[k] == m0[k]
  }

  class LordManager {
    const ctx: LordContext.Context
    /** The settings every air conditioner is created with. */
    const acConfig: AirConditioner.AcConfig
    var configGenerateTime: string
    var lastModeName: string
    var devices: map<int, Device>
    var actionGroups: map<int, ActionGroups.ActionGroup>
    var channelInputs: map<int, ChannelInput.ChannelInput>
    var panels: map<byte, PanelInput.Panel>

    /** Every entry is stored under its own id, and every panel is valid. */
    ghost predicate Valid()
      reads this, panels.Values`buttonsMap
    {
      && DeviceBase.PanelsValid(panels)
      && (forall did :: did in devices ==> DidOf(devices[did]) == did)
      && (forall aid :: aid in actionGroups ==> actionGroups[aid].aid == aid)
      && (forall iid :: iid in channelInputs ==> channelInputs[iid].iid == iid)
    }

    ghost function Fcus(): set<AirConditioner.SinglePipeFcu>
      reads this
    {
      set d | d in devices.Values && d.SingleAirDevice? :: d.fcu
    }

    ghost function Irs(): set<AirConditioner.InfraredAc>
      reads this
    {
      set d | d in devices.Values && d.InfraredAirDevice? :: d.ir
    }

    /** The singleton starts with empty registries. */
    constructor (ctx: LordContext.Context, acConfig: AirConditioner.AcConfig)
      ensures Valid() && this.ctx == ctx && this.acConfig == acConfig
      ensures configGenerateTime == "" && lastModeName == ""
      ensures devices == map[] && actionGroups == map[] && channelInputs == map[] && panels == map[]
    {
      this.ctx, this.acConfig := ctx, acConfig;
      configGenerateTime, lastModeName := "", "";
      devices, actionGroups, channelInputs, panels := map[], map[], map[], map[];
    }

    /** `clearAll`: back to the sleep heartbeat and empty registries. */
    method ClearAll()
      modifies this, ctx`heartbeatCode
      ensures Valid() && ctx.heartbeatCode == LordContext.SLEEP_BYTES
      ensures configGenerateTime == "" && lastModeName == ""
      ensures devices == map[] && actionGroups == map[] && channelInputs == map[] && panels == map[]
    {
      ctx.UseSleepHeartBeat();
      configGenerateTime, lastModeName := "", "";
      devices, actionGroups, channelInputs, panels := map[], map[], map[], map[];
    }

    /** `setCommonConfig`. */
    method SetCommonConfig(datetime: string)
      modifies this`configGenerateTime
      ensures configGenerateTime == datetime
    {
      configGenerateTime := datetime;
    }

    /**
     * `registerLamp`: a new lamp, stored under the id the lamp keeps, the
     * low eight bits of `did` (replacing any device there). So ids 256
     * apart take each other's place, and an id of 256 or more cannot be
     * looked up under itself.
     */
    method RegisterLamp(did: uint16, name: string, carryState: string, channel: byte)
      requires Valid()
      modifies this`devices
      ensures Valid() && Updated(old(devices), devices, LowByte(did))
      ensures devices[LowByte(did)].LampDevice? && fresh(devices[LowByte(did)].lamp)
      ensures var l := devices[LowByte(did)].lamp;
        l.name == name && l.carryState == carryState && l.channel == channel && !l.currentState && l.associatedButtons == []
      ensures GetDeviceByDid(LowByte(did)).Some? && (GetDeviceByDid(did).Some? <==> did < 256)
    {
      var dev := new Lamp.Lamp(did, name, carryState, channel);
      devices := devices[dev.did := LampDevice(dev)];
    }

    /** `registerCurtain`. */
    method RegisterCurtain(did: uint16, name: string, carryState: string, openChannel: byte, closeChannel: byte, runtime: nat)
      requires Valid()
      modifies this`devices
      ensures Valid() && Updated(old(devices), devices, LowByte(did))
      ensures devices[LowByte(did)].CurtainDevice? && fresh(devices[LowByte(did)].curtain)
      ensures var c := devices[LowByte(did)].curtain;
        c.Valid() && c.name == name && c.carryState == carryState && c.state == Curtain.Closed
        && c.openChannel == openChannel && c.closeChannel == closeChannel && c.runtime == runtime
      ensures GetDeviceByDid(LowByte(did)).Some? && (GetDeviceByDid(did).Some? <==> did < 256)
    {
      var dev := new Curtain.Curtain(did, name, carryState, openChannel, closeChannel, runtime);
      devices := devices[dev.did := CurtainDevice(dev)];
    }

    /** `registerIngraredAir`. */
    method RegisterInfraredAir(did: uint16, name: string, carryState: string, airId: byte)
      requires Valid()
      modifies this`devices
      ensures Valid() && Updated(old(devices), devices, LowByte(did))
      ensures devices[LowByte(did)].InfraredAirDevice? && fresh(devices[LowByte(did)].ir)
      ensures var a := devices[LowByte(did)].ir;
        a.name == name && a.carryState == carryState && a.acId == airId && !a.isRunning
        && a.Current() == AirConditioner.Settings(acConfig.defaultMode, acConfig.defaultFanSpeed, acConfig.defaultTargetTemp)
      ensures GetDeviceByDid(LowByte(did)).Some? && (GetDeviceByDid(did).Some? <==> did < 256)
    {
      var dev := new AirConditioner.InfraredAc(did, name, carryState, airId, acConfig);
      devices := devices[dev.did := InfraredAirDevice(dev)];
    }

    /** `registerSingleAir`: the water-valve channel and the low, middle and high fan channels. */
    method RegisterSingleAir(did: uint16, name: string, carryState: string, airId: byte, wc: byte, lc: byte, mc: byte, hc: byte)
      requires Valid()
      modifies this`devices
      ensures Valid() && Updated(old(devices), devices, LowByte(did))
      ensures devices[LowByte(did)].SingleAirDevice? && fresh(devices[LowByte(did)].fcu)
      ensures var f := devices[LowByte(did)].fcu;
        f.name == name && f.carryState == carryState && f.acId == airId && !f.isRunning
        && f.ch == AirConditioner.Channels(wc, lc, mc, hc)
        && f.Current() == AirConditioner.Settings(acConfig.defaultMode, acConfig.defaultFanSpeed, acConfig.defaultTargetTemp)
      ensures GetDeviceByDid(LowByte(did)).Some? && (GetDeviceByDid(did).Some? <==> did < 256)
    {
      var dev := new AirConditioner.SinglePipeFcu(did, name, carryState, airId, AirConditioner.Channels(wc, lc, mc, hc), acConfig);
      devices := devices[dev.did := SingleAirDevice(dev)];
    }

    /** `registerActionGroup`. */
    method RegisterActionGroup(aid: int, name: string, isMode: bool, actions: seq<ActionGroups.AtomicAction>)
      requires Valid()
      modifies this`actionGroups
      ensures Valid() && Updated(old(actionGroups), actionGroups, aid)
      ensures fresh(actionGroups[aid]) && actionGroups[aid].name == name && actionGroups[aid].isMode == isMode
      ensures actionGroups[aid].atomicActions == actions && !actionGroups[aid].running
    {
      var group := new ActionGroups.ActionGroup(aid, name, isMode, actions);
      actionGroups := actionGroups[group.aid := group];
    }

    /**
     * `registerPanelKeyInput`: find or create the panel, then add the key.
     * A key id the panel already has keeps its first key and the new
     * scenes are dropped (`ok` is false).
     */
    method RegisterPanelKeyInput(iid: int, name: string, tags: set<Inputs.InputTag>, pid: byte, bid: byte,
                                 groups: seq<ActionGroups.ActionGroup>)
      returns (ok: bool)
      requires Valid()
      modifies this`panels, panels.Values`buttonsMap
      ensures Valid() && Updated(old(panels), panels, pid)
      ensures forall p :: p in old(panels) ==> panels[p] == old(panels[p])
      ensures pid !in old(panels) ==> fresh(panels[pid])
      ensures forall p :: p in old(panels) && p != pid ==> panels[p].buttonsMap == old(panels[p].buttonsMap)
      ensures ok <==> pid !in old(panels) || bid !in old(panels[pid].buttonsMap)
      ensures !ok ==> panels[pid].buttonsMap == old(panels[pid].buttonsMap)
      ensures ok ==>
        && bid in panels[pid].buttonsMap && panels[pid].buttonsMap[bid].actionGroups == groups
        && panels[pid].buttonsMap[bid].iid == iid && panels[pid].buttonsMap[bid].tags == tags
        && panels[pid].buttonsMap.Keys == (if pid in old(panels) then old(panels[pid].buttonsMap.Keys) else {}) + {bid}
    {
      var panel: PanelInput.Panel;
      if pid in panels {
        panel := panels[pid];
      } else {
        panel := new PanelInput.Panel(pid);
        panels := panels[pid := panel];
      }
      ok := panel.AddButton(iid, name, bid, tags, groups);
    }

    /**
     * `registerDryContactInput`: a new channel input, stored under its id. The
     * `uint16_t` id is narrowed to the input's `uint8_t`, and the registry is
     * keyed by what the input keeps.
     */
    method RegisterDryContactInput(iid: uint16, kind: Inputs.InputType, name: string, tags: set<Inputs.InputTag>, channel: byte,
                                   triggerType: Inputs.TriggerType, duration: nat, groups: seq<ActionGroups.ActionGroup>)
      requires Valid()
      modifies this`channelInputs
      ensures Valid() && Updated(old(channelInputs), channelInputs, LowByte(iid))
      ensures var c := channelInputs[LowByte(iid)];
        fresh(c) && c.kind == kind && c.tags == tags && c.channel == channel && c.triggerType == triggerType
        && c.duration == duration && c.actionGroups == groups && c.currentState == ChannelInput.Idle && !c.timerArmed
      ensures iid in channelInputs <==> iid < 256
    {
      var input := new ChannelInput.ChannelInput(LowByte(iid), kind, name, tags, channel, triggerType, duration, groups);
      channelInputs := channelInputs[input.iid := input];
    }

    /** `getDeviceByDid`: the device, or null (None); the keys are eight-bit, so a wider id finds nothing. */
    function GetDeviceByDid(did: uint16): (r: Option<Device>)
      reads this, panels.Values`buttonsMap
      requires Valid()
      ensures r.Some? <==> did in devices
      ensures did >= 256 ==> r.None?
      ensures r.Some? ==> r.value in devices.Values && DidOf(r.value) == did
    {
      ManagerBase.Lookup(devices, did)
    }

    /** `getActionGroupByAid`, as the preset devices call it. */
    function GetActionGroupByAid(aid: int): (r: Option<ActionGroups.ActionGroup>)
      reads this, panels.Values`buttonsMap
      requires Valid()
      ensures r.Some? <==> aid in actionGroups
      ensures r.Some? ==> r.value in actionGroups.Values && r.value.aid == aid
    {
      ManagerBase.Lookup(actionGroups, aid)
    }

    /** `getPanelByPid`. */
    function GetPanelByPid(pid: byte): (r: Option<PanelInput.Panel>)
      reads this, panels.Values`buttonsMap
      requires Valid()
      ensures r.Some? <==> pid in panels
      ensures r.Some? ==> r.value in panels.Values && r.value.pid == pid && r.value.Valid()
    {
      ManagerBase.Lookup(panels, pid)
    }

    /** `getDevicesByType<T>`: one entry per registered device of class `c` or a class derived from it. */
    method GetDevicesByType(c: DeviceClass) returns (r: seq<Device>)
      ensures forall d :: d in r <==> d in devices.Values && IsA(d, c)
      ensures |r| == |ManagerBase.MatchingKeys(devices, d => IsA(d, c))|
    {
      ghost var keys;
      r, keys := ManagerBase.CollectMatching(devices, d => IsA(d, c));
    }

    /** `getAllModeActionGroup`: the scenes that are modes. */
    method GetAllModeActionGroup() returns (r: seq<ActionGroups.ActionGroup>)
      ensures forall g :: g in r <==> g in actionGroups.Values && g.isMode
      ensures |r| == |ManagerBase.MatchingKeys(actionGroups, (g: ActionGroups.ActionGroup) => g.isMode)|
    {
      ghost var keys;
      r, keys := ManagerBase.CollectMatching(actionGroups, (g: ActionGroups.ActionGroup) => g.isMode);
    }

    /** `getAllChannelInputByChannelNum`, as the board receiver calls it: every input configured on `channel`. */
    method GetAllChannelInputByChannelNum(channel: byte) returns (r: seq<ChannelInput.ChannelInput>)
      ensures forall i :: i in r <==> i in channelInputs.Values && i.channel == channel
      ensures |r| == |ManagerBase.MatchingKeys(channelInputs, (i: ChannelInput.ChannelInput) => i.channel == channel)|
      ensures Valid() ==> forall a, b :: 0 <= a < b < |r| ==> r[a] != r[b]
    {
      ghost var keys;
      r, keys := ManagerBase.CollectMatching(channelInputs, (i: ChannelInput.ChannelInput) => i.channel == channel);
      if Valid() {
        forall a, b | 0 <= a < b < |r|
          ensures r[a] != r[b]
        {
          assert r[a].iid == keys[a] && r[b].iid == keys[b];
        }
      }
    }

    /**
     * `getAliveChannel`, as the board receiver calls it: an input tagged as
     * the card-slot channel, if one is registered. Which one, when several
     * are, is not determined by the modelled files.
     */
    method GetAliveChannel() returns (r: Option<ChannelInput.ChannelInput>)
      ensures r.Some? ==> r.value in channelInputs.Values && Inputs.IsAliveChannel in r.value.tags
      ensures r.None? ==> forall i :: i in channelInputs.Values ==> Inputs.IsAliveChannel !in i.tags
    {
      if i :| i in channelInputs.Values && Inputs.IsAliveChannel in i.tags {
        r := Some(i);
      } else {
        r := None;
      }
    }

    /** `handlePanel`: hand a panel's key report to the panel; an unknown panel id is only logged. */
    method HandlePanel(pid: byte, target: bv8, oldBlState: bv8, modes: ManagerBase.LordManager, spawned: bool)
      returns (fired: seq<nat>)
      requires Valid()
      modifies if pid in panels then {panels[pid]} else {}, modes`currMode
      modifies if pid in panels then panels[pid].Buttons() else {}
      modifies if pid in panels then panels[pid].Scenes() else {}
      ensures Valid()
      ensures pid !in panels ==> fired == [] && modes.currMode == old(modes.currMode)
      ensures pid in panels ==>
        var p := panels[pid];
        && p.buttonBlStates == oldBlState
        && p.buttonOperationFlags == PanelInput.FlagsAfter(target)
        && fired == PanelInput.Fired(target, old(p.buttonOperationFlags), p.buttonsMap.Keys, 8)
    {
      match GetPanelByPid(pid) {
        case Some(panel) =>
          fired := panel.SwitchReport(target, oldBlState, modes, spawned);
        case None =>
          fired := [];
      }
    }

    /** `updateButtonIndicator`: set one key's backlight bit on its panel; an unknown panel id is only logged. */
    method UpdateButtonIndicator(assoc: DeviceBase.AssociatedButton, state: bool, holder: Indicator.IndicatorHolder)
      requires Valid() && holder.Valid()
      modifies if assoc.pid in panels then {panels[assoc.pid]} else {}, holder
      ensures Valid() && holder.Valid()
      ensures assoc.pid in panels && assoc.bid in panels[assoc.pid].buttonsMap ==>
        panels[assoc.pid].buttonBlStates == WithBit(old(panels[assoc.pid].buttonBlStates), assoc.bid, state)
        && holder.Contents() == Indicator.Added(old(holder.Contents()), Indicator.PublishBacklight(assoc.pid), assoc.pid)
      ensures !(assoc.pid in panels && assoc.bid in panels[assoc.pid].buttonsMap) ==> holder.Contents() == old(holder.Contents())
    {
      match GetPanelByPid(assoc.pid) {
        case Some(panel) =>
          panel.UpdateButtonIndicator(assoc.bid, state, holder);
        case None =>
      }
    }

    /**
     * `updateAirState`: the thermostat report goes to every air
     * conditioner whose id is the low three bits of `states`; every other
     * unit is left as it was. The card is taken as in (`getAlive`).
     */
    method UpdateAirState(states: byte, temps: byte, board: Stm32Frames.Stm32Port, port: Rs485Frames.Rs485Port)
      modifies Fcus(), Irs(), board, port
      ensures forall f :: f in Fcus() ==> if f.acId == states % 8 then FcuTook(f, states, temps) else unchanged(f)
      ensures forall a :: a in Irs() ==> if a.acId == states % 8 then IrTook(a, states, temps) else unchanged(a)
    {
      var acs := GetDevicesByType(AirConBaseClass);
      var i := 0;
      while i < |acs|
        invariant 0 <= i <= |acs|
        invariant forall f :: f in Fcus() && f.acId == states % 8 && SingleAirDevice(f) in acs[..i] ==> FcuTook(f, states, temps)
        invariant forall a :: a in Irs() && a.acId == states % 8 && InfraredAirDevice(a) in acs[..i] ==> IrTook(a, states, temps)
        invariant forall f :: f in Fcus() && f.acId != states % 8 ==> unchanged(f)
        invariant forall a :: a in Irs() && a.acId != states % 8 ==> unchanged(a)
      {
        DeliverAirState(acs[i], states, temps, board, port);
        assert acs[..i + 1] == acs[..i] + [acs[i]];
        i := i + 1;
      }
      assert acs[..i] == acs;
    }

    /** One pass of the `updateAirState` loop: the report goes to `d` when it is an air conditioner with the reported id. */
    method DeliverAirState(d: Device, states: byte, temps: byte, board: Stm32Frames.Stm32Port, port: Rs485Frames.Rs485Port)
      modifies if d.SingleAirDevice? && d.fcu.acId == states % 8 then {d.fcu} else {}
      modifies if d.InfraredAirDevice? && d.ir.acId == states % 8 then {d.ir} else {}
      modifies board, port
      ensures d.SingleAirDevice? && d.fcu.acId == states % 8 ==> FcuTook(d.fcu, states, temps)
      ensures d.InfraredAirDevice? && d.ir.acId == states % 8 ==> IrTook(d.ir, states, temps)
    {
      match d {
        case SingleAirDevice(f) =>
          if f.acId == states % 8 {
            f.UpdateState(states, temps, LordContext.GetAlive(), acConfig, board, port);
          }
        case InfraredAirDevice(a) =>
          if a.acId == states % 8 {
            a.UpdateState(states, temps, LordContext.GetAlive(), acConfig, port);
          }
        case _ =>
      }
    }

    /** `updateRoomTemp`: every air conditioner with id `airId` takes the room temperature, and nothing else changes. */
    method UpdateRoomTemp(airId: byte, roomTemp: byte)
      modifies Fcus()`roomTemp, Irs()`roomTemp
      ensures forall f :: f in Fcus() ==> f.roomTemp == if f.acId == airId then roomTemp else old(f.roomTemp)
      ensures forall a :: a in Irs() ==> a.roomTemp == if a.acId == airId then roomTemp else old(a.roomTemp)
    {
      var acs := GetDevicesByType(AirConBaseClass);
      var i := 0;
      while i < |acs|
        invariant 0 <= i <= |acs|
        invariant forall j :: 0 <= j < i && acs[j].SingleAirDevice? && acs[j].fcu.acId == airId ==> acs[j].fcu.roomTemp == roomTemp
        invariant forall j :: 0 <= j < i && acs[j].InfraredAirDevice? && acs[j].ir.acId == airId ==> acs[j].ir.roomTemp == roomTemp
        invariant forall f :: f in Fcus() && f.acId != airId ==> f.roomTemp == old(f.roomTemp)
        invariant forall a :: a in Irs() && a.acId != airId ==> a.roomTemp == old(a.roomTemp)
      {
        match acs[i] {
          case SingleAirDevice(f) =>
            if f.acId == airId {
              f.UpdateRoomTemp(roomTemp);
            }
          case InfraredAirDevice(a) =>
            if a.acId == airId {
              a.UpdateRoomTemp(roomTemp);
            }
          case _ =>
        }
        i := i + 1;
      }
      forall f | f in Fcus() && f.acId == airId
        ensures f.roomTemp == roomTemp
      {
        var d :| d in devices.Values && d.SingleAirDevice? && d.fcu == f;
        assert d in acs;
      }
      forall a | a in Irs() && a.acId == airId
        ensures a.roomTemp == roomTemp
      {
        var d :| d in devices.Values && d.InfraredAirDevice? && d.ir == a;
        assert d in acs;
      }
    }
  }
}
