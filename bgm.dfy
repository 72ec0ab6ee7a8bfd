/**
 * The background-music amplifier (bgm.cpp, bgm.h): each operation is one
 * bus frame, and the Bluetooth/TF mode it reports back drives the
 * associated backlights.
 */
module Bgm {
  import opened Bytes
  import opened Wrappers
  import opened DeviceBase
  import Indicator
  import PanelInput
  import Rs485Frames

  /** `BGMMode`. */
  datatype BgmMode = TF | BL

  /**
   * The `BGM_CON` device byte and the `BGM_CON_*` command codes. Their
   * values are defined outside the modelled files, so they are a parameter
   * of the device here.
   */
  datatype BgmCodes = BgmCodes(con: byte, play: byte, stop: byte, playPause: byte, prev: byte, next: byte,
                               volumeUp: byte, volumeDown: byte, blOpen: byte, blClose: byte)

  /** The amplifier power frames address byte 0x80 (the voice-control device), sub-device 0x26. */
  function AmpFrame(on: bool): seq<byte>
  {
    Rs485Frames.ResponseFrame(0x80, 0x01, 0x00, 0x26, if on then 0x01 else 0x00)
  }

  /** A transport command: the `BGM_CON` byte with `code` in the last parameter. */
  function ConFrame(codes: BgmCodes, code: byte): seq<byte>
  {
    Rs485Frames.ResponseFrame(codes.con, 0x00, 0x00, 0x00, code)
  }

  /** The command code each fixed transport operation sends. */
  function TransportCode(operation: string, codes: BgmCodes): Option<byte>
  {
    if operation == "播放" then Some(codes.play)
    else if operation == "停止" then Some(codes.stop)
    else if operation == "播放/暂停" then Some(codes.playPause)
    else if operation == "上一首" then Some(codes.prev)
    else if operation == "下一首" then Some(codes.next)
    else if operation == "音量加" then Some(codes.volumeUp)
    else if operation == "音量减" then Some(codes.volumeDown)
    else if operation == "打开蓝牙模式" then Some(codes.blOpen)
    else if operation == "关闭蓝牙模式" then Some(codes.blClose)
    else None
  }

  /** The frame `execute(operation)` sends in mode `mode`, if any. */
  function Sent(operation: string, mode: BgmMode, codes: BgmCodes): Option<seq<byte>>
  {
    if operation == "打开功放" then Some(AmpFrame(true))
    else if operation == "关闭功放" then Some(AmpFrame(false))
    else if operation == "反转模式" then Some(ConFrame(codes, if mode == BL then codes.blClose else codes.blOpen))
    else match TransportCode(operation, codes)
      case Some(code) => Some(ConFrame(codes, code))
      case None => None
  }

  /** "反转模式" sends what the explicit Bluetooth command for the other mode sends, and leaves the mode to the device's report. */
  lemma ToggleSendsOpposite(codes: BgmCodes)
    ensures Sent("反转模式", BL, codes) == Sent("关闭蓝牙模式", BL, codes)
    ensures Sent("反转模式", TF, codes) == Sent("打开蓝牙模式", TF, codes)
  {
  }

  /** Every operation but "反转模式" sends the same frame in either mode. */
  lemma OnlyToggleReadsMode(operation: string, codes: BgmCodes)
    requires operation != "反转模式"
    ensures Sent(operation, TF, codes) == Sent(operation, BL, codes)
  {
  }

  /** The operations that send a frame; every other operation sends nothing. */
  const OPERATIONS: set<string> := {"打开功放", "关闭功放", "播放", "停止", "播放/暂停", "上一首", "下一首",
                                    "音量加", "音量减", "打开蓝牙模式", "关闭蓝牙模式", "反转模式"}

  lemma UnknownSendsNothing(operation: string, mode: BgmMode, codes: BgmCodes)
    ensures Sent(operation, mode, codes).Some? <==> operation in OPERATIONS
  {
  }

  /** The nine transport commands carry their own code in byte 5, after the `BGM_CON` byte. */
  lemma TransportFramesCarryTheirCode(operation: string, mode: BgmMode, codes: BgmCodes)
    requires TransportCode(operation, codes).Some?
    ensures Sent(operation, mode, codes).Some?
    ensures var f := Sent(operation, mode, codes).value;
      f[1] == codes.con && f[5] == TransportCode(operation, codes).value && Rs485Frames.ChecksumOk(f)
  {
  }

  /** With distinct codes, two different transport operations never send the same frame. */
  lemma DistinctCodesDistinctFrames(op1: string, op2: string, codes: BgmCodes)
    requires TransportCode(op1, codes).Some? && TransportCode(op2, codes).Some? && op1 != op2
    requires CodesDistinct(codes)
    ensures Sent(op1, TF, codes) != Sent(op2, TF, codes)
  {
    var c1, c2 := TransportCode(op1, codes).value, TransportCode(op2, codes).value;
    var i, j := Slot(op1), Slot(op2);
    assert Codes(codes)[i] == c1 && Codes(codes)[j] == c2 && i != j;
    if i < j {
      assert c1 != c2;
    } else {
      assert c2 != c1;
    }
    assert Sent(op1, TF, codes).value[5] == c1 && Sent(op2, TF, codes).value[5] == c2;
  }

  /** A transport operation's position in `Codes`. */
  function Slot(operation: string): nat
  {
    if operation == "播放" then 0
    else if operation == "停止" then 1
    else if operation == "播放/暂停" then 2
    else if operation == "上一首" then 3
    else if operation == "下一首" then 4
    else if operation == "音量加" then 5
    else if operation == "音量减" then 6
    else if operation == "打开蓝牙模式" then 7
    else 8
  }

  function Codes(c: BgmCodes): seq<byte>
  {
    [c.play, c.stop, c.playPause, c.prev, c.next, c.volumeUp, c.volumeDown, c.blOpen, c.blClose]
  }

  /** The nine transport codes are pairwise different. */
  predicate CodesDistinct(c: BgmCodes)
  {
    forall i, j :: 0 <= i < j < |Codes(c)| ==> Codes(c)[i] != Codes(c)[j]
  }

  class Bgm {
    /** `IDevice` keeps the id in a `uint8_t`: the low eight bits of the constructor's `uint16_t` argument. */
    const did: byte
    const name: string
    const carryState: string
    const codes: BgmCodes
    var associatedButtons: seq<AssociatedButton>
    var currMode: BgmMode

    /** The amplifier starts in TF-card mode with no buttons. */
    constructor (did: uint16, name: string, carryState: string, codes: BgmCodes)
      ensures this.did == LowByte(did) && this.name == name && this.carryState == carryState && this.codes == codes
      ensures currMode == TF && associatedButtons == []
    {
      this.did, this.name, this.carryState, this.codes := LowByte(did), name, carryState, codes;
      currMode := TF;
      associatedButtons := [];
    }

    method AddAssBtn(pair: AssociatedButton)
      modifies this`associatedButtons
      ensures associatedButtons == old(associatedButtons) + [pair]
    {
      associatedButtons := associatedButtons + [pair];
    }

    /** `isOn`: the amplifier is never taken as on. */
    predicate IsOn()
    {
      false
    }

    /** `execute`: send the operation's frame, if it has one; the mode is left to the amplifier's own report. */
    method Execute(operation: string, port: Rs485Frames.Rs485Port)
      modifies port
      ensures port.queue == old(port.queue) + match Sent(operation, currMode, codes) case Some(f) => [f] case None => []
    {
      if operation == "打开功放" {
        port.GenerateResponse(0x80, 0x01, 0x00, 0x26, 0x01);
      } else if operation == "关闭功放" {
        port.GenerateResponse(0x80, 0x01, 0x00, 0x26, 0x00);
      } else if operation == "播放" {
        port.GenerateResponse(codes.con, 0x00, 0x00, 0x00, codes.play);
      } else if operation == "停止" {
        port.GenerateResponse(codes.con, 0x00, 0x00, 0x00, codes.stop);
      } else if operation == "播放/暂停" {
        port.GenerateResponse(codes.con, 0x00, 0x00, 0x00, codes.playPause);
      } else if operation == "上一首" {
        port.GenerateResponse(codes.con, 0x00, 0x00, 0x00, codes.prev);
      } else if operation == "下一首" {
        port.GenerateResponse(codes.con, 0x00, 0x00, 0x00, codes.next);
      } else if operation == "音量加" {
        port.GenerateResponse(codes.con, 0x00, 0x00, 0x00, codes.volumeUp);
      } else if operation == "音量减" {
        port.GenerateResponse(codes.con, 0x00, 0x00, 0x00, codes.volumeDown);
      } else if operation == "打开蓝牙模式" {
        port.GenerateResponse(codes.con, 0x00, 0x00, 0x00, codes.blOpen);
      } else if operation == "关闭蓝牙模式" {
        port.GenerateResponse(codes.con, 0x00, 0x00, 0x00, codes.blClose);
      } else if operation == "反转模式" {
        if currMode == BL {
          port.GenerateResponse(codes.con, 0x00, 0x00, 0x00, codes.blClose);
        } else {
          port.GenerateResponse(codes.con, 0x00, 0x00, 0x00, codes.blOpen);
        }
      }
    }

    /** `syncAssBtnToDevState`: the associated backlights show whether Bluetooth mode is on. */
    method SyncAssBtnToDevState(panels: map<byte, PanelInput.Panel>, holder: Indicator.IndicatorHolder)
      requires PanelsValid(panels) && holder.Valid()
      modifies panels.Values`buttonBlStates, holder
      ensures PanelsValid(panels) && holder.Valid()
      ensures forall p :: p in panels ==>
        panels[p].buttonBlStates == Indicated(old(panels[p].buttonBlStates), View(panels), p, associatedButtons, currMode == BL)
      ensures holder.Contents() == Queued(old(holder.Contents()), View(panels), associatedButtons)
    {
      IndicateButtons(associatedButtons, currMode == BL, panels, holder);
    }

    /** `changeMode`: record the mode the amplifier reported, then resynchronise the backlights. */
    method ChangeMode(mode: BgmMode, panels: map<byte, PanelInput.Panel>, holder: Indicator.IndicatorHolder)
      requires PanelsValid(panels) && holder.Valid()
      modifies this`currMode, panels.Values`buttonBlStates, holder
      ensures currMode == mode
      ensures PanelsValid(panels) && holder.Valid()
      ensures forall p :: p in panels ==>
        panels[p].buttonBlStates == Indicated(old(panels[p].buttonBlStates), View(panels), p, associatedButtons, mode == BL)
      ensures holder.Contents() == Queued(old(holder.Contents()), View(panels), associatedButtons)
    {
      currMode := mode;
      SyncAssBtnToDevState(panels, holder);
    }
  }
}
