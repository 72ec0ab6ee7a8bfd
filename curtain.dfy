/**
 * A motorised curtain driven by two relays, one per direction
 * (curtain.cpp, curtain.h). Pressing "开" or "关" starts, stops or
 * reverses the motor; the task that waits out the running time is the
 * `CompleteAction` event here. Every backlight change is flushed at once.
 */
module Curtain {
  import opened Bytes
  import opened DeviceBase
  import Indicator
  import PanelInput
  import Stm32Frames

  /** `CurtainState`. */
  datatype Phase = Closed | Opened | Opening | Closing | Stopped

  /** `LastAction`. */
  datatype LastAction = NoAction | LastOpening | LastClosing

  /** `isOn`: a curtain counts as on unless it is closed or closing. */
  predicate PhaseIsOn(s: Phase)
  {
    !(s.Closed? || s.Closing?)
  }

  /** The frame that switches relay `channel` on or off. */
  function RelayFrame(channel: byte, on: bool): Stm32Frames.Frame
  {
    Stm32Frames.Built(Stm32Frames.CMD_RELAY_CONTROL, 0, channel, if on then 1 else 0, 0)
  }

  /** `stopCurrentAction`: only the relay of the direction in motion is switched off. */
  function StopFrames(s: Phase, openChannel: byte, closeChannel: byte): seq<Stm32Frames.Frame>
  {
    if s.Opening? then [RelayFrame(openChannel, false)]
    else if s.Closing? then [RelayFrame(closeChannel, false)]
    else []
  }

  /** The phase after "开". */
  function OpenedFrom(s: Phase): Phase
  {
    match s
    case Opened => Opened
    case Closed | Stopped => Opening
    case Opening => Stopped
    case Closing => Opening
  }

  /** The phase after "关". */
  function ClosedFrom(s: Phase): Phase
  {
    match s
    case Closed => Closed
    case Opened | Stopped => Closing
    case Closing => Stopped
    case Opening => Closing
  }

  /** The phase after the running time has elapsed (`completeAction`). */
  function CompletedFrom(s: Phase): Phase
  {
    match s
    case Opening => Opened
    case Closing => Closed
    case _ => s
  }

  /** The relay frames sent by "开". */
  function OpenFrames(s: Phase, openChannel: byte, closeChannel: byte): seq<Stm32Frames.Frame>
  {
    match s
    case Opened => []
    case Closed | Stopped => [RelayFrame(openChannel, true)]
    case Opening => [RelayFrame(openChannel, false)]
    case Closing => [RelayFrame(closeChannel, false), RelayFrame(openChannel, true)]
  }

  /** The relay frames sent by "关". */
  function CloseFrames(s: Phase, openChannel: byte, closeChannel: byte): seq<Stm32Frames.Frame>
  {
    match s
    case Closed => []
    case Opened | Stopped => [RelayFrame(closeChannel, true)]
    case Closing => [RelayFrame(closeChannel, false)]
    case Opening => [RelayFrame(openChannel, false), RelayFrame(closeChannel, true)]
  }

  /** The backlight calls made by "开": the open buttons end lit only when the curtain starts opening. */
  function OpenLights(s: Phase, openButtons: seq<AssociatedButton>, closeButtons: seq<AssociatedButton>): seq<Light>
  {
    match s
    case Opened => [Light(openButtons, false)]
    case Closed | Stopped => [Light(openButtons, true)]
    case Opening => [Light(openButtons, false)]
    case Closing => [Light(closeButtons, false), Light(openButtons, false), Light(openButtons, true)]
  }

  /** The backlight calls made by "关". */
  function CloseLights(s: Phase, openButtons: seq<AssociatedButton>, closeButtons: seq<AssociatedButton>): seq<Light>
  {
    match s
    case Closed => [Light(closeButtons, false)]
    case Opened | Stopped => [Light(closeButtons, true)]
    case Closing => [Light(closeButtons, false)]
    case Opening => [Light(openButtons, false), Light(closeButtons, false), Light(closeButtons, true)]
  }

  /** The phase with the two directions swapped. */
  function Mirror(s: Phase): Phase
  {
    match s
    case Closed => Opened
    case Opened => Closed
    case Opening => Closing
    case Closing => Opening
    case Stopped => Stopped
  }

  /** "关" is "开" with the directions swapped, for the phase, the relays and the backlights. */
  lemma CloseMirrorsOpen(s: Phase, openChannel: byte, closeChannel: byte, openButtons: seq<AssociatedButton>, closeButtons: seq<AssociatedButton>)
    ensures ClosedFrom(s) == Mirror(OpenedFrom(Mirror(s)))
    ensures CloseFrames(s, openChannel, closeChannel) == OpenFrames(Mirror(s), closeChannel, openChannel)
    ensures CloseLights(s, openButtons, closeButtons) == OpenLights(Mirror(s), closeButtons, openButtons)
  {
  }

  /**
   * The panels "开" publishes: every panel queued before, every panel an
   * open button names, and, when it reverses a closing curtain, every
   * panel a close button names.
   */
  lemma {:induction false} OpenPublishes(s: Phase, q0: Indicator.Queue, view: PanelView,
                                         openButtons: seq<AssociatedButton>, closeButtons: seq<AssociatedButton>, k: int)
    requires Indicator.Balanced(q0) && Indicator.Keyed(q0)
    ensures Indicator.PublishBacklight(k) in Flushed(q0, view, OpenLights(s, openButtons, closeButtons)) <==>
      Indicator.PublishBacklight(k) in q0.functions || Named(openButtons, view, k) || (s.Closing? && Named(closeButtons, view, k))
  {
    var lights := OpenLights(s, openButtons, closeButtons);
    FlushedPanels(q0, view, lights);
    if NamedByAny(lights, view, k) {
      var i :| 0 <= i < |lights| && Named(lights[i].buttons, view, k);
    }
    if Named(openButtons, view, k) {
      assert Named(lights[|lights| - 1].buttons, view, k);
    }
    if s.Closing? && Named(closeButtons, view, k) {
      assert Named(lights[0].buttons, view, k);
    }
  }

  /** Pressing "开" repeatedly from closed: start, stop, start again; the running time then completes the opening. */
  lemma OpenPressSequence()
    ensures OpenedFrom(Closed) == Opening
    ensures OpenedFrom(OpenedFrom(Closed)) == Stopped
    ensures OpenedFrom(OpenedFrom(OpenedFrom(Closed))) == Opening
    ensures CompletedFrom(OpenedFrom(Closed)) == Opened && OpenedFrom(Opened) == Opened
  {
  }

  /** A motor is running exactly in the moving phases, after any press or completion. */
  lemma MotorRunsWhileMoving(s: Phase)
    ensures (OpenedFrom(s).Opening? || OpenedFrom(s).Closing?) <==> s in {Closed, Stopped, Closing}
    ensures (ClosedFrom(s).Opening? || ClosedFrom(s).Closing?) <==> s in {Opened, Stopped, Opening}
    ensures !(CompletedFrom(s).Opening? || CompletedFrom(s).Closing?)
  {
  }

  class Curtain {
    /** `IDevice` keeps the id in a `uint8_t`: the low eight bits of the constructor's `uint16_t` argument. */
    const did: byte
    const name: string
    const carryState: string
    const openChannel: byte
    const closeChannel: byte
    const runtime: nat
    var state: Phase
    var lastAction: LastAction
    var openButtons: seq<AssociatedButton>
    var closeButtons: seq<AssociatedButton>
    var actionButtons: seq<AssociatedButton>
    /** `actionTaskHandle != nullptr`: the task that completes the movement is pending. */
    var taskRunning: bool

    /** The completion task is pending exactly while the curtain moves. */
    ghost predicate Valid()
      reads this
    {
      taskRunning <==> (state.Opening? || state.Closing?)
    }

    constructor (did: uint16, name: string, carryState: string, openChannel: byte, closeChannel: byte, runtime: nat)
      ensures Valid() && state == Closed && lastAction == NoAction && !taskRunning
      ensures openButtons == [] && closeButtons == [] && actionButtons == []
      ensures this.did == LowByte(did) && this.name == name && this.carryState == carryState
      ensures this.openChannel == openChannel && this.closeChannel == closeChannel && this.runtime == runtime
    {
      this.did, this.name, this.carryState := LowByte(did), name, carryState;
      this.openChannel, this.closeChannel, this.runtime := openChannel, closeChannel, runtime;
      state, lastAction := Closed, NoAction;
      openButtons, closeButtons, actionButtons := [], [], [];
      taskRunning := false;
    }

    /** `isOn`. */
    predicate IsOn()
      reads this
    {
      PhaseIsOn(state)
    }

    method AddOpenAssBtn(pair: AssociatedButton)
      modifies this`openButtons
      ensures openButtons == old(openButtons) + [pair]
    {
      openButtons := openButtons + [pair];
    }

    method AddCloseAssBtn(pair: AssociatedButton)
      modifies this`closeButtons
      ensures closeButtons == old(closeButtons) + [pair]
    {
      closeButtons := closeButtons + [pair];
    }

    /** The relay of `channel` on, the new phase and a fresh completion task. */
    method StartMotor(channel: byte, newState: Phase, buttons: seq<AssociatedButton>, board: Stm32Frames.Stm32Port)
      requires newState.Opening? || newState.Closing?
      modifies this`state, this`taskRunning, this`actionButtons, board
      ensures Valid() && state == newState && actionButtons == buttons
      ensures board.sent == old(board.sent) + [RelayFrame(channel, true)]
    {
      board.ControlRelay(channel, true);
      state, taskRunning, actionButtons := newState, true, buttons;
    }

    /** `startAction`: the direction's relay on, the new phase, a fresh completion task, and the buttons lit. */
    method StartAction(channel: byte, newState: Phase, buttons: seq<AssociatedButton>,
                       panels: map<byte, PanelInput.Panel>, holder: Indicator.IndicatorHolder, board: Stm32Frames.Stm32Port,
                       ghost lights: seq<Light>, ghost masks0: map<byte, bv8>)
      returns (flushed: seq<Indicator.Publish>)
      requires newState.Opening? || newState.Closing?
      requires PanelsValid(panels) && holder.Valid()
      requires Shows(panels, masks0, lights)
      modifies this`state, this`taskRunning, this`actionButtons, panels.Values`buttonBlStates, holder, board
      ensures Valid() && state == newState && actionButtons == buttons
      ensures board.sent == old(board.sent) + [RelayFrame(channel, true)]
      ensures PanelsValid(panels) && holder.Valid() && holder.Contents() == Indicator.Queue([], {})
      ensures Shows(panels, masks0, lights + [Light(buttons, true)])
      ensures flushed == Flushed(old(holder.Contents()), View(panels), [Light(buttons, true)]) && View(panels) == old(View(panels))
    {
      StartMotor(channel, newState, buttons, board);
      flushed := ShowAndFlush(buttons, true, panels, holder, lights, masks0);
    }

    /** The relay of the direction in motion, if any, goes off; the curtain stops and the task is cancelled. */
    method StopMotor(board: Stm32Frames.Stm32Port)
      modifies this`state, this`taskRunning, board
      ensures Valid() && state == Stopped
      ensures board.sent == old(board.sent) + StopFrames(old(state), openChannel, closeChannel)
    {
      if state.Opening? {
        board.ControlRelay(openChannel, false);
      } else if state.Closing? {
        board.ControlRelay(closeChannel, false);
      }
      state, taskRunning := Stopped, false;
    }

    /** `stopCurrentAction`: switch off the moving direction's relay, stop, cancel the task, and darken the action buttons. */
    method StopCurrentAction(panels: map<byte, PanelInput.Panel>, holder: Indicator.IndicatorHolder, board: Stm32Frames.Stm32Port,
                             ghost lights: seq<Light>, ghost masks0: map<byte, bv8>)
      returns (flushed: seq<Indicator.Publish>)
      requires PanelsValid(panels) && holder.Valid()
      requires Shows(panels, masks0, lights)
      modifies this`state, this`taskRunning, panels.Values`buttonBlStates, holder, board
      ensures Valid() && state == Stopped
      ensures board.sent == old(board.sent) + StopFrames(old(state), openChannel, closeChannel)
      ensures PanelsValid(panels) && holder.Valid() && holder.Contents() == Indicator.Queue([], {})
      ensures Shows(panels, masks0, lights + [Light(actionButtons, false)])
      ensures flushed == Flushed(old(holder.Contents()), View(panels), [Light(actionButtons, false)]) && View(panels) == old(View(panels))
    {
      StopMotor(board);
      flushed := ShowAndFlush(actionButtons, false, panels, holder, lights, masks0);
    }

    /** A press towards the phase the curtain already rests in: only the pressed buttons are darkened. */
    method Settle(own: seq<AssociatedButton>, panels: map<byte, PanelInput.Panel>, holder: Indicator.IndicatorHolder)
      returns (flushed: seq<Indicator.Publish>)
      requires Valid() && PanelsValid(panels) && holder.Valid()
      modifies this`actionButtons, panels.Values`buttonBlStates, holder
      ensures Valid() && actionButtons == own
      ensures PanelsValid(panels) && holder.Valid() && holder.Contents() == Indicator.Queue([], {})
      ensures Shows(panels, old(Masks(panels)), [Light(own, false)])
      ensures flushed == Flushed(old(holder.Contents()), View(panels), [Light(own, false)])
    {
      ghost var masks0 := Masks(panels);
      assert Shows(panels, masks0, []);
      actionButtons := own;
      flushed := ShowAndFlush(own, false, panels, holder, [], masks0);
      assert [] + [Light(own, false)] == [Light(own, false)];
    }

    /** A press from rest: remember the direction and start the motor towards `target`. */
    method Depart(own: seq<AssociatedButton>, channel: byte, target: Phase, last: LastAction,
                  panels: map<byte, PanelInput.Panel>, holder: Indicator.IndicatorHolder, board: Stm32Frames.Stm32Port)
      returns (flushed: seq<Indicator.Publish>)
      requires target.Opening? || target.Closing?
      requires PanelsValid(panels) && holder.Valid()
      modifies this`state, this`taskRunning, this`actionButtons, this`lastAction, panels.Values`buttonBlStates, holder, board
      ensures Valid() && state == target && actionButtons == own && lastAction == last
      ensures board.sent == old(board.sent) + [RelayFrame(channel, true)]
      ensures PanelsValid(panels) && holder.Valid() && holder.Contents() == Indicator.Queue([], {})
      ensures Shows(panels, old(Masks(panels)), [Light(own, true)])
      ensures flushed == Flushed(old(holder.Contents()), View(panels), [Light(own, true)])
    {
      ghost var masks0 := Masks(panels);
      assert Shows(panels, masks0, []);
      lastAction := last;
      flushed := StartAction(channel, target, own, panels, holder, board, [], masks0);
      assert [] + [Light(own, true)] == [Light(own, true)];
    }

    /** A press in the direction of motion: the curtain stops where it is. */
    method Halt(own: seq<AssociatedButton>, panels: map<byte, PanelInput.Panel>, holder: Indicator.IndicatorHolder, board: Stm32Frames.Stm32Port)
      returns (flushed: seq<Indicator.Publish>)
      requires PanelsValid(panels) && holder.Valid()
      modifies this`state, this`taskRunning, this`actionButtons, panels.Values`buttonBlStates, holder, board
      ensures Valid() && state == Stopped && actionButtons == own
      ensures board.sent == old(board.sent) + StopFrames(old(state), openChannel, closeChannel)
      ensures PanelsValid(panels) && holder.Valid() && holder.Contents() == Indicator.Queue([], {})
      ensures Shows(panels, old(Masks(panels)), [Light(own, false)])
      ensures flushed == Flushed(old(holder.Contents()), View(panels), [Light(own, false)])
    {
      ghost var masks0 := Masks(panels);
      assert Shows(panels, masks0, []);
      actionButtons := own;
      flushed := StopCurrentAction(panels, holder, board, [], masks0);
      assert [] + [Light(own, false)] == [Light(own, false)];
    }

    /** Stop, then start again towards `target` on `channel` with the same action buttons. */
    method Restart(channel: byte, target: Phase,
                   panels: map<byte, PanelInput.Panel>, holder: Indicator.IndicatorHolder, board: Stm32Frames.Stm32Port,
                   ghost lights: seq<Light>, ghost masks0: map<byte, bv8>)
      returns (flushed: seq<Indicator.Publish>)
      requires target.Opening? || target.Closing?
      requires PanelsValid(panels) && holder.Valid() && Shows(panels, masks0, lights)
      modifies this`state, this`taskRunning, this`actionButtons, panels.Values`buttonBlStates, holder, board
      ensures Valid() && state == target && actionButtons == old(actionButtons)
      ensures board.sent == old(board.sent) + StopFrames(old(state), openChannel, closeChannel) + [RelayFrame(channel, true)]
      ensures PanelsValid(panels) && holder.Valid() && holder.Contents() == Indicator.Queue([], {})
      ensures Shows(panels, masks0, lights + [Light(actionButtons, false), Light(actionButtons, true)])
      ensures flushed == Flushed(old(holder.Contents()), View(panels), [Light(actionButtons, false), Light(actionButtons, true)]) && View(panels) == old(View(panels))
    {
      ghost var q0, view := holder.Contents(), View(panels);
      var stopped := StopCurrentAction(panels, holder, board, lights, masks0);
      var started := StartAction(channel, target, actionButtons, panels, holder, board, lights + [Light(actionButtons, false)], masks0);
      flushed := stopped + started;
      FlushedAfterFirst(q0, view, Light(actionButtons, false), [Light(actionButtons, true)]);
      assert [Light(actionButtons, false)] + [Light(actionButtons, true)] == [Light(actionButtons, false), Light(actionButtons, true)];
      assert lights + [Light(actionButtons, false)] + [Light(actionButtons, true)] == lights + [Light(actionButtons, false), Light(actionButtons, true)];
    }

    /** A press against the motion: darken `other`, stop, and start again on `channel` towards `target`. */
    method Turn(other: seq<AssociatedButton>, own: seq<AssociatedButton>, channel: byte, target: Phase, last: LastAction,
                panels: map<byte, PanelInput.Panel>, holder: Indicator.IndicatorHolder, board: Stm32Frames.Stm32Port)
      returns (flushed: seq<Indicator.Publish>)
      requires target.Opening? || target.Closing?
      requires PanelsValid(panels) && holder.Valid()
      modifies this`state, this`taskRunning, this`actionButtons, this`lastAction, panels.Values`buttonBlStates, holder, board
      ensures Valid() && state == target && actionButtons == own && lastAction == last
      ensures board.sent == old(board.sent) + StopFrames(old(state), openChannel, closeChannel) + [RelayFrame(channel, true)]
      ensures PanelsValid(panels) && holder.Valid() && holder.Contents() == Indicator.Queue([], {})
      ensures Shows(panels, old(Masks(panels)), [Light(other, false), Light(own, false), Light(own, true)])
      ensures flushed == Flushed(old(holder.Contents()), View(panels), [Light(other, false), Light(own, false), Light(own, true)])
    {
      ghost var masks0 := Masks(panels);
      assert Shows(panels, masks0, []);
      lastAction, actionButtons := last, own;
      ghost var q0, view := holder.Contents(), View(panels);
      var darkened := ShowAndFlush(other, false, panels, holder, [], masks0);
      assert [] + [Light(other, false)] == [Light(other, false)];
      var restarted := Restart(channel, target, panels, holder, board, [Light(other, false)], masks0);
      flushed := darkened + restarted;
      FlushedAfterFirst(q0, view, Light(other, false), [Light(own, false), Light(own, true)]);
      assert [Light(other, false)] + [Light(own, false), Light(own, true)] == [Light(other, false), Light(own, false), Light(own, true)];
    }

    /** `handleOpenAction`, the "开" operation. */
    method HandleOpenAction(panels: map<byte, PanelInput.Panel>, holder: Indicator.IndicatorHolder, board: Stm32Frames.Stm32Port)
      returns (flushed: seq<Indicator.Publish>)
      requires Valid() && PanelsValid(panels) && holder.Valid()
      modifies this`state, this`taskRunning, this`actionButtons, this`lastAction, panels.Values`buttonBlStates, holder, board
      ensures Valid() && state == OpenedFrom(old(state)) && actionButtons == openButtons
      ensures lastAction == if old(state).Opened? || old(state).Opening? then old(lastAction) else LastOpening
      ensures board.sent == old(board.sent) + OpenFrames(old(state), openChannel, closeChannel)
      ensures PanelsValid(panels) && holder.Contents() == Indicator.Queue([], {}) && holder.Valid()
      ensures Shows(panels, old(Masks(panels)), OpenLights(old(state), openButtons, closeButtons))
      ensures flushed == Flushed(old(holder.Contents()), View(panels), OpenLights(old(state), openButtons, closeButtons))
    {
      ghost var s0 := state;
      assert OpenedFrom(s0) == OpenedFrom(old(state)) && OpenFrames(s0, openChannel, closeChannel) == OpenFrames(old(state), openChannel, closeChannel);
      match state {
        case Opened => flushed := Settle(openButtons, panels, holder);
        case Closed => flushed := Depart(openButtons, openChannel, Opening, LastOpening, panels, holder, board);
        case Stopped => flushed := Depart(openButtons, openChannel, Opening, LastOpening, panels, holder, board);
        case Opening =>
          assert StopFrames(s0, openChannel, closeChannel) == OpenFrames(s0, openChannel, closeChannel);
          flushed := Halt(openButtons, panels, holder, board);
        case Closing =>
          assert StopFrames(s0, openChannel, closeChannel) + [RelayFrame(openChannel, true)] == OpenFrames(s0, openChannel, closeChannel);
          flushed := Turn(closeButtons, openButtons, openChannel, Opening, LastOpening, panels, holder, board);
      }
    }

    /** `handleCloseAction`, the "关" operation. */
    method HandleCloseAction(panels: map<byte, PanelInput.Panel>, holder: Indicator.IndicatorHolder, board: Stm32Frames.Stm32Port)
      returns (flushed: seq<Indicator.Publish>)
      requires Valid() && PanelsValid(panels) && holder.Valid()
      modifies this`state, this`taskRunning, this`actionButtons, this`lastAction, panels.Values`buttonBlStates, holder, board
      ensures Valid() && state == ClosedFrom(old(state)) && actionButtons == closeButtons
      ensures lastAction == if old(state).Closed? || old(state).Closing? then old(lastAction) else LastClosing
      ensures board.sent == old(board.sent) + CloseFrames(old(state), openChannel, closeChannel)
      ensures PanelsValid(panels) && holder.Contents() == Indicator.Queue([], {}) && holder.Valid()
      ensures Shows(panels, old(Masks(panels)), CloseLights(old(state), openButtons, closeButtons))
      ensures flushed == Flushed(old(holder.Contents()), View(panels), CloseLights(old(state), openButtons, closeButtons))
    {
      ghost var s0 := state;
      assert ClosedFrom(s0) == ClosedFrom(old(state)) && CloseFrames(s0, openChannel, closeChannel) == CloseFrames(old(state), openChannel, closeChannel);
      match state {
        case Closed => flushed := Settle(closeButtons, panels, holder);
        case Opened => flushed := Depart(closeButtons, closeChannel, Closing, LastClosing, panels, holder, board);
        case Stopped => flushed := Depart(closeButtons, closeChannel, Closing, LastClosing, panels, holder, board);
        case Closing =>
          assert StopFrames(s0, openChannel, closeChannel) == CloseFrames(s0, openChannel, closeChannel);
          flushed := Halt(closeButtons, panels, holder, board);
        case Opening =>
          assert StopFrames(s0, openChannel, closeChannel) + [RelayFrame(closeChannel, true)] == CloseFrames(s0, openChannel, closeChannel);
          flushed := Turn(openButtons, closeButtons, closeChannel, Closing, LastClosing, panels, holder, board);
      }
    }

    /** `completeAction`: the running time is over; the moving direction's relay goes off and the curtain rests. */
    method CompleteAction(panels: map<byte, PanelInput.Panel>, holder: Indicator.IndicatorHolder, board: Stm32Frames.Stm32Port)
      returns (flushed: seq<Indicator.Publish>)
      requires PanelsValid(panels) && holder.Valid()
      modifies this`state, this`taskRunning, this`lastAction, panels.Values`buttonBlStates, holder, board
      ensures Valid() && !taskRunning && state == CompletedFrom(old(state))
      ensures lastAction == if old(state).Opening? || old(state).Closing? then NoAction else old(lastAction)
      ensures board.sent == old(board.sent) + StopFrames(old(state), openChannel, closeChannel)
      ensures PanelsValid(panels) && holder.Valid()
      ensures Shows(panels, old(Masks(panels)), if old(state).Opening? || old(state).Closing? then [Light(actionButtons, false)] else [])
      ensures (old(state).Opening? || old(state).Closing?) ==> holder.Contents() == Indicator.Queue([], {})
      ensures !(old(state).Opening? || old(state).Closing?) ==> holder.Contents() == old(holder.Contents())
      ensures flushed == Flushed(old(holder.Contents()), View(panels), if old(state).Opening? || old(state).Closing? then [Light(actionButtons, false)] else [])
    {
      ghost var masks0 := Masks(panels);
      assert Shows(panels, masks0, []);
      var moving := state.Opening? || state.Closing?;
      PanelsApart(panels, this, holder, board);
      Arrive(board);
      flushed := [];
      if moving {
        flushed := ShowAndFlush(actionButtons, false, panels, holder, [], masks0);
        assert [] + [Light(actionButtons, false)] == [Light(actionButtons, false)];
      }
    }

    /** The panels are none of the other objects a curtain step touches. */
    static lemma PanelsApart(panels: map<byte, PanelInput.Panel>, c: Curtain, holder: Indicator.IndicatorHolder, board: Stm32Frames.Stm32Port)
      ensures forall p :: p in panels.Values ==> p as object != c && p as object != holder && p as object != board
      ensures c as object != holder && c as object != board && holder as object != board
    {
    }

    /** The relay of the direction in motion goes off and the curtain rests at the end it was moving to; the task is gone. */
    method Arrive(board: Stm32Frames.Stm32Port)
      modifies this`state, this`taskRunning, this`lastAction, board
      ensures Valid() && !taskRunning && state == CompletedFrom(old(state))
      ensures lastAction == if old(state).Opening? || old(state).Closing? then NoAction else old(lastAction)
      ensures board.sent == old(board.sent) + StopFrames(old(state), openChannel, closeChannel)
    {
      if state.Opening? {
        board.ControlRelay(openChannel, false);
        state, lastAction := Opened, NoAction;
      } else if state.Closing? {
        board.ControlRelay(closeChannel, false);
        state, lastAction := Closed, NoAction;
      }
      taskRunning := false;
    }

    /** `execute`: "开" and "关" drive the curtain; "反转" and every other operation are ignored. */
    method Execute(operation: string, panels: map<byte, PanelInput.Panel>, holder: Indicator.IndicatorHolder, board: Stm32Frames.Stm32Port)
      returns (flushed: seq<Indicator.Publish>)
      requires Valid() && PanelsValid(panels) && holder.Valid()
      modifies this`state, this`taskRunning, this`actionButtons, this`lastAction, panels.Values`buttonBlStates, holder, board
      ensures Valid() && PanelsValid(panels) && holder.Valid()
      ensures operation == "开" ==>
        state == OpenedFrom(old(state)) && board.sent == old(board.sent) + OpenFrames(old(state), openChannel, closeChannel)
        && flushed == Flushed(old(holder.Contents()), View(panels), OpenLights(old(state), openButtons, closeButtons))
      ensures operation == "关" ==>
        state == ClosedFrom(old(state)) && board.sent == old(board.sent) + CloseFrames(old(state), openChannel, closeChannel)
        && flushed == Flushed(old(holder.Contents()), View(panels), CloseLights(old(state), openButtons, closeButtons))
      ensures operation != "开" && operation != "关" ==>
        state == old(state) && lastAction == old(lastAction) && taskRunning == old(taskRunning) && actionButtons == old(actionButtons)
        && board.sent == old(board.sent) && holder.Contents() == old(holder.Contents()) && flushed == []
        && forall p :: p in panels ==> panels[p].buttonBlStates == old(panels[p].buttonBlStates)
    {
      flushed := [];
      if operation == "开" {
        flushed := HandleOpenAction(panels, holder, board);
      } else if operation == "关" {
        flushed := HandleCloseAction(panels, holder, board);
      }
    }
  }
}
