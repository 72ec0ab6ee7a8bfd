/**
 * What every output device shares (idevice.cpp, idevice.h): the room
 * state it carries while on, the panel buttons whose backlights mirror
 * it, and the two propagation hooks (linked devices follow it, repelled
 * devices are switched off), which this snapshot only has in comments and
 * which the model therefore records as effects instead of performing.
 */
module DeviceBase {
  import opened Bytes
  import RoomState
  import Indicator
  import PanelInput
  import opened Wrappers

  /** `PanelButtonPair`: a (panel id, button id) whose backlight follows the device. */
  datatype AssociatedButton = AssociatedButton(pid: byte, bid: byte)

  /** `sync_link_devices(operation)` and `close_repel_devices()` as called by a device. */
  datatype Propagation = SyncLinks(did: int, operation: string) | CloseRepel(did: int)

  /** The propagation requests made, in order. */
  class PropagationLog {
    var effects: seq<Propagation>

    constructor ()
      ensures effects == []
    {
      effects := [];
    }

    method Record(e: Propagation)
      modifies this
      ensures effects == old(effects) + [e]
    {
      effects := effects + [e];
    }

    /** The requests of one `open_self` (`on`) or `close_self`. */
    method RecordSwitch(did: int, on: bool)
      modifies this
      ensures effects == old(effects) + Propagated(did, on)
    {
      if on {
        Record(SyncLinks(did, "开"));
        Record(CloseRepel(did));
      } else {
        Record(SyncLinks(did, "关"));
      }
    }
  }

  /** The room states after a device carrying `carry` switches on or off. */
  function Carried(states: seq<string>, carry: string, on: bool): seq<string>
  {
    if carry == "" then states
    else if on then RoomState.Added(states, carry)
    else RoomState.Removed(states, carry)
  }

  /**
   * `change_state`: no carried state leaves the set alone; otherwise the
   * carried state is present exactly when the device is on, and no other
   * state changes membership.
   */
  lemma CarriedSpec(states: seq<string>, carry: string, on: bool)
    requires RoomState.NoDup(states)
    ensures RoomState.NoDup(Carried(states, carry, on))
    ensures carry == "" ==> Carried(states, carry, on) == states
    ensures carry != "" ==> (carry in Carried(states, carry, on) <==> on)
    ensures forall t :: t != carry ==> (t in Carried(states, carry, on) <==> t in states)
  {
    if carry != "" {
      if on {
        RoomState.AddedSpec(states, carry);
      } else {
        RoomState.RemovedSpec(states, carry);
      }
    }
  }

  /** Switching on twice leaves one copy of the carried state: the second call changes nothing. */
  lemma CarriedTwiceIsOnce(states: seq<string>, carry: string)
    requires RoomState.NoDup(states)
    ensures Carried(Carried(states, carry, true), carry, true) == Carried(states, carry, true)
  {
    if carry != "" {
      RoomState.AddedSpec(states, carry);
    }
  }

  /** `IDevice::change_state`. */
  method ChangeState(carry: string, on: bool, rooms: RoomState.RoomStates)
    requires rooms.Valid()
    modifies rooms
    ensures rooms.Valid()
    ensures rooms.states == Carried(old(rooms.states), carry, on)
  {
    if carry == "" {
      return;
    }
    if on {
      rooms.AddState(carry);
    } else {
      var _ := rooms.RemoveState(carry);
    }
  }

  /** Which button ids each registered panel has, by panel id. */
  type PanelView = map<byte, set<byte>>

  /** The panel registry's invariant: each panel is stored under its own id and is itself valid. */
  ghost predicate PanelsValid(panels: map<byte, PanelInput.Panel>)
    reads panels.Values`buttonsMap
  {
    forall p :: p in panels ==> panels[p].pid == p && panels[p].Valid()
  }

  ghost function View(panels: map<byte, PanelInput.Panel>): PanelView
    reads panels.Values`buttonsMap
  {
    map p | p in panels :: panels[p].buttonsMap.Keys
  }

  /** `a` names an existing button of panel `pid`. */
  predicate Targets(a: AssociatedButton, view: PanelView, pid: byte)
  {
    a.pid == pid && pid in view && a.bid in view[pid]
  }

  /** Panel `pid`'s backlight byte after `updateButtonIndicator` has gone through `buttons`. */
  function Indicated(mask: bv8, view: PanelView, pid: byte, buttons: seq<AssociatedButton>, on: bool): bv8
  {
    if buttons == [] then mask
    else
      var prev := Indicated(mask, view, pid, buttons[..|buttons| - 1], on);
      var a := buttons[|buttons| - 1];
      if Targets(a, view, pid) then WithBit(prev, a.bid, on) else prev
  }

  /** The indicator queue after the same walk: one publish request per panel that had a known button. */
  function Queued(q: Indicator.Queue, view: PanelView, buttons: seq<AssociatedButton>): Indicator.Queue
  {
    if buttons == [] then q
    else
      var prev := Queued(q, view, buttons[..|buttons| - 1]);
      var a := buttons[|buttons| - 1];
      if Targets(a, view, a.pid) then Indicator.Added(prev, Indicator.PublishBacklight(a.pid), a.pid) else prev
  }

  /**
   * What the walk means for one panel: a backlight bit that some associated
   * button names is set to the device state; every other bit (other
   * buttons, buttons the panel does not have, buttons of missing panels)
   * keeps its value.
   */
  lemma {:induction false} IndicatedBits(mask: bv8, view: PanelView, pid: byte, buttons: seq<AssociatedButton>, on: bool, j: nat)
    requires j < 8
    ensures Bit(Indicated(mask, view, pid, buttons, on), j) ==
      if exists a :: a in buttons && Targets(a, view, pid) && a.bid == j then on else Bit(mask, j)
  {
    if buttons != [] {
      var init := buttons[..|buttons| - 1];
      var a := buttons[|buttons| - 1];
      IndicatedBits(mask, view, pid, init, on, j);
      assert buttons == init + [a];
      if exists b :: b in init && Targets(b, view, pid) && b.bid == j {
        var b :| b in init && Targets(b, view, pid) && b.bid == j;
        assert b in buttons;
      }
    }
  }

  /** Some associated button names an existing button of panel `k`. */
  predicate Named(buttons: seq<AssociatedButton>, view: PanelView, k: int)
  {
    exists a :: a in buttons && Targets(a, view, a.pid) && a.pid == k
  }

  /** The walk queues every panel that has an associated button, and only those, keeping the queue balanced. */
  lemma {:induction false} QueuedPanels(q: Indicator.Queue, view: PanelView, buttons: seq<AssociatedButton>)
    requires Indicator.Balanced(q)
    ensures Indicator.Balanced(Queued(q, view, buttons))
    ensures forall k :: k in Queued(q, view, buttons).registered <==> k in q.registered || Named(buttons, view, k)
  {
    if buttons != [] {
      var init := buttons[..|buttons| - 1];
      var a := buttons[|buttons| - 1];
      QueuedPanels(q, view, init);
      Indicator.AddedQueuesOnlyNewKeys(Queued(q, view, init), Indicator.PublishBacklight(a.pid), a.pid);
      assert buttons == init + [a];
      forall k | Named(buttons, view, k)
        ensures k in Queued(q, view, buttons).registered
      {
        var b :| b in buttons && Targets(b, view, b.pid) && b.pid == k;
        if b != a {
          assert b in init;
        }
      }
      forall k | Named(init, view, k)
        ensures Named(buttons, view, k)
      {
        var b :| b in init && Targets(b, view, b.pid) && b.pid == k;
        assert b in buttons;
      }
    }
  }

  /** From a keyed queue, the walk queues a panel's publish exactly when it was queued already or a button names it. */
  lemma {:induction false} QueuedPublishes(q: Indicator.Queue, view: PanelView, buttons: seq<AssociatedButton>)
    requires Indicator.Balanced(q) && Indicator.Keyed(q)
    ensures Indicator.Keyed(Queued(q, view, buttons))
    ensures forall k :: Indicator.PublishBacklight(k) in Queued(q, view, buttons).functions <==>
      Indicator.PublishBacklight(k) in q.functions || Named(buttons, view, k)
  {
    if buttons != [] {
      var init := buttons[..|buttons| - 1];
      var a := buttons[|buttons| - 1];
      QueuedPublishes(q, view, init);
      Indicator.AddedKeepsKeyed(Queued(q, view, init), a.pid);
      assert Indicator.Keyed(Queued(q, view, buttons));
    }
    QueuedPanels(q, view, buttons);
  }

  /**
   * The closures published by a run of `updateButtonIndicator` calls, each
   * a walk followed by a flush: the first flush also runs what was queued
   * before (`q0`), every later one starts from the empty queue.
   */
  function Flushed(q0: Indicator.Queue, view: PanelView, lights: seq<Light>): seq<Indicator.Publish>
    decreases |lights|
  {
    if lights == [] then []
    else Queued(q0, view, lights[0].buttons).functions + Flushed(Indicator.Queue([], {}), view, lights[1..])
  }

  /** A run of calls publishes what its first call publishes, then what the rest publish from the empty queue. */
  lemma FlushedAfterFirst(q0: Indicator.Queue, view: PanelView, first: Light, rest: seq<Light>)
    ensures Flushed(q0, view, [first] + rest) == Flushed(q0, view, [first]) + Flushed(Indicator.Queue([], {}), view, rest)
  {
    assert ([first] + rest)[1..] == rest;
    assert [first][1..] == [];
  }

  /** Some call of `lights` names a button of panel `k`. */
  predicate NamedByAny(lights: seq<Light>, view: PanelView, k: int)
  {
    exists i :: 0 <= i < |lights| && Named(lights[i].buttons, view, k)
  }

  /**
   * The calls publish panel `k` exactly when one of them names a button of
   * it, or (when there is a call at all) it was queued before the first.
   */
  lemma {:induction false} FlushedPanels(q0: Indicator.Queue, view: PanelView, lights: seq<Light>)
    requires Indicator.Balanced(q0) && Indicator.Keyed(q0)
    decreases |lights|
    ensures forall k :: Indicator.PublishBacklight(k) in Flushed(q0, view, lights) <==>
      (lights != [] && Indicator.PublishBacklight(k) in q0.functions) || NamedByAny(lights, view, k)
  {
    if lights != [] {
      QueuedPublishes(q0, view, lights[0].buttons);
      FlushedPanels(Indicator.Queue([], {}), view, lights[1..]);
      forall k
        ensures NamedByAny(lights, view, k) <==> Named(lights[0].buttons, view, k) || NamedByAny(lights[1..], view, k)
      {
        if NamedByAny(lights, view, k) {
          var i :| 0 <= i < |lights| && Named(lights[i].buttons, view, k);
          if i > 0 {
            assert lights[1..][i - 1] == lights[i];
          }
        }
        if NamedByAny(lights[1..], view, k) {
          var i :| 0 <= i < |lights[1..]| && Named(lights[1..][i].buttons, view, k);
          assert lights[1..][i] == lights[i + 1];
        }
      }
    }
  }

  /** Every panel's backlight byte is what the walk over `prefix` gives from `masks0`. */
  ghost predicate Walked(panels: map<byte, PanelInput.Panel>, masks0: map<byte, bv8>, view: PanelView,
                         prefix: seq<AssociatedButton>, on: bool)
    reads panels.Values`buttonBlStates
  {
    forall p :: p in panels ==> p in masks0 && panels[p].buttonBlStates == Indicated(masks0[p], view, p, prefix, on)
  }

  /** One step of the walk: the associated button `a`. */
  method IndicateOne(a: AssociatedButton, on: bool, panels: map<byte, PanelInput.Panel>, holder: Indicator.IndicatorHolder,
                     ghost masks0: map<byte, bv8>, ghost view: PanelView, ghost prefix: seq<AssociatedButton>)
    requires PanelsValid(panels) && holder.Valid() && View(panels) == view
    requires Walked(panels, masks0, view, prefix, on)
    modifies panels.Values`buttonBlStates, holder
    ensures PanelsValid(panels) && holder.Valid() && View(panels) == view
    ensures Walked(panels, masks0, view, prefix + [a], on)
    ensures holder.Contents() ==
      if Targets(a, view, a.pid) then Indicator.Added(old(holder.Contents()), Indicator.PublishBacklight(a.pid), a.pid)
      else old(holder.Contents())
  {
    assert (prefix + [a])[..|prefix|] == prefix;
    if a.pid in panels {
      var panel := panels[a.pid];
      panel.UpdateButtonIndicator(a.bid, on, holder);
    }
  }

  /**
   * A device's `updateButtonIndicator(state)`: for every associated
   * button, if its panel exists, ask the panel to set that backlight bit
   * (a panel without that button ignores it).
   */
  method IndicateButtons(buttons: seq<AssociatedButton>, on: bool, panels: map<byte, PanelInput.Panel>, holder: Indicator.IndicatorHolder)
    requires PanelsValid(panels) && holder.Valid()
    modifies panels.Values`buttonBlStates, holder
    ensures PanelsValid(panels) && holder.Valid()
    ensures forall p :: p in panels ==>
      panels[p].buttonBlStates == Indicated(old(panels[p].buttonBlStates), View(panels), p, buttons, on)
    ensures holder.Contents() == Queued(old(holder.Contents()), View(panels), buttons)
    ensures View(panels) == old(View(panels))
  {
    ghost var masks0 := map p | p in panels :: panels[p].buttonBlStates;
    ghost var view := View(panels);
    var i := 0;
    while i < |buttons|
      invariant 0 <= i <= |buttons|
      invariant PanelsValid(panels) && holder.Valid() && View(panels) == view
      invariant Walked(panels, masks0, view, buttons[..i], on)
      invariant holder.Contents() == Queued(old(holder.Contents()), view, buttons[..i])
    {
      assert buttons[..i + 1] == buttons[..i] + [buttons[i]];
      IndicateOne(buttons[i], on, panels, holder, masks0, view, buttons[..i]);
      i := i + 1;
    }
    assert buttons[..i] == buttons;
  }

  /** `DeviceType`, with the preset kinds the bodies use (the header spells the heartbeat `HEARTBEAR` and has no indicator or doorbell kind). */
  datatype DeviceType =
    | Lamp | Curtain | InfraredAir | SingleAir | Rs485 | Relay | DryContact | Doorbell
    | Heartbeat | RoomStateOp | Delayer | ActionGroupOp | Snapshot | IndicatorOp

  /** What a relay or dry-contact output does with `operation`: switch on, switch off, or nothing. */
  function SwitchTarget(operation: string, isOn: bool): Option<bool>
  {
    if operation == "开" || operation == "打开" then Some(true)
    else if operation == "关" || operation == "关闭" then Some(false)
    else if operation == "反转" then Some(!isOn)
    else None
  }

  /** Both spellings open, both close, "反转" goes to the opposite of the current state, and nothing else switches. */
  lemma SwitchTargetSpec(operation: string, isOn: bool)
    ensures SwitchTarget(operation, isOn) == Some(true) <==>
      operation in {"开", "打开"} || (operation == "反转" && !isOn)
    ensures SwitchTarget(operation, isOn) == Some(false) <==>
      operation in {"关", "关闭"} || (operation == "反转" && isOn)
    ensures SwitchTarget("反转", isOn) == Some(!isOn)
    ensures operation !in {"开", "打开", "关", "关闭", "反转"} ==> SwitchTarget(operation, isOn) == None
  {
  }

  /** The propagation requests of `open_self` (links follow with "开", then repelled devices close) and `close_self` (links follow with "关"; repelled devices are left alone). */
  function Propagated(did: int, on: bool): (r: seq<Propagation>)
    ensures CloseRepel(did) in r <==> on
    ensures SyncLinks(did, if on then "开" else "关") in r
  {
    if on then [SyncLinks(did, "开"), CloseRepel(did)] else [SyncLinks(did, "关")]
  }

  /**
   * The room and panel side of switching a device on (`on`) or off: its
   * carried state follows, each associated backlight is set to `on`, one
   * publish is queued per panel touched, and nothing else in the panels
   * changes.
   */
  twostate predicate Switched(on: bool, carry: string, buttons: seq<AssociatedButton>, rooms: RoomState.RoomStates,
                              panels: map<byte, PanelInput.Panel>, holder: Indicator.IndicatorHolder)
    reads rooms, holder, panels.Values
  {
    && rooms.states == Carried(old(rooms.states), carry, on)
    && (forall p :: p in panels ==>
          panels[p].buttonBlStates == Indicated(old(panels[p].buttonBlStates), View(panels), p, buttons, on))
    && holder.Contents() == Queued(old(holder.Contents()), View(panels), buttons)
  }

  /** Nothing on the room and panel side changed. */
  twostate predicate Untouched(rooms: RoomState.RoomStates, panels: map<byte, PanelInput.Panel>, holder: Indicator.IndicatorHolder)
    reads rooms, holder, panels.Values
  {
    && rooms.states == old(rooms.states)
    && (forall p :: p in panels ==> panels[p].buttonBlStates == old(panels[p].buttonBlStates))
    && holder.Contents() == old(holder.Contents())
  }

  /** `updateButtonIndicator(on)` followed by `change_state(on)`, the common middle of every open and close. */
  method IndicateAndCarry(on: bool, carry: string, buttons: seq<AssociatedButton>, rooms: RoomState.RoomStates,
                          panels: map<byte, PanelInput.Panel>, holder: Indicator.IndicatorHolder)
    requires rooms.Valid() && PanelsValid(panels) && holder.Valid()
    modifies rooms, panels.Values`buttonBlStates, holder
    ensures rooms.Valid() && PanelsValid(panels) && holder.Valid()
    ensures Switched(on, carry, buttons, rooms, panels, holder)
  {
    IndicateButtons(buttons, on, panels, holder);
    ChangeState(carry, on, rooms);
  }

  /**
   * What opening or closing a relay or dry-contact device does besides
   * driving its output: backlights and carried state follow, then linked
   * and repelled devices are told.
   */
  method IndicateCarryAndPropagate(on: bool, did: int, carry: string, buttons: seq<AssociatedButton>, rooms: RoomState.RoomStates,
                                   panels: map<byte, PanelInput.Panel>, holder: Indicator.IndicatorHolder, log: PropagationLog)
    requires rooms.Valid() && PanelsValid(panels) && holder.Valid()
    modifies rooms, panels.Values`buttonBlStates, holder, log
    ensures rooms.Valid() && PanelsValid(panels) && holder.Valid()
    ensures Switched(on, carry, buttons, rooms, panels, holder)
    ensures log.effects == old(log.effects) + Propagated(did, on)
  {
    IndicateAndCarry(on, carry, buttons, rooms, panels, holder);
    log.RecordSwitch(did, on);
  }

  /** One `updateButtonIndicator(buttons, on)` call, as a value. */
  datatype Light = Light(buttons: seq<AssociatedButton>, on: bool)

  /** Panel `pid`'s backlight byte after a series of such calls. */
  function Lit(mask: bv8, view: PanelView, pid: byte, lights: seq<Light>): bv8
  {
    if lights == [] then mask
    else
      var last := lights[|lights| - 1];
      Indicated(Lit(mask, view, pid, lights[..|lights| - 1]), view, pid, last.buttons, last.on)
  }

  /** Every panel's backlight byte, by panel id. */
  ghost function Masks(panels: map<byte, PanelInput.Panel>): map<byte, bv8>
    reads panels.Values`buttonBlStates
  {
    map p | p in panels :: panels[p].buttonBlStates
  }

  /** Every panel shows what the calls `lights` make of the bytes `masks0`. */
  ghost predicate Shows(panels: map<byte, PanelInput.Panel>, masks0: map<byte, bv8>, lights: seq<Light>)
    reads panels.Values`buttonBlStates, panels.Values`buttonsMap
  {
    forall p :: p in panels ==> p in masks0 && panels[p].buttonBlStates == Lit(masks0[p], View(panels), p, lights)
  }

  /** The curtain's `updateButtonIndicator(buttons, on)`: the walk, then an immediate flush of the indicator queue. */
  method ShowAndFlush(buttons: seq<AssociatedButton>, on: bool, panels: map<byte, PanelInput.Panel>, holder: Indicator.IndicatorHolder,
                      ghost lights: seq<Light>, ghost masks0: map<byte, bv8>)
    returns (flushed: seq<Indicator.Publish>)
    requires PanelsValid(panels) && holder.Valid() && Shows(panels, masks0, lights)
    modifies panels.Values`buttonBlStates, holder
    ensures PanelsValid(panels) && holder.Valid()
    ensures Shows(panels, masks0, lights + [Light(buttons, on)])
    ensures holder.Contents() == Indicator.Queue([], {})
    ensures flushed == Flushed(old(holder.Contents()), View(panels), [Light(buttons, on)]) && View(panels) == old(View(panels))
  {
    IndicateButtons(buttons, on, panels, holder);
    assert (lights + [Light(buttons, on)])[..|lights|] == lights;
    flushed := holder.CallAllAndClear();
    assert [Light(buttons, on)][1..] == [];
  }
}
