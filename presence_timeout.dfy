/**
 * The whole of `uncertain_timer_callback` (channel_input.cpp:41-94): the
 * sensor's own expiry step, then, when it says so, every input on the same
 * board channel whose trigger is the infrared timeout runs its `execute`,
 * in the order the lord's `getAllChannelInputByChannelNum` lists them.
 *
 * The inputs' changes are stated with the views and the reaction fold of
 * the board receiver (`Stm32Rx`), for the stimulus `TimerExpired`.
 */
module PresenceTimeout {
  import opened Bytes
  import ChannelInput
  import Inputs
  import Lord
  import ManagerBase
  import Stm32Rx

  /** The sensor's part of an input's view: its state, whether its timer runs, and the timer's period. */
  function SensorPart(v: Stm32Rx.InputView): (ChannelInput.SensorState, bool, nat)
  {
    (v.sensor, v.armed, v.periodMs)
  }

  /** On a timer expiry the inputs' cursors may step, but no sensor, timer or period changes. */
  lemma {:induction false} ExpiryKeepsSensors(cs: seq<Stm32Rx.InputCfg>, vs: seq<Stm32Rx.InputView>, lv: Stm32Rx.LordView)
    requires |cs| == |vs|
    ensures forall k :: 0 <= k < |vs| ==> SensorPart(Stm32Rx.ReactedAll(cs, vs, lv, Stm32Rx.TimerExpired).0[k]) == SensorPart(vs[k])
    ensures Stm32Rx.ReactedAll(cs, vs, lv, Stm32Rx.TimerExpired).1.presence == lv.presence
  {
    if vs != [] {
      var n := |vs| - 1;
      ExpiryKeepsSensors(cs[..n], vs[..n], lv);
    }
  }

  /** One input of the channel: only an infrared-timeout input runs its `execute`. */
  method FireInput(input: ChannelInput.ChannelInput, lord: Lord.LordManager, modes: ManagerBase.LordManager,
                   wallClock: int, localHour: int, spawned: bool)
    requires input in lord.channelInputs.Values
    modifies lord.ctx`heartbeatCode, lord.ctx`anyKeyAid, modes`currMode
    modifies lord.channelInputs.Values`currentIndex, lord.actionGroups.Values, Stm32Rx.InputScenes(lord)
    ensures (Stm32Rx.ViewOf(input), Stm32Rx.CtxView(lord.ctx))
      == Stm32Rx.Reacted(Stm32Rx.CfgOf(input, lord.ctx, wallClock, localHour), old(Stm32Rx.ViewOf(input)),
                         old(Stm32Rx.CtxView(lord.ctx)), Stm32Rx.TimerExpired)
    ensures forall i :: i in lord.channelInputs.Values && i != input ==> Stm32Rx.ViewOf(i) == old(Stm32Rx.ViewOf(i))
  {
    if input.currentIndex < |input.actionGroups| {
      ghost var g := input.actionGroups[input.currentIndex];
      assert g in input.actionGroups;
      assert g in Stm32Rx.InputScenes(lord);
    }
    ghost var c, v, lv := Stm32Rx.CfgOf(input, lord.ctx, wallClock, localHour), Stm32Rx.ViewOf(input), Stm32Rx.CtxView(lord.ctx);
    if input.triggerType == Inputs.InfraredTimeout {
      var _, _ := input.Execute(lord.ctx, lord.actionGroups, modes, spawned);
      assert Stm32Rx.Executes(c, Stm32Rx.TimerExpired);
      assert (Stm32Rx.ViewOf(input), Stm32Rx.CtxView(lord.ctx)) == Stm32Rx.Executed(c, v, lv);
    }
  }

  /** One turn of the loop over the channel's inputs: the next input reacts, every other input keeps its view. */
  method FireNext(inputs: seq<ChannelInput.ChannelInput>, k: nat, lord: Lord.LordManager, modes: ManagerBase.LordManager,
                  wallClock: int, localHour: int, spawned: bool,
                  ghost cs: seq<Stm32Rx.InputCfg>, ghost vs: seq<Stm32Rx.InputView>, ghost lv: Stm32Rx.LordView,
                  ghost done: (seq<Stm32Rx.InputView>, Stm32Rx.LordView),
                  ghost views0: map<ChannelInput.ChannelInput, Stm32Rx.InputView>)
    returns (ghost next: (seq<Stm32Rx.InputView>, Stm32Rx.LordView))
    requires k < |inputs| && Stm32Rx.Looping(inputs, lord, k, cs, vs, lv, Stm32Rx.TimerExpired, done, views0)
    requires forall a, b :: 0 <= a < b < |inputs| ==> inputs[a] != inputs[b]
    requires cs[k] == Stm32Rx.CfgOf(inputs[k], lord.ctx, wallClock, localHour)
    modifies lord.ctx`heartbeatCode, lord.ctx`anyKeyAid, modes`currMode
    modifies lord.channelInputs.Values`currentIndex, lord.actionGroups.Values, Stm32Rx.InputScenes(lord)
    ensures Stm32Rx.Looping(inputs, lord, k + 1, cs, vs, lv, Stm32Rx.TimerExpired, next, views0)
  {
    FireInput(inputs[k], lord, modes, wallClock, localHour, spawned);
    forall j | 0 <= j < |inputs| && j != k
      ensures Stm32Rx.ViewOf(inputs[j]) == old(Stm32Rx.ViewOf(inputs[j]))
    {
      assert inputs[j] != inputs[k];
    }
    next := Stm32Rx.FoldNext(cs, vs, lv, Stm32Rx.TimerExpired, k, done, Stm32Rx.ViewOf(inputs[k]), Stm32Rx.CtxView(lord.ctx));
  }

  /** The loop of channel_input.cpp:88-92 over the inputs of one channel. */
  method FireInputs(inputs: seq<ChannelInput.ChannelInput>, lord: Lord.LordManager, modes: ManagerBase.LordManager,
                    wallClock: int, localHour: int, spawned: bool)
    requires forall i :: i in inputs ==> i in lord.channelInputs.Values
    requires forall a, b :: 0 <= a < b < |inputs| ==> inputs[a] != inputs[b]
    modifies lord.ctx`heartbeatCode, lord.ctx`anyKeyAid, modes`currMode
    modifies lord.channelInputs.Values`currentIndex, lord.actionGroups.Values, Stm32Rx.InputScenes(lord)
    ensures (Stm32Rx.Views(inputs), Stm32Rx.CtxView(lord.ctx))
      == Stm32Rx.ReactedAll(Stm32Rx.Cfgs(inputs, lord.ctx, wallClock, localHour), old(Stm32Rx.Views(inputs)),
                            old(Stm32Rx.CtxView(lord.ctx)), Stm32Rx.TimerExpired)
    ensures forall i :: i in lord.channelInputs.Values && i !in inputs ==> Stm32Rx.ViewOf(i) == old(Stm32Rx.ViewOf(i))
  {
    var k := 0;
    ghost var cs, vs, lv := Stm32Rx.Cfgs(inputs, lord.ctx, wallClock, localHour), Stm32Rx.Views(inputs), Stm32Rx.CtxView(lord.ctx);
    ghost var done: (seq<Stm32Rx.InputView>, Stm32Rx.LordView) := ([], lv);
    ghost var views0 := map i | i in lord.channelInputs.Values :: Stm32Rx.ViewOf(i);
    Stm32Rx.PartwayStart(inputs, lord.ctx);
    while k < |inputs|
      invariant Stm32Rx.Looping(inputs, lord, k, cs, vs, lv, Stm32Rx.TimerExpired, done, views0)
    {
      done := FireNext(inputs, k, lord, modes, wallClock, localHour, spawned, cs, vs, lv, done, views0);
      k := k + 1;
    }
    assert cs[..k] == cs && vs[..k] == vs;
    Stm32Rx.PartwayDone(inputs, lord.ctx, vs, done);
  }

  /**
   * The search of channel_input.cpp:88-92: the lord lists the inputs on
   * `channel` (`inputs`) and every infrared-timeout one among them runs.
   * `before` and `ctxBefore` are the views and the context the loop found.
   */
  method FireChannel(channel: byte, lord: Lord.LordManager, modes: ManagerBase.LordManager,
                     wallClock: int, localHour: int, spawned: bool)
    returns (inputs: seq<ChannelInput.ChannelInput>, ghost before: seq<Stm32Rx.InputView>, ghost ctxBefore: Stm32Rx.LordView)
    requires lord.Valid()
    modifies lord.ctx`heartbeatCode, lord.ctx`anyKeyAid, modes`currMode
    modifies lord.channelInputs.Values`currentIndex, lord.actionGroups.Values, Stm32Rx.InputScenes(lord)
    ensures forall i :: i in inputs <==> i in lord.channelInputs.Values && i.channel == channel
    ensures old(allocated(inputs)) && |before| == |inputs|
    ensures before == old(Stm32Rx.Views(inputs)) && ctxBefore == old(Stm32Rx.CtxView(lord.ctx))
    ensures (Stm32Rx.Views(inputs), Stm32Rx.CtxView(lord.ctx))
      == Stm32Rx.ReactedAll(Stm32Rx.Cfgs(inputs, lord.ctx, wallClock, localHour), before, ctxBefore, Stm32Rx.TimerExpired)
    ensures forall i :: i in lord.channelInputs.Values && i.channel != channel ==> Stm32Rx.ViewOf(i) == old(Stm32Rx.ViewOf(i))
    ensures forall i :: i in inputs ==> SensorPart(Stm32Rx.ViewOf(i)) == old(SensorPart(Stm32Rx.ViewOf(i)))
  {
    ghost var pool := lord.channelInputs.Values;
    inputs := lord.GetAllChannelInputByChannelNum(channel);
    forall k | 0 <= k < |inputs|
      ensures old(allocated(inputs[k]))
    {
      assert inputs[k] in pool;
    }
    before, ctxBefore := Stm32Rx.Views(inputs), Stm32Rx.CtxView(lord.ctx);
    ghost var cs := Stm32Rx.Cfgs(inputs, lord.ctx, wallClock, localHour);
    FireInputs(inputs, lord, modes, wallClock, localHour, spawned);
    ExpiryKeepsSensors(cs, before, ctxBefore);
    forall i | i in inputs
      ensures SensorPart(Stm32Rx.ViewOf(i)) == old(SensorPart(Stm32Rx.ViewOf(i)))
    {
      var k :| 0 <= k < |inputs| && inputs[k] == i;
      assert Stm32Rx.ViewOf(i) == Stm32Rx.Views(inputs)[k];
    }
  }

  /** The search after `input`'s timer expired: `input` is idle and its timer stopped, and it is among the inputs found. */
  method FireExpired(input: ChannelInput.ChannelInput, lord: Lord.LordManager, modes: ManagerBase.LordManager,
                     wallClock: int, localHour: int, spawned: bool, ghost index0: byte, ghost period0: nat)
    returns (inputs: seq<ChannelInput.ChannelInput>, ghost before: seq<Stm32Rx.InputView>, ghost ctxBefore: Stm32Rx.LordView)
    requires lord.Valid() && input in lord.channelInputs.Values
    requires Stm32Rx.ViewOf(input) == Stm32Rx.InputView(index0, ChannelInput.Idle, false, period0)
    modifies lord.ctx`heartbeatCode, lord.ctx`anyKeyAid, modes`currMode
    modifies lord.channelInputs.Values`currentIndex, lord.actionGroups.Values, Stm32Rx.InputScenes(lord)
    ensures forall i :: i in inputs <==> i in lord.channelInputs.Values && i.channel == input.channel
    ensures old(allocated(inputs)) && |before| == |inputs| && ctxBefore == old(Stm32Rx.CtxView(lord.ctx))
    ensures forall k :: 0 <= k < |inputs| && inputs[k] == input ==> before[k] == Stm32Rx.InputView(index0, ChannelInput.Idle, false, period0)
    ensures forall k :: 0 <= k < |inputs| ==> before[k] == old(Stm32Rx.ViewOf(inputs[k]))
    ensures (Stm32Rx.Views(inputs), Stm32Rx.CtxView(lord.ctx))
      == Stm32Rx.ReactedAll(Stm32Rx.Cfgs(inputs, lord.ctx, wallClock, localHour), before, ctxBefore, Stm32Rx.TimerExpired)
    ensures forall i :: i in lord.channelInputs.Values && i.channel != input.channel ==> Stm32Rx.ViewOf(i) == old(Stm32Rx.ViewOf(i))
    ensures input.currentState == ChannelInput.Idle && !input.timerArmed && input.timerPeriodMs == period0
  {
    inputs, before, ctxBefore := FireChannel(input.channel, lord, modes, wallClock, localHour, spawned);
    assert input in inputs;
    forall k | 0 <= k < |inputs| ensures before[k] == old(Stm32Rx.ViewOf(inputs[k])) {
      assert Stm32Rx.Views(inputs)[k] == Stm32Rx.ViewOf(inputs[k]);
    }
  }

  /**
   * `uncertain_timer_callback` of `input` at uptime `nowMs`, as written:
   * the sensor's expiry (`ExpiredAsWritten`), then, when that says the
   * timeout scenes run, the search over the channel's inputs (`inputs`,
   * as the lord lists them), which runs every infrared-timeout input.
   * `before` and `ctxBefore` are the inputs' views and the context as the
   * search found them: the expired sensor is idle by then, with its timer
   * stopped. The search moves no sensor (`ExpiryKeepsSensors`).
   */
  method UncertainTimerCallback(input: ChannelInput.ChannelInput, lord: Lord.LordManager, modes: ManagerBase.LordManager,
                                nowMs: int, wallClock: int, localHour: int, spawned: bool)
    returns (fire: bool, inputs: seq<ChannelInput.ChannelInput>,
             ghost before: seq<Stm32Rx.InputView>, ghost ctxBefore: Stm32Rx.LordView)
    requires lord.Valid() && input in lord.channelInputs.Values
    modifies lord.ctx`heartbeatCode, lord.ctx`anyKeyAid, modes`currMode
    modifies lord.channelInputs.Values, lord.actionGroups.Values, Stm32Rx.InputScenes(lord)
    ensures var e := ChannelInput.ExpiredAsWritten(old(input.currentState), Inputs.IsAliveChannel in input.tags,
                                                   old(ChannelInput.GuardOf(lord.ctx, nowMs)));
      && fire == e.fire
      && input.currentState == e.state && input.timerArmed == e.rearm
      && input.timerPeriodMs == (if e.rearm then input.TimeoutMs(lord.ctx, wallClock, localHour) else old(input.timerPeriodMs))
    ensures !fire ==>
      && inputs == [] && Stm32Rx.CtxView(lord.ctx) == old(Stm32Rx.CtxView(lord.ctx))
      && modes.currMode == old(modes.currMode) && input.currentIndex == old(input.currentIndex)
      && forall i :: i in lord.channelInputs.Values && i != input ==> Stm32Rx.ViewOf(i) == old(Stm32Rx.ViewOf(i))
    ensures fire ==> forall i :: i in inputs <==> i in lord.channelInputs.Values && i.channel == input.channel
    ensures old(allocated(inputs))
    ensures fire ==> ctxBefore == old(Stm32Rx.CtxView(lord.ctx)) && |before| == |inputs|
    ensures fire ==> forall k :: 0 <= k < |inputs| && inputs[k] == input ==>
      before[k] == Stm32Rx.InputView(old(input.currentIndex), ChannelInput.Idle, false, old(input.timerPeriodMs))
    ensures fire ==> forall k :: 0 <= k < |inputs| && inputs[k] != input ==> before[k] == old(Stm32Rx.ViewOf(inputs[k]))
    ensures fire ==>
      (Stm32Rx.Views(inputs), Stm32Rx.CtxView(lord.ctx))
        == Stm32Rx.ReactedAll(Stm32Rx.Cfgs(inputs, lord.ctx, wallClock, localHour), before, ctxBefore, Stm32Rx.TimerExpired)
    ensures forall i :: i in lord.channelInputs.Values && i.channel != input.channel ==> Stm32Rx.ViewOf(i) == old(Stm32Rx.ViewOf(i))
  {
    ghost var pool := lord.channelInputs.Values;
    ghost var index0, period0 := input.currentIndex, input.timerPeriodMs;
    fire := input.UncertainTimerFiredAsWritten(lord.ctx, nowMs, wallClock, localHour);
    inputs, before, ctxBefore := [], [], Stm32Rx.CtxView(lord.ctx);
    if fire {
      inputs, before, ctxBefore := FireExpired(input, lord, modes, wallClock, localHour, spawned, index0, period0);
      forall k | 0 <= k < |inputs|
        ensures old(allocated(inputs[k]))
      {
        assert inputs[k] in pool;
      }
    }
  }
}
