/**
 * Wall panels and their buttons (panel_input.cpp). A panel reports the
 * whole key byte at once (a clear bit is a key held down); the panel keeps
 * an "operating" flag per key so that a key held across several reports
 * fires once, and it keeps the backlight byte that is written back to the
 * panel when the indicator queue is flushed.
 */
module PanelInput {
  import opened Bytes
  import Inputs
  import ActionGroups
  import ManagerBase
  import Indicator
  import Rs485Frames

  /** Key `i` fires when it is held down (bit clear) and not yet flagged as operating. */
  predicate FiresAt(target: bv8, flags: bv8, i: nat)
  {
    i < 8 && !Bit(target, i) && !Bit(flags, i)
  }

  /** The keys among the first `n` positions that a report fires, in the order the report scans them. */
  function Fired(target: bv8, flags: bv8, keys: set<int>, n: nat): seq<nat>
  {
    if n == 0 then []
    else Fired(target, flags, keys, n - 1) + (if n - 1 in keys && FiresAt(target, flags, n - 1) then [n - 1] else [])
  }

  /** The operating flags a report leaves: all clear on a release (0xFF), otherwise exactly the keys held down. */
  function FlagsAfter(target: bv8): (r: bv8)
    ensures forall j: nat :: j < 8 ==> (Bit(r, j) <==> !Bit(target, j))
  {
    if target == 0xFF then 0 else !target
  }

  /** A fired key is a mapped key, in range, held down and not yet operating; each appears once, in increasing order. */
  lemma {:induction false} FiredMembers(target: bv8, flags: bv8, keys: set<int>, n: nat)
    ensures forall x: nat :: x in Fired(target, flags, keys, n) <==> x < n && x in keys && FiresAt(target, flags, x)
    ensures forall a, b :: 0 <= a < b < |Fired(target, flags, keys, n)| ==>
      Fired(target, flags, keys, n)[a] < Fired(target, flags, keys, n)[b]
  {
    if n > 0 {
      FiredMembers(target, flags, keys, n - 1);
      var prev := Fired(target, flags, keys, n - 1);
      var add := if n - 1 in keys && FiresAt(target, flags, n - 1) then [n - 1] else [];
      assert Fired(target, flags, keys, n) == prev + add;
      assert forall a :: 0 <= a < |prev| ==> prev[a] in prev;
    }
  }

  /** The release report 0xFF fires nothing. */
  lemma {:induction false} ReleaseFiresNothing(flags: bv8, keys: set<int>, n: nat)
    requires n <= 8
    ensures Fired(0xFF, flags, keys, n) == []
  {
    if n > 0 {
      ReleaseFiresNothing(flags, keys, n - 1);
      assert Bit(0xFF, n - 1);
    }
  }

  /** A key held across two reports fires only on the first: repeating a report fires nothing. */
  lemma {:induction false} HeldKeysDoNotRefire(target: bv8, keys: set<int>, n: nat)
    requires n <= 8
    ensures Fired(target, FlagsAfter(target), keys, n) == []
  {
    if n > 0 {
      HeldKeysDoNotRefire(target, keys, n - 1);
      assert !FiresAt(target, FlagsAfter(target), n - 1);
    }
  }

  /**
   * The press/hold/release sequence 0xFF, 0xFE, 0xFE, 0xFF fires key 0
   * exactly once (on the first 0xFE), whatever the flags were before.
   */
  lemma PressHoldRelease(flags: bv8, keys: set<int>)
    requires 0 in keys
    ensures Fired(0xFF, flags, keys, 8) == []
    ensures Fired(0xFE, FlagsAfter(0xFF), keys, 8) == [0]
    ensures Fired(0xFE, FlagsAfter(0xFE), keys, 8) == []
    ensures Fired(0xFF, FlagsAfter(0xFE), keys, 8) == []
    ensures FlagsAfter(0xFF) == 0
  {
    ReleaseFiresNothing(flags, keys, 8);
    ReleaseFiresNothing(FlagsAfter(0xFE), keys, 8);
    HeldKeysDoNotRefire(0xFE, keys, 8);
    OnlyKeyZeroFires(keys, 8);
  }

  lemma {:induction false} OnlyKeyZeroFires(keys: set<int>, n: nat)
    requires 0 in keys && 1 <= n <= 8
    ensures Fired(0xFE, 0, keys, n) == [0]
  {
    if n == 1 {
      assert FiresAt(0xFE, 0, 0);
    } else {
      OnlyKeyZeroFires(keys, n - 1);
      KeyBitOfFE(n - 1);
    }
  }

  lemma KeyBitOfFE(x: nat)
    requires 0 < x < 8
    ensures Bit(0xFE, x)
  {
  }

  /** Two backlight or flag bytes that agree on every bit are equal. */
  lemma BitsEqual(x: bv8, y: bv8)
    requires forall j: nat :: j < 8 ==> (Bit(x, j) <==> Bit(y, j))
    ensures x == y
  {
    assert Bit(x, 0) == Bit(y, 0) && Bit(x, 1) == Bit(y, 1);
    assert Bit(x, 2) == Bit(y, 2) && Bit(x, 3) == Bit(y, 3);
    assert Bit(x, 4) == Bit(y, 4) && Bit(x, 5) == Bit(y, 5);
    assert Bit(x, 6) == Bit(y, 6) && Bit(x, 7) == Bit(y, 7);
  }

  /** The operating flags after the first `i` keys of a report have been scanned. */
  ghost predicate FlagsScanned(flags: bv8, target: bv8, flags0: bv8, i: nat)
  {
    (forall j: nat :: j < i ==> (Bit(flags, j) <==> !Bit(target, j)))
    && (forall j: nat :: i <= j ==> (Bit(flags, j) <==> Bit(flags0, j)))
  }

  /**
   * Scanning key `i` sets its operating flag when the key fires, clears it
   * when the key is up, and leaves every other flag alone.
   */
  lemma FlagFollowsKey(flags: bv8, target: bv8, flags0: bv8, i: nat, next: bv8)
    requires i < 8 && FlagsScanned(flags, target, flags0, i)
    requires next == if !Bit(target, i) && !Bit(flags, i) then WithBit(flags, i, true)
                     else if Bit(target, i) && Bit(flags, i) then WithBit(flags, i, false)
                     else flags
    ensures FlagsScanned(next, target, flags0, i + 1)
    ensures !Bit(target, i) && !Bit(flags, i) <==> FiresAt(target, flags0, i)
  {
  }

  /** A full scan leaves exactly the flags `FlagsAfter` describes. */
  lemma ScannedFlags(flags: bv8, target: bv8, flags0: bv8)
    requires FlagsScanned(flags, target, flags0, 8)
    ensures flags == FlagsAfter(target)
  {
    BitsEqual(flags, FlagsAfter(target));
  }

  /** A panel key: its scenes and its cursor. */
  class PanelButtonInput {
    const iid: int
    const name: string
    const pid: byte
    const bid: byte
    const tags: set<Inputs.InputTag>
    const actionGroups: seq<ActionGroups.ActionGroup>
    var currentIndex: byte

    constructor (iid: int, name: string, pid: byte, bid: byte, tags: set<Inputs.InputTag>, groups: seq<ActionGroups.ActionGroup>)
      ensures this.iid == iid && this.name == name && this.pid == pid && this.bid == bid
      ensures this.tags == tags && actionGroups == groups && currentIndex == 0
    {
      this.iid, this.name, this.pid, this.bid, this.tags := iid, name, pid, bid, tags;
      actionGroups := groups;
      currentIndex := 0;
    }

    /**
     * `execute`: run the scene under the cursor (with no mode name) and
     * advance the cursor round-robin; a button without scenes does nothing.
     */
    method Execute(modes: ManagerBase.LordManager, spawned: bool)
      modifies this`currentIndex, modes`currMode
      modifies if currentIndex < |actionGroups| then {actionGroups[currentIndex]} else {}
      ensures currentIndex == Inputs.Stepped(old(currentIndex), |actionGroups|)
      ensures old(currentIndex) < |actionGroups| ==>
        (var g := actionGroups[old(currentIndex)];
         g.State(modes) == ActionGroups.Requested(old(g.State(modes)), "", spawned))
      ensures modes.currMode == old(modes.currMode)
    {
      if currentIndex < |actionGroups| {
        actionGroups[currentIndex].ExecuteAllAtomicAction("", modes, spawned);
        currentIndex := Inputs.NextCursor(currentIndex, |actionGroups|);
      }
    }
  }

  /** A panel: its buttons keyed by button id, the backlight byte and the operating flags. */
  class Panel {
    const pid: byte
    var buttonsMap: map<byte, PanelButtonInput>
    var buttonBlStates: bv8
    var buttonOperationFlags: bv8

    /** Each button is stored under its own id and belongs to this panel. */
    ghost predicate Valid()
      reads this`buttonsMap
    {
      forall b :: b in buttonsMap ==> buttonsMap[b].bid == b && buttonsMap[b].pid == pid
    }

    ghost function Buttons(): set<PanelButtonInput>
      reads this`buttonsMap
    {
      buttonsMap.Values
    }

    ghost function Scenes(): set<ActionGroups.ActionGroup>
      reads this`buttonsMap
    {
      set b, g | b in buttonsMap.Values && g in b.actionGroups :: g
    }

    /** Key `k`, firing while its button's cursor is `c`, asks scene `g` to run. */
    ghost predicate RequestsScene(k: int, c: int, g: ActionGroups.ActionGroup)
      reads this`buttonsMap
    {
      0 <= k < 256 && k as byte in buttonsMap && 0 <= c < |buttonsMap[k as byte].actionGroups|
      && buttonsMap[k as byte].actionGroups[c] == g
    }

    /** The cursor of every button, by button id. */
    ghost function Cursors(): (c: map<byte, byte>)
      reads this`buttonsMap, Buttons()
      ensures c.Keys == buttonsMap.Keys
    {
      map k | k in buttonsMap :: buttonsMap[k].currentIndex
    }

    /** The scene key `k` asks to run when it fires while the cursors are `cursors`: none when its button has no scenes. */
    ghost function SceneOf(k: int, cursors: map<byte, byte>): (r: set<ActionGroups.ActionGroup>)
      reads this`buttonsMap
      ensures |r| <= 1
    {
      if 0 <= k < 256 && k as byte in cursors && k as byte in buttonsMap && cursors[k as byte] as int < |buttonsMap[k as byte].actionGroups|
      then {buttonsMap[k as byte].actionGroups[cursors[k as byte]]}
      else {}
    }

    /** A fired key asks to run exactly the scene under its cursor. */
    lemma SceneOfNamed(k: int, cursors: map<byte, byte>, g: ActionGroups.ActionGroup)
      ensures g in SceneOf(k, cursors) <==> 0 <= k < 256 && k as byte in cursors && RequestsScene(k, cursors[k as byte] as int, g)
    {
    }

    /** The scenes the keys `fired` ask to run. */
    ghost function ScenesOf(fired: seq<nat>, cursors: map<byte, byte>): set<ActionGroups.ActionGroup>
      reads this`buttonsMap
      decreases |fired|
    {
      if fired == [] then {} else ScenesOf(fired[..|fired| - 1], cursors) + SceneOf(fired[|fired| - 1], cursors)
    }

    lemma ScenesOfSnoc(fired: seq<nat>, k: nat, cursors: map<byte, byte>)
      ensures ScenesOf(fired + [k], cursors) == ScenesOf(fired, cursors) + SceneOf(k, cursors)
    {
      assert (fired + [k])[..|fired|] == fired;
    }

    /** A scene is asked to run by the fired keys exactly when one of them, at its cursor, names it. */
    lemma {:induction false} ScenesOfNamed(fired: seq<nat>, cursors: map<byte, byte>, g: ActionGroups.ActionGroup)
      ensures g in ScenesOf(fired, cursors) <==>
        exists k: byte :: k as nat in fired && k in cursors && RequestsScene(k as int, cursors[k] as int, g)
      decreases |fired|
    {
      if fired != [] {
        var init, last := fired[..|fired| - 1], fired[|fired| - 1];
        ScenesOfNamed(init, cursors, g);
        assert fired == init + [last];
        if g in ScenesOf(fired, cursors) && g !in ScenesOf(init, cursors) {
          var k := last as byte;
          assert k as nat in fired && k in cursors && RequestsScene(k as int, cursors[k] as int, g);
        }
        if k: byte :| k as nat in fired && k in cursors && RequestsScene(k as int, cursors[k] as int, g) {
          if k as nat !in init {
            assert k as nat == last;
          }
        }
      }
    }

    /**
     * The scenes after part of a report's scan: a scene in `asked` is
     * running when it already was or its task was created; every other one
     * is as it was, and no scene asks for a report.
     */
    ghost predicate ScenesRun(running0: map<ActionGroups.ActionGroup, bool>, report0: map<ActionGroups.ActionGroup, bool>,
                              spawned: bool, asked: set<ActionGroups.ActionGroup>)
      reads this`buttonsMap, Scenes()
    {
      running0.Keys == Scenes() && report0.Keys == Scenes()
      && forall g :: g in Scenes() ==> g.requireReport == report0[g] && g.running == (running0[g] || (spawned && g in asked))
    }

    constructor (pid: byte)
      ensures Valid() && this.pid == pid && buttonsMap == map[]
      ensures buttonBlStates == 0 && buttonOperationFlags == 0
    {
      this.pid := pid;
      buttonsMap := map[];
      buttonBlStates, buttonOperationFlags := 0, 0;
    }

    /** `addButton`: `try_emplace` keyed by the button id; an id already present keeps its button and reports false. */
    method AddButton(iid: int, name: string, bid: byte, tags: set<Inputs.InputTag>, groups: seq<ActionGroups.ActionGroup>)
      returns (ok: bool)
      requires Valid()
      modifies this`buttonsMap
      ensures Valid()
      ensures ok <==> bid !in old(buttonsMap)
      ensures !ok ==> buttonsMap == old(buttonsMap)
      ensures ok ==> (bid in buttonsMap && fresh(buttonsMap[bid]) && buttonsMap[bid].actionGroups == groups
        && buttonsMap[bid].iid == iid && buttonsMap[bid].tags == tags
        && buttonsMap[bid].currentIndex == 0 && buttonsMap == old(buttonsMap)[bid := buttonsMap[bid]])
    {
      if bid in buttonsMap {
        return false;
      }
      var btn := new PanelButtonInput(iid, name, pid, bid, tags, groups);
      buttonsMap := buttonsMap[bid := btn];
      return true;
    }

    /**
     * `switchReport`: take the panel's backlight byte as reported, then fire
     * every mapped key that went down since the last report and record the
     * held keys as operating. `spawned` is the task-creation outcome for
     * every scene started. Returns the keys fired, in scan order.
     */
    method SwitchReport(target: bv8, oldBlState: bv8, modes: ManagerBase.LordManager, spawned: bool)
      returns (fired: seq<nat>)
      requires Valid()
      modifies this`buttonBlStates, this`buttonOperationFlags, modes`currMode, Buttons(), Scenes()
      ensures Valid() && buttonsMap == old(buttonsMap)
      ensures buttonBlStates == oldBlState
      ensures buttonOperationFlags == FlagsAfter(target)
      ensures fired == Fired(target, old(buttonOperationFlags), buttonsMap.Keys, 8)
      ensures forall k :: k in buttonsMap ==>
        buttonsMap[k].currentIndex ==
          if k in fired then Inputs.Stepped(old(buttonsMap[k].currentIndex), |buttonsMap[k].actionGroups|)
          else old(buttonsMap[k].currentIndex)
      ensures modes.currMode == old(modes.currMode)
      ensures forall g :: g in Scenes() ==>
        && g.requireReport == old(g.requireReport)
        && g.running == (old(g.running) || (spawned && g in ScenesOf(fired, old(Cursors()))))
    {
      buttonBlStates := oldBlState;
      if target == 0xFF {
        buttonOperationFlags := 0;
        ReleaseFiresNothing(old(buttonOperationFlags), buttonsMap.Keys, 8);
        return [];
      }
      var flags;
      flags, fired := ScanKeys(target, modes, spawned);
      buttonOperationFlags := flags;
    }

    /** The key scan of `switchReport` for a report that is not a full release. */
    method ScanKeys(target: bv8, modes: ManagerBase.LordManager, spawned: bool)
      returns (flags: bv8, fired: seq<nat>)
      requires Valid()
      modifies modes`currMode, Buttons(), Scenes()
      ensures Valid() && buttonsMap == old(buttonsMap)
      ensures flags == FlagsAfter(target)
      ensures fired == Fired(target, buttonOperationFlags, buttonsMap.Keys, 8)
      ensures forall k :: k in buttonsMap ==>
        buttonsMap[k].currentIndex ==
          if k in fired then Inputs.Stepped(old(buttonsMap[k].currentIndex), |buttonsMap[k].actionGroups|)
          else old(buttonsMap[k].currentIndex)
      ensures modes.currMode == old(modes.currMode)
      ensures forall g :: g in Scenes() ==>
        && g.requireReport == old(g.requireReport)
        && g.running == (old(g.running) || (spawned && g in ScenesOf(fired, old(Cursors()))))
    {
      ghost var keys: set<int> := buttonsMap.Keys;
      var operationFlags := buttonOperationFlags;
      ghost var flags0 := operationFlags;
      ghost var cursors0 := Cursors();
      ghost var running0 := map g | g in Scenes() :: g.running;
      ghost var report0 := map g | g in Scenes() :: g.requireReport;
      fired := [];
      var i: nat := 0;
      while i < 8
        invariant i <= 8
        invariant Valid() && buttonsMap == old(buttonsMap) && flags0 == buttonOperationFlags
        invariant fired == Fired(target, flags0, buttonsMap.Keys, i)
        invariant FlagsScanned(operationFlags, target, flags0, i)
        invariant CursorsScanned(cursors0, target, flags0, i)
        invariant ScenesRun(running0, report0, spawned, ScenesOf(fired, cursors0))
        invariant modes.currMode == old(modes.currMode)
      {
        operationFlags, fired := ScanKey(i, target, operationFlags, fired, flags0, cursors0, running0, report0, modes, spawned);
        i := i + 1;
      }
      ScannedFlags(operationFlags, target, flags0);
      flags := operationFlags;
      FiredMembers(target, flags0, keys, 8);
      forall k | k in buttonsMap
        ensures buttonsMap[k].currentIndex ==
          if k in fired then Inputs.Stepped(old(buttonsMap[k].currentIndex), |buttonsMap[k].actionGroups|)
          else old(buttonsMap[k].currentIndex)
      {
        assert k in fired <==> FiresAt(target, flags0, k);
      }
    }

    /** Every button's cursor after the first `i` keys of a report have been scanned. */
    ghost predicate CursorsScanned(cursors0: map<byte, byte>, target: bv8, flags0: bv8, i: nat)
      reads this, Buttons()
    {
      cursors0.Keys == buttonsMap.Keys
      && forall k :: k in buttonsMap ==>
        buttonsMap[k].currentIndex ==
          if k < i && FiresAt(target, flags0, k) then Inputs.Stepped(cursors0[k], |buttonsMap[k].actionGroups|)
          else cursors0[k]
    }

    /**
     * One step of the scan in `switchReport`: key `i` fires its button when
     * it is down and not operating, and its operating flag follows the key.
     */
    method ScanKey(i: nat, target: bv8, operationFlags: bv8, fired: seq<nat>, ghost flags0: bv8, ghost cursors0: map<byte, byte>,
                   ghost running0: map<ActionGroups.ActionGroup, bool>, ghost report0: map<ActionGroups.ActionGroup, bool>,
                   modes: ManagerBase.LordManager, spawned: bool)
      returns (flags: bv8, fired': seq<nat>)
      requires i < 8 && Valid() && fired == Fired(target, flags0, buttonsMap.Keys, i)
      requires FlagsScanned(operationFlags, target, flags0, i) && CursorsScanned(cursors0, target, flags0, i)
      requires ScenesRun(running0, report0, spawned, ScenesOf(fired, cursors0))
      modifies modes`currMode, Buttons(), Scenes()
      ensures buttonsMap == old(buttonsMap) && buttonOperationFlags == old(buttonOperationFlags)
      ensures fired' == Fired(target, flags0, buttonsMap.Keys, i + 1)
      ensures FlagsScanned(flags, target, flags0, i + 1) && CursorsScanned(cursors0, target, flags0, i + 1)
      ensures ScenesRun(running0, report0, spawned, ScenesOf(fired', cursors0))
      ensures modes.currMode == old(modes.currMode)
    {
      var isPressed := target & Mask(i) == 0;
      var isOperating := operationFlags & Mask(i) != 0;
      flags, fired' := operationFlags, fired;
      if isPressed && !isOperating {
        if i in buttonsMap {
          assert buttonsMap[i].currentIndex == cursors0[i];
          FireKey(i, cursors0, running0, report0, fired, modes, spawned);
          fired' := fired + [i];
        }
        flags := WithBit(operationFlags, i, true);
      } else if !isPressed && isOperating {
        flags := WithBit(operationFlags, i, false);
      }
      FlagFollowsKey(operationFlags, target, flags0, i, flags);
    }

    /** Key `i` fires during the scan: its button runs the scene under its cursor and advances it. */
    method FireKey(i: byte, ghost cursors0: map<byte, byte>,
                   ghost running0: map<ActionGroups.ActionGroup, bool>, ghost report0: map<ActionGroups.ActionGroup, bool>,
                   ghost fired: seq<nat>, modes: ManagerBase.LordManager, spawned: bool)
      requires Valid() && i in buttonsMap && i in cursors0 && buttonsMap[i].currentIndex == cursors0[i]
      requires ScenesRun(running0, report0, spawned, ScenesOf(fired, cursors0))
      modifies modes`currMode, Buttons(), Scenes()
      ensures buttonsMap[i].currentIndex == Inputs.Stepped(old(buttonsMap[i].currentIndex), |buttonsMap[i].actionGroups|)
      ensures forall k: byte :: k in buttonsMap && k != i ==> buttonsMap[k].currentIndex == old(buttonsMap[k].currentIndex)
      ensures ScenesRun(running0, report0, spawned, ScenesOf(fired + [i as nat], cursors0))
      ensures modes.currMode == old(modes.currMode)
    {
      ghost var asked := ScenesOf(fired, cursors0);
      ExecuteKey(i, modes, spawned);
      forall g | g in Scenes()
        ensures g.running == (running0[g] || (spawned && g in asked + SceneOf(i as int, cursors0)))
      {
        SceneOfNamed(i as int, cursors0, g);
      }
      ScenesOfSnoc(fired, i as nat, cursors0);
    }

    /** One key of a report: the key's button executes; every other button keeps its cursor. */
    method ExecuteKey(k: byte, modes: ManagerBase.LordManager, spawned: bool)
      requires Valid() && k in buttonsMap
      modifies buttonsMap[k], modes`currMode, Scenes()
      ensures buttonsMap[k].currentIndex == Inputs.Stepped(old(buttonsMap[k].currentIndex), |buttonsMap[k].actionGroups|)
      ensures forall k': byte :: k' in buttonsMap && k' != k ==> buttonsMap[k'].currentIndex == old(buttonsMap[k'].currentIndex)
      ensures modes.currMode == old(modes.currMode)
      ensures forall g :: g in Scenes() ==>
        && g.requireReport == old(g.requireReport)
        && g.running == (old(g.running) || (spawned && RequestsScene(k as int, old(buttonsMap[k].currentIndex) as int, g)))
    {
      var button := buttonsMap[k];
      if button.currentIndex < |button.actionGroups| {
        assert button in buttonsMap.Values;
        assert button.actionGroups[button.currentIndex] in button.actionGroups;
      }
      button.Execute(modes, spawned);
    }

    /** `publish_bl_state`: write the backlight byte to the panel (the fourth parameter is ignored by the panel). */
    method PublishBlState(port: Rs485Frames.Rs485Port)
      modifies port
      ensures port.queue == old(port.queue) + [Rs485Frames.ResponseFrame(Rs485Frames.SWITCH_WRITE, 0x00, pid, 0xFF, buttonBlStates as int)]
    {
      port.GenerateResponse(Rs485Frames.SWITCH_WRITE, 0x00, pid, 0xFF, buttonBlStates as int);
    }

    /**
     * `updateButtonIndicator`: for a button of this panel, set or clear its
     * backlight bit and ask the indicator queue for one publish of this
     * panel; an unknown button changes nothing.
     */
    method UpdateButtonIndicator(bid: byte, state: bool, holder: Indicator.IndicatorHolder)
      requires Valid() && holder.Valid()
      modifies this`buttonBlStates, holder
      ensures holder.Valid()
      ensures bid in buttonsMap ==>
        buttonBlStates == WithBit(old(buttonBlStates), bid, state)
        && holder.Contents() == Indicator.Added(old(holder.Contents()), Indicator.PublishBacklight(pid), pid)
      ensures bid !in buttonsMap ==> buttonBlStates == old(buttonBlStates) && holder.Contents() == old(holder.Contents())
    {
      if bid in buttonsMap {
        var button := buttonsMap[bid];
        buttonBlStates := WithBit(buttonBlStates, button.bid, state);
        holder.AddFunction(Indicator.PublishBacklight(pid), pid);
      }
    }
  }

  /** Lighting a key touches only that key's bit of the backlight byte, and sets it to the requested state. */
  lemma IndicatorTouchesOneKey(bl: bv8, bid: byte, state: bool)
    requires bid < 8
    ensures Bit(WithBit(bl, bid, state), bid) == state
    ensures forall j: nat :: j != bid ==> Bit(WithBit(bl, bid, state), j) == Bit(bl, j)
  {
  }
}
