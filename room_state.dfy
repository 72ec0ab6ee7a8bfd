/**
 * The room-state set (room_state.cpp): a global vector of state names such
 * as "勿扰" or "SOS", changed in place with push_back and erase and never
 * holding a name twice.
 */
module RoomState {

  /** No name occurs twice. */
  predicate NoDup(xs: seq<string>)
  {
    forall i, j :: 0 <= i < j < |xs| ==> xs[i] != xs[j]
  }

  /** `std::find`: the first position holding `s`, or `|xs|` when there is none. */
  function IndexOf(xs: seq<string>, s: string): (k: nat)
    ensures k <= |xs|
    ensures k < |xs| ==> xs[k] == s
    ensures forall i :: 0 <= i < k ==> xs[i] != s
  {
    if xs == [] then 0 else if xs[0] == s then 0 else 1 + IndexOf(xs[1..], s)
  }

  /** The array after `add_state(s)`. */
  function Added(xs: seq<string>, s: string): seq<string>
  {
    if s in xs then xs else xs + [s]
  }

  /** The array after erasing the first occurrence of `s`, if any. */
  function Removed(xs: seq<string>, s: string): seq<string>
  {
    var k := IndexOf(xs, s);
    if k < |xs| then xs[..k] + xs[k + 1..] else xs
  }

  /** The array after `toggle_state(s)`. */
  function Toggled(xs: seq<string>, s: string): seq<string>
  {
    if s in xs then Removed(xs, s) else xs + [s]
  }

  /** The other names, in their order: `xs` with every `s` filtered out. */
  function Without(xs: seq<string>, s: string): seq<string>
  {
    if xs == [] then []
    else if xs[|xs| - 1] == s then Without(xs[..|xs| - 1], s)
    else Without(xs[..|xs| - 1], s) + [xs[|xs| - 1]]
  }

  lemma {:induction false} WithoutAppend(a: seq<string>, b: seq<string>, s: string)
    ensures Without(a + b, s) == Without(a, s) + Without(b, s)
    decreases |b|
  {
    if b == [] {
      assert a + b == a;
    } else {
      var b' := b[..|b| - 1];
      assert (a + b)[..|a + b| - 1] == a + b';
      WithoutAppend(a, b', s);
    }
  }

  lemma WithoutSingle(t: string, s: string)
    ensures Without([t], s) == if t == s then [] else [t]
  {
    assert [t][..0] == [];
  }

  /** `add_state` makes `s` present, adds nothing else, and never creates a duplicate. */
  lemma AddedSpec(xs: seq<string>, s: string)
    requires NoDup(xs)
    ensures NoDup(Added(xs, s))
    ensures forall t :: t in Added(xs, s) <==> t in xs || t == s
    ensures Added(Added(xs, s), s) == Added(xs, s)
  {
  }

  /** `remove_state` leaves `s` absent and every other name present, without duplicates. */
  lemma RemovedSpec(xs: seq<string>, s: string)
    requires NoDup(xs)
    ensures NoDup(Removed(xs, s))
    ensures forall t :: t in Removed(xs, s) <==> t in xs && t != s
  {
    var k := IndexOf(xs, s);
    if k < |xs| {
      var r := xs[..k] + xs[k + 1..];
      forall t | t in xs && t != s ensures t in r {
        var i :| 0 <= i < |xs| && xs[i] == t;
        if i < k { assert r[i] == t; } else { assert r[i - 1] == t; }
      }
      forall i, j | 0 <= i < j < |r| ensures r[i] != r[j] {
        var i' := if i < k then i else i + 1;
        var j' := if j < k then j else j + 1;
        assert r[i] == xs[i'] && r[j] == xs[j'];
      }
    }
  }

  /** `toggle_state` flips the membership of `s` and of nothing else. */
  lemma ToggledSpec(xs: seq<string>, s: string)
    requires NoDup(xs)
    ensures NoDup(Toggled(xs, s))
    ensures s in Toggled(xs, s) <==> s !in xs
    ensures forall t :: t != s ==> (t in Toggled(xs, s) <==> t in xs)
  {
    RemovedSpec(xs, s);
  }

  /** Add, remove and toggle keep the other names in their relative order. */
  lemma OthersKeepOrder(xs: seq<string>, s: string)
    ensures Without(Added(xs, s), s) == Without(xs, s)
    ensures Without(Removed(xs, s), s) == Without(xs, s)
    ensures Without(Toggled(xs, s), s) == Without(xs, s)
  {
    WithoutAppend(xs, [s], s);
    WithoutSingle(s, s);
    var k := IndexOf(xs, s);
    if k < |xs| {
      assert xs == xs[..k] + [s] + xs[k + 1..];
      WithoutAppend(xs[..k] + [s], xs[k + 1..], s);
      WithoutAppend(xs[..k], [s], s);
      WithoutAppend(xs[..k], xs[k + 1..], s);
    }
  }

  /** The global `state_array`. */
  class RoomStates {
    var states: seq<string>

    ghost predicate Valid()
      reads this
    {
      NoDup(states)
    }

    constructor ()
      ensures Valid() && states == []
    {
      states := [];
    }

    /** `std::find` over the array: the first position holding `s`, or the length when absent. */
    method Find(s: string) returns (k: nat)
      ensures k <= |states|
      ensures k < |states| ==> states[k] == s
      ensures forall i :: 0 <= i < k ==> states[i] != s
    {
      k := 0;
      while k < |states| && states[k] != s
        invariant k <= |states|
        invariant forall i :: 0 <= i < k ==> states[i] != s
      {
        k := k + 1;
      }
    }

    /** `add_state`. */
    method AddState(s: string)
      requires Valid()
      modifies this
      ensures Valid()
      ensures states == Added(old(states), s)
    {
      var k := Find(s);
      if k == |states| {
        states := states + [s];
      }
      AddedSpec(old(states), s);
    }

    /** `remove_state`: true iff `s` was present. */
    method RemoveState(s: string) returns (removed: bool)
      requires Valid()
      modifies this
      ensures Valid()
      ensures removed <==> s in old(states)
      ensures states == Removed(old(states), s)
      ensures s !in states
    {
      var k := Find(s);
      assert k == IndexOf(states, s) by { IndexUnique(states, s, k); }
      removed := k < |states|;
      if removed {
        states := states[..k] + states[k + 1..];
      }
      RemovedSpec(old(states), s);
    }

    /** `toggle_state`. */
    method ToggleState(s: string)
      requires Valid()
      modifies this
      ensures Valid()
      ensures states == Toggled(old(states), s)
    {
      var k := Find(s);
      assert k == IndexOf(states, s) by { IndexUnique(states, s, k); }
      if k < |states| {
        states := states[..k] + states[k + 1..];
      } else {
        states := states + [s];
      }
      ToggledSpec(old(states), s);
    }

    /** `exist_state`. */
    method ExistState(s: string) returns (present: bool)
      ensures present <==> s in states
    {
      var k := Find(s);
      present := k < |states|;
    }

    /** `getRoomStates`: a copy of the array. */
    method GetRoomStates() returns (copy: seq<string>)
      ensures copy == states
    {
      copy := states;
    }
  }

  /** Any index with the `std::find` properties is the one IndexOf computes. */
  lemma IndexUnique(xs: seq<string>, s: string, k: nat)
    requires k <= |xs|
    requires k < |xs| ==> xs[k] == s
    requires forall i :: 0 <= i < k ==> xs[i] != s
    ensures k == IndexOf(xs, s)
  {
  }
}
