/**
 * The older registry layer (manager_base.h): a generic keyed
 * ResourceManager, the device manager's "all devices of one type" query,
 * and the configuration singleton that holds the current mode name.
 */
module ManagerBase {
  import opened Wrappers

  /** `getItem`: the stored item, or null (None) when the key is absent. */
  function Lookup<K, V>(m: map<K, V>, id: K): (r: Option<V>)
    ensures r.Some? <==> id in m
    ensures r.Some? ==> r.value == m[id]
  {
    if id in m then Some(m[id]) else None
  }

  /** `addItem` then `getItem` on the same key returns the item; a second `addItem` overwrites the first. */
  lemma AddThenGet<K, V>(m: map<K, V>, id: K, a: V, b: V)
    ensures Lookup(m[id := a], id) == Some(a)
    ensures Lookup(m[id := a][id := b], id) == Some(b)
  {
  }

  /** `removeItem` makes the key absent and keeps every other entry. */
  lemma RemoveThenGet<K, V>(m: map<K, V>, id: K, other: K)
    requires other != id
    ensures Lookup(m - {id}, id) == None
    ensures Lookup(m - {id}, other) == Lookup(m, other)
  {
  }

  /** Some element of a non-empty set: one step of iterating over a map's keys. */
  method Choose<K>(s: set<K>) returns (k: K)
    requires s != {}
    ensures k in s
  {
    k :| k in s;
  }

  /** The keys whose entries pass `keep`. */
  function MatchingKeys<K, V>(m: map<K, V>, keep: V -> bool): set<K>
  {
    set k | k in m && keep(m[k])
  }

  /**
   * The "collect every entry of one kind" loop (`getDevicesOfType`, and the
   * registry's `getDevicesByType` and `getAllModeActionGroup`): one result
   * per matching key, in the map's iteration order, which is unspecified.
   */
  method CollectMatching<K, V>(m: map<K, V>, keep: V -> bool) returns (r: seq<V>, ghost keys: seq<K>)
    ensures |r| == |keys| == |MatchingKeys(m, keep)|
    ensures forall i :: 0 <= i < |keys| ==> keys[i] in m && keep(m[keys[i]]) && r[i] == m[keys[i]]
    ensures forall i, j :: 0 <= i < j < |keys| ==> keys[i] != keys[j]
    ensures forall k :: k in MatchingKeys(m, keep) ==> k in keys
    ensures forall v :: v in r <==> exists k :: k in m && keep(m[k]) && m[k] == v
  {
    r, keys := [], [];
    var rest := m.Keys;
    ghost var taken: set<K> := {};
    while rest != {}
      invariant rest !! taken && rest + taken == m.Keys
      invariant |r| == |keys|
      invariant forall i :: 0 <= i < |keys| ==> keys[i] in taken && keep(m[keys[i]]) && r[i] == m[keys[i]]
      invariant forall i, j :: 0 <= i < j < |keys| ==> keys[i] != keys[j]
      invariant forall k :: k in taken && keep(m[k]) ==> k in keys
      decreases rest
    {
      var k :| k in rest;
      if keep(m[k]) {
        r, keys := r + [m[k]], keys + [k];
      }
      rest, taken := rest - {k}, taken + {k};
    }
    assert taken == m.Keys;
    assert forall k :: k in keys <==> k in MatchingKeys(m, keep);
    DistinctKeysCount(keys, MatchingKeys(m, keep));
    CollectedValues(m, keep, r, keys);
  }

  /** Values picked key by key, with every matching key picked, are exactly the matching values. */
  lemma CollectedValues<K, V>(m: map<K, V>, keep: V -> bool, r: seq<V>, keys: seq<K>)
    requires |r| == |keys|
    requires forall i :: 0 <= i < |keys| ==> keys[i] in m && keep(m[keys[i]]) && r[i] == m[keys[i]]
    requires forall k :: k in MatchingKeys(m, keep) ==> k in keys
    ensures forall v :: v in r <==> exists k :: k in m && keep(m[k]) && m[k] == v
  {
    forall v | exists k :: k in m && keep(m[k]) && m[k] == v
      ensures v in r
    {
      var k :| k in m && keep(m[k]) && m[k] == v;
      assert k in MatchingKeys(m, keep);
      var i :| 0 <= i < |keys| && keys[i] == k;
      assert r[i] == v;
    }
  }

  /** A duplicate-free sequence listing exactly the elements of `s` has `|s|` entries. */
  lemma {:induction false} DistinctKeysCount<K>(keys: seq<K>, s: set<K>)
    requires forall i, j :: 0 <= i < j < |keys| ==> keys[i] != keys[j]
    requires forall k :: k in keys <==> k in s
    ensures |keys| == |s|
    decreases |keys|
  {
    if keys != [] {
      var last := keys[|keys| - 1];
      var init := keys[..|keys| - 1];
      forall k ensures k in init <==> k in s - {last} {
        if k in init {
          var i :| 0 <= i < |init| && init[i] == k;
          assert keys[i] == k;
        }
        if k in s - {last} {
          assert k in keys;
          var i :| 0 <= i < |keys| && keys[i] == k;
          assert i != |keys| - 1;
          assert init[i] == k;
        }
      }
      DistinctKeysCount(init, s - {last});
    } else {
      assert forall k :: k !in s;
      assert s == {};
    }
  }

  /** `ResourceManager<KeyType, ValueType>`: a keyed registry of shared items. */
  class ResourceManager<K(==), V> {
    var resourceMap: map<K, V>

    constructor ()
      ensures resourceMap == map[]
    {
      resourceMap := map[];
    }

    /** `addItem`: store `item` under `id`, replacing any previous item. */
    method AddItem(id: K, item: V)
      modifies this
      ensures resourceMap == old(resourceMap)[id := item]
    {
      resourceMap := resourceMap[id := item];
    }

    /** `getItem`. */
    method GetItem(id: K) returns (r: Option<V>)
      ensures r.Some? <==> id in resourceMap
      ensures r.Some? ==> r.value == resourceMap[id]
    {
      r := if id in resourceMap then Some(resourceMap[id]) else None;
    }

    /** `removeItem`. */
    method RemoveItem(id: K)
      modifies this
      ensures resourceMap == old(resourceMap) - {id}
    {
      resourceMap := resourceMap - {id};
    }

    /** `clear`. */
    method Clear()
      modifies this
      ensures resourceMap == map[]
    {
      resourceMap := map[];
    }

    /** `DeviceManager::getDevicesOfType<T>()`, with the dynamic type test given as `isT`. */
    method GetItemsOfType(isT: V -> bool) returns (items: seq<V>, ghost keys: seq<K>)
      ensures |items| == |keys| == |MatchingKeys(resourceMap, isT)|
      ensures forall i :: 0 <= i < |keys| ==> keys[i] in resourceMap && isT(resourceMap[keys[i]]) && items[i] == resourceMap[keys[i]]
      ensures forall v :: v in items <==> exists k :: k in resourceMap && isT(resourceMap[k]) && resourceMap[k] == v
    {
      items, keys := CollectMatching(resourceMap, isT);
    }
  }

  /** The older `LordManager` configuration singleton: version, wait-to-die state and the current mode name. */
  class LordManager {
    var configVersion: string
    var aliveChannel: int
    var doorChannel: int
    var waitToDieState: string
    var waitToDieSec: int
    var currMode: string

    constructor ()
      ensures configVersion == "" && waitToDieState == "" && waitToDieSec == 0 && currMode == ""
    {
      configVersion, aliveChannel, doorChannel := "", 0, 0;
      waitToDieState, waitToDieSec, currMode := "", 0, "";
    }

    /** `setCurrMode`. */
    method SetCurrMode(mode: string)
      modifies this`currMode
      ensures currMode == mode
    {
      currMode := mode;
    }

    /** `getCurrMode`: after `SetCurrMode(m)` it returns `m`. */
    method GetCurrMode() returns (mode: string)
      ensures mode == currMode
    {
      mode := currMode;
    }

    /** `clear`: empties the version, the wait-to-die state and the mode, and zeroes the seconds; the channels are kept. */
    method Clear()
      modifies this
      ensures configVersion == "" && waitToDieState == "" && waitToDieSec == 0 && currMode == ""
      ensures aliveChannel == old(aliveChannel) && doorChannel == old(doorChannel)
    {
      configVersion, waitToDieState, waitToDieSec, currMode := "", "", 0, "";
    }
  }
}
