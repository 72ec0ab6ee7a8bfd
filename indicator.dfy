/**
 * The indicator coalescer (IndicatorHolder): while a scene runs, every
 * panel whose backlight changed asks for one "publish backlight" closure;
 * requests are keyed by the panel, so a panel is published at most once
 * per flush, and the whole queue is flushed when the scene ends.
 */
module Indicator {

  /** A queued closure, identified by the panel whose backlight it publishes. */
  datatype Publish = PublishBacklight(pid: int)

  /** Value view of the holder: the queued closures in order, and the panel keys already registered. */
  datatype Queue = Queue(functions: seq<Publish>, registered: set<int>)

  /** The holder's invariant: exactly one queued closure per registered key. */
  predicate Balanced(q: Queue)
  {
    |q.functions| == |q.registered|
  }

  /** The queue after `addFunction(f, key)`: `f` is appended only when `key` is not yet registered. */
  function Added(q: Queue, f: Publish, key: int): Queue
  {
    if key in q.registered then q else Queue(q.functions + [f], q.registered + {key})
  }

  /** Each queued closure publishes a registered panel, and each registered panel has its closure queued. */
  predicate Keyed(q: Queue)
  {
    && (forall f :: f in q.functions ==> f.pid in q.registered)
    && (forall k :: k in q.registered ==> PublishBacklight(k) in q.functions)
  }

  /** `addFunction` of a panel's own publish closure keeps the queue keyed. */
  lemma AddedKeepsKeyed(q: Queue, key: int)
    requires Keyed(q)
    ensures Keyed(Added(q, PublishBacklight(key), key))
  {
  }

  /** `addFunction` queues `f` iff its key is new, and keeps the queue balanced. */
  lemma AddedQueuesOnlyNewKeys(q: Queue, f: Publish, key: int)
    requires Balanced(q)
    ensures Balanced(Added(q, f, key))
    ensures key in Added(q, f, key).registered
    ensures Added(q, f, key).functions == if key in q.registered then q.functions else q.functions + [f]
  {
  }

  /** A second request for the same panel before a flush changes nothing: the flush runs one closure for it. */
  lemma SecondAddIsIgnored(q: Queue, f: Publish, g: Publish, key: int)
    ensures Added(Added(q, f, key), g, key) == Added(q, f, key)
    ensures key !in q.registered ==>
      |Added(Added(q, f, key), g, key).functions| == |q.functions| + 1
  {
  }

  /** After a flush the key set is empty again, so the same panel can be queued anew. */
  lemma RequeueAfterFlush(f: Publish, key: int)
    ensures Added(Queue([], {}), f, key) == Queue([f], {key})
  {
  }

  /** The singleton holder, with the two collections it updates in place. */
  class IndicatorHolder {
    var functions: seq<Publish>
    var registeredPanels: set<int>

    ghost predicate Valid()
      reads this
    {
      Balanced(Contents())
    }

    function Contents(): Queue
      reads this
    {
      Queue(functions, registeredPanels)
    }

    constructor ()
      ensures Valid() && Contents() == Queue([], {})
    {
      functions := [];
      registeredPanels := {};
    }

    /** `addFunction`: queue `f` unless a closure for `key` is already queued. */
    method AddFunction(f: Publish, key: int)
      requires Valid()
      modifies this
      ensures Valid()
      ensures Contents() == Added(old(Contents()), f, key)
    {
      if key !in registeredPanels {
        functions := functions + [f];
        registeredPanels := registeredPanels + {key};
      }
    }

    /**
     * `callAllAndClear`: run every queued closure once, in the order queued,
     * then empty both collections. The closures run are returned; running
     * one is Panel.PublishBlState.
     */
    method CallAllAndClear() returns (invoked: seq<Publish>)
      requires Valid()
      modifies this
      ensures Valid()
      ensures invoked == old(functions)
      ensures functions == [] && registeredPanels == {}
    {
      invoked := [];
      var i := 0;
      while i < |functions|
        invariant 0 <= i <= |functions|
        invariant invoked == functions[..i]
      {
        invoked := invoked + [functions[i]];
        i := i + 1;
      }
      functions := [];
      registeredPanels := {};
    }
  }
}
