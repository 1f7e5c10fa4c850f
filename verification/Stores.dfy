// The in-memory stores behind the engine (src/core/storage.ts). Values are immutable here, so the
// copies the originals make at every boundary are the values themselves.
module Stores {
  import opened Domain
  import opened EventSourcing
  import opened Json
  import opened Reduction
  import opened Runtime
  import opened Wrappers

  class EventStore {
    var values: seq<Event>

    constructor ()
      ensures values == []
    {
      values := [];
    }

    method Append(events: seq<Event>)
      modifies this
      ensures values == old(values) + events
    {
      values := values + events;
    }

    /** The reduce over the log: the highest version of this aggregate, 0 when it has none. */
    method CurrentSequenceVersion(id: Id) returns (version: int)
      ensures version == CurrentVersion(values, id)
    {
      version := 0;
      var i := 0;
      while i < |values|
        invariant 0 <= i <= |values|
        invariant version == CurrentVersion(values[..i], id)
      {
        assert values[..i + 1][..i] == values[..i];
        if values[i].aggregate == id && values[i].version > version {
          version := values[i].version;
        }
        i := i + 1;
      }
      assert values[..i] == values;
    }

    method Clear()
      modifies this
      ensures values == []
    {
      values := [];
    }
  }

  class StateStore {
    var values: States

    constructor ()
      ensures values == map[]
    {
      values := map[];
    }

    method Set(id: Id, value: Object)
      modifies this
      ensures values == old(values)[id := value]
    {
      values := values[id := value];
    }

    method Delete(id: Id)
      modifies this
      ensures values == old(values) - {id}
    {
      values := values - {id};
    }

    method Clear()
      modifies this
      ensures values == map[]
    {
      values := map[];
    }
  }

  class IdempotencyStore {
    var values: map<string, Entry>

    constructor ()
      ensures values == map[]
    {
      values := map[];
    }

    /** A read at a request's own time leaves expired entries in place; a read at the shared clock
        drops them. An expired entry is never returned. */
    method Get(key: string, at: Option<int>, now: int) returns (item: Option<Execution>)
      modifies this
      ensures item.Some? <==> key in old(values)
                              && old(values)[key].expires > (match at case Some(t) => t case None => now)
      ensures item.Some? ==> item.value == old(values)[key].result
      ensures values == if at.None? && item.None? then old(values) - {key} else old(values)
    {
      if key !in values {
        assert values - {key} == values;
        return None;
      }
      var entry := values[key];
      if entry.expires <= (match at case Some(t) => t case None => now) {
        if at.None? { values := values - {key}; }
        return None;
      }
      return Some(entry.result);
    }

    method Set(key: string, result: Execution, ttlSeconds: int, now: int)
      modifies this
      ensures values == old(values)[key := Entry(result, now + Lifetime(ttlSeconds))]
    {
      values := values[key := Entry(result, now + Lifetime(ttlSeconds))];
    }

    method Clear()
      modifies this
      ensures values == map[]
    {
      values := map[];
    }
  }
}
