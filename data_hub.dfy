/**
 * `DataHub`: a process-wide hand-over box between screens. A value is put
 * under a key and taken out once: `get` removes what it returns.
 */
module DataHubs {
  import opened Common

  /** The static `INSTANCE` and its `mHashMap`. */
  class DataHub<V> {
    var entries: map<string, V>

    constructor ()
      ensures entries == map[]
    {
      entries := map[];
    }

    /** `put`: stores `value`, replacing whatever the key held. */
    method Put(key: string, value: V)
      modifies this
      ensures entries == old(entries)[key := value]
    {
      entries := entries[key := value];
    }

    /** `get`: `mHashMap.remove(key)`, the value held (null if none), now gone. */
    method Get(key: string) returns (r: Option<V>)
      modifies this
      ensures key in old(entries) ==> r == Some(old(entries)[key])
      ensures key !in old(entries) ==> r == None
      ensures entries == old(entries) - {key}
    {
      if key in entries {
        r := Some(entries[key]);
        entries := entries - {key};
      } else {
        r := None;
      }
    }
  }

  /**
   * A hand-over: the latest value put under `key` is taken once, a second
   * take finds nothing, and every other key keeps its value.
   */
  method HandOver<V>(hub: DataHub<V>, key: string, first: V, second: V) returns (taken: Option<V>, again: Option<V>)
    modifies hub
    ensures taken == Some(second) && again == None
    ensures key !in hub.entries
    ensures forall k :: k != key ==> (k in hub.entries <==> k in old(hub.entries))
    ensures forall k :: k != key && k in hub.entries ==> hub.entries[k] == old(hub.entries)[k]
  {
    hub.Put(key, first);
    hub.Put(key, second);
    taken := hub.Get(key);
    again := hub.Get(key);
  }
}
