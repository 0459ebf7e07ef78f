/** `CC.Stats.StatContainer<E>` of the first generation
    (Runtime/StatContainer.cs): a dictionary from enum key to stat of the
    modifier graph, written through its indexer. */
module StatTable {
  import opened Listing
  import StatGraph

  class Table {
    var stats: map<Key, StatGraph.StatId>   // _stats

    constructor ()
      ensures stats == map[]
    {
      stats := map[];
    }

    /** `Add`: `_stats[e] = stat`, which inserts a new key and replaces the
        stat of a registered one without error; no other key changes. */
    method Add(e: Key, stat: StatGraph.StatId)
      modifies this
      ensures e in stats && stats[e] == stat
      ensures stats.Keys == old(stats).Keys + {e}
      ensures forall k :: k in old(stats) && k != e ==> stats[k] == old(stats)[k]
    {
      stats := stats[e := stat];
    }

    /** `Clear`: no key remains. */
    method Clear()
      modifies this
      ensures stats == map[]
    {
      stats := map[];
    }
  }
}
