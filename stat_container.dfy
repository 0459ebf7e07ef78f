/** `CC.Stats.StatContainer<E>` of the second generation
    (Plugins/NekoLAB/NekoStats/StatContainer.cs): a dictionary from enum key
    to a tick-driven stat of the relay graph, and the list of `StatWrapper`
    records beside it. Its `Tick` and `Reset` do nothing yet. */
module StatContainer {
  import opened Lists
  import opened Listing
  import RelayGraph

  class Container {
    var stats: map<Key, RelayGraph.NodeId>                 // _stats
    var statList: seq<Wrapper<RelayGraph.NodeId>>          // _statList

    ghost predicate Valid()
      reads this
    {
      InStep(stats, statList)
    }

    constructor ()
      ensures Valid() && stats == map[] && statList == []
    {
      stats, statList := map[], [];
    }

    /** `Tick`: reads every wrapper in order and does nothing with it. No
        `modifies` clause: nothing changes. */
    method Tick()
      requires Valid()
      ensures Valid()
    {
      var i := 0;
      while i < |statList|
        invariant i <= |statList|
      {
        var wrapper := statList[i];
        i := i + 1;
      }
    }

    /** `Clear`: empties the dictionary and the list. */
    method Clear()
      modifies this
      ensures Valid() && stats == map[] && statList == []
    {
      stats, statList := map[], [];
    }

    /** `Reset`: an empty body. No `modifies` clause: nothing changes. */
    method Reset()
      requires Valid()
      ensures Valid()
    {
    }

    /** `Get`: the registered stat, or null (`None`). */
    method Get(e: Key) returns (s: Option<RelayGraph.NodeId>)
      requires Valid()
      ensures s.Some? <==> e in stats
      ensures s.Some? ==> s.value == stats[e] && exists i :: 0 <= i < |statList| && statList[i] == Wrapper(e, s.value, statList[i].tick)
    {
      if e in stats {
        s := Some(stats[e]);
        ghost var i :| 0 <= i < |statList| && Names(statList)[i] == e;
      } else {
        s := None;
      }
    }

    /** `TryGet`: whether the key is registered; the stat, or null. */
    method TryGet(e: Key) returns (found: bool, s: Option<RelayGraph.NodeId>)
      requires Valid()
      ensures found == (e in stats) && found == s.Some?
      ensures found ==> s.value == stats[e]
    {
      found := e in stats;
      s := if found then Some(stats[e]) else None;
    }

    /** `AddStat`: `Dictionary.Add` throws on a key already present, before
        the list is touched (`ok` false); otherwise both collections gain
        one entry. */
    method AddStat(e: Key, s: RelayGraph.NodeId, observe: bool) returns (ok: bool)
      requires Valid()
      modifies this
      ensures Valid()
      ensures ok == (e !in old(stats))
      ensures ok ==> stats == old(stats)[e := s] && statList == old(statList) + [Wrapper(e, s, observe)]
      ensures !ok ==> stats == old(stats) && statList == old(statList)
      ensures |stats| == |statList|
    {
      if e in stats {
        InStepSize(stats, statList);
        return false;
      }
      InStepAdd(stats, statList, e, s, observe);
      stats := stats[e := s];
      statList := statList + [Wrapper(e, s, observe)];
      InStepSize(stats, statList);
      ok := true;
    }

    /** `Create`: the stat already registered under `e`, or a new
        `Stat(0f)` registered under `e`; the `value` argument is not used. */
    method Create(e: Key, value: real, tick: bool, g: RelayGraph.Graph) returns (s: RelayGraph.NodeId)
      requires Valid() && g.Valid()
      modifies this, g
      ensures Valid() && g.Valid()
      ensures e in old(stats) ==>
        s == old(stats[e]) && stats == old(stats) && statList == old(statList)
        && g.values == old(g.values) && g.relays == old(g.relays) && g.subscribers == old(g.subscribers) && g.dirty == old(g.dirty)
      ensures e !in old(stats) ==>
        && s !in old(g.values) && g.dirty == old(g.dirty)[s := false]
        // the stat and the fresh base it reads are the only new nodes
        && (exists b :: b !in old(g.values) && b != s && g.values == old(g.values)[b := 0.0][s := 0.0]
              && g.relays == old(g.relays)[s := RelayGraph.StatRelay(Some(b), [])]
              && g.subscribers == old(g.subscribers)[b := []][s := []])
        && stats == old(stats)[e := s] && statList == old(statList) + [Wrapper(e, s, tick)]
    {
      var found, existing := TryGet(e);
      if found {
        return existing.value;
      }
      var b;
      s, b := g.NewStat(0.0);
      var ok := AddStat(e, s, tick);
      assert g.relays == old(g.relays)[s := RelayGraph.StatRelay(Some(b), [])];
    }
  }
}
