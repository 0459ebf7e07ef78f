/** What the two list-keeping `StatContainer<E>` classes share
    (Plugins/NekoLAB/NekoStats/StatContainer.cs and
    Plugins/NekoLAB/NekoStats/Runtime/StatContainer.cs): a dictionary from
    enum key to stat, and beside it a list of `StatWrapper` records in
    registration order, which `Tick` walks. */
module Listing {

  /** An enum value, as its index `0..n-1`. */
  type Key = nat

  /** `StatWrapper`: a registered key, its stat and its `Tick` flag. */
  datatype Wrapper<S> = Wrapper(name: Key, stat: S, tick: bool)

  /** The names of a wrapper list, in order. */
  function Names<S>(ws: seq<Wrapper<S>>): seq<Key>
  {
    seq(|ws|, i requires 0 <= i < |ws| => ws[i].name)
  }

  /** The dictionary and the list hold the same registrations: each listed
      wrapper's name maps to its stat, no name is listed twice, and every key
      of the dictionary is listed. */
  ghost predicate InStep<S>(stats: map<Key, S>, ws: seq<Wrapper<S>>)
  {
    && (forall i :: 0 <= i < |ws| ==> ws[i].name in stats && stats[ws[i].name] == ws[i].stat)
    && (forall i, j :: 0 <= i < j < |ws| ==> ws[i].name != ws[j].name)
    && (forall k :: k in stats ==> k in Names(ws))
  }

  /** `AddStat` with a key not yet registered: the dictionary gains the key
      and the list one wrapper, and they stay in step. */
  lemma InStepAdd<S>(stats: map<Key, S>, ws: seq<Wrapper<S>>, k: Key, s: S, tick: bool)
    requires InStep(stats, ws) && k !in stats
    ensures InStep(stats[k := s], ws + [Wrapper(k, s, tick)])
  {
    var ws' := ws + [Wrapper(k, s, tick)];
    forall i, j | 0 <= i < j < |ws'|
      ensures ws'[i].name != ws'[j].name
    {
      if j == |ws| {
        assert ws[i].name in stats;
      }
    }
    forall k' | k' in stats[k := s]
      ensures k' in Names(ws')
    {
      if k' == k {
        assert Names(ws')[|ws|] == k;
      } else {
        var i :| 0 <= i < |ws| && Names(ws)[i] == k';
        assert Names(ws')[i] == k';
      }
    }
  }

  /** `order` is one enumeration of a dictionary's keys (the order of its
      `Keys` or `Values`, which the dictionary chooses): each key once. */
  ghost predicate Enumerates<K, S>(stats: map<K, S>, order: seq<K>)
  {
    && (forall i :: 0 <= i < |order| ==> order[i] in stats)
    && (forall k :: k in stats ==> k in order)
    && (forall i, j :: 0 <= i < j < |order| ==> order[i] != order[j])
  }

  /** Map and list in step hold one entry per key: they grow together. */
  lemma {:induction false} InStepSize<S>(stats: map<Key, S>, ws: seq<Wrapper<S>>)
    requires InStep(stats, ws)
    ensures |stats| == |ws|
  {
    if ws == [] {
      assert stats.Keys == {};
    } else {
      var n := |ws| - 1;
      var last := ws[n].name;
      var stats' := stats - {last};
      var ws' := ws[..n];
      forall k | k in stats'
        ensures k in Names(ws')
      {
        var i :| 0 <= i < |ws| && Names(ws)[i] == k;
        assert i != n;
        assert Names(ws')[i] == k;
      }
      assert InStep(stats', ws');
      InStepSize(stats', ws');
      assert stats'.Keys == stats.Keys - {last};
    }
  }
}
