/** `NekoLab.Stats.StatContainer<E>` (Plugins/NekoLAB/NekoStats/Runtime/StatContainer.cs):
    a registry of stats under enum keys, kept as a dictionary and a list of
    `StatWrapper` records in registration order. The `Stat` type it drives
    is not part of this model: a stat is an opaque reference, and every call
    the registry makes on one (`new Stat(v)`, the `BaseValue` and
    `InitialValue` setters, `SetUpperBound`, `Tick`, `Reset`) is appended to
    a trace of calls, in the order the registry makes them. */
module StatRegistry {
  import opened Lists
  import opened Listing

  /** A reference to an opaque `Stat` object. */
  type StatRef = nat

  /** One call the registry makes on a stat. */
  datatype Call =
    | Created(stat: StatRef, value: real)        // new Stat(value)
    | SetBaseValue(stat: StatRef, value: real)   // stat.BaseValue = value
    | SetInitialValue(stat: StatRef, value: real) // stat.InitialValue = value
    | SetUpperBound(stat: StatRef, bound: StatRef) // stat.SetUpperBound(bound)
    | Ticked(stat: StatRef)                      // stat.Tick()
    | ResetCalled(stat: StatRef)                 // stat.Reset()

  /** The calls `Tick` makes: `Tick()` on each wrapper's stat whose flag is
      set, in list order. */
  function TickCalls(ws: seq<Wrapper<StatRef>>): (r: seq<Call>)
    ensures |r| <= |ws|
    ensures forall i :: 0 <= i < |r| ==> r[i].Ticked?
  {
    if ws == [] then []
    else
      var last := ws[|ws| - 1];
      TickCalls(ws[..|ws| - 1]) + (if last.tick then [Ticked(last.stat)] else [])
  }

  /** The calls `ResetStats` makes when the dictionary enumerates its keys in
      the order `order`: `Reset()` on each key's stat. */
  function ResetCalls(stats: map<Key, StatRef>, order: seq<Key>): (r: seq<Call>)
    requires forall i :: 0 <= i < |order| ==> order[i] in stats
    ensures |r| == |order|
    ensures forall i :: 0 <= i < |r| ==> r[i] == ResetCalled(stats[order[i]])
  {
    if order == [] then []
    else ResetCalls(stats, order[..|order| - 1]) + [ResetCalled(stats[order[|order| - 1]])]
  }

  /** No stat is listed under two wrappers. */
  ghost predicate DistinctStats(ws: seq<Wrapper<StatRef>>)
  {
    forall i, j :: 0 <= i < j < |ws| ==> ws[i].stat != ws[j].stat
  }

  /** No stat is registered under two keys. */
  ghost predicate Injective(stats: map<Key, StatRef>)
  {
    forall k, k' :: k in stats && k' in stats && k != k' ==> stats[k] != stats[k']
  }

  /** The stat is listed with its `Tick` flag set. */
  ghost predicate Flagged(ws: seq<Wrapper<StatRef>>, s: StatRef)
  {
    exists i :: 0 <= i < |ws| && ws[i].stat == s && ws[i].tick
  }

  /** `Tick` ticks every flagged stat exactly once and no other stat. */
  lemma {:induction false} TickedOnce(ws: seq<Wrapper<StatRef>>, s: StatRef)
    requires DistinctStats(ws)
    ensures multiset(TickCalls(ws))[Ticked(s)] == if Flagged(ws, s) then 1 else 0
  {
    if ws != [] {
      var n := |ws| - 1;
      var front := ws[..n];
      assert DistinctStats(front);
      TickedOnce(front, s);
      if Flagged(ws, s) && !Flagged(front, s) {
        var i :| 0 <= i < |ws| && ws[i].stat == s && ws[i].tick;
        assert i == n;
      }
      if Flagged(front, s) {
        var i :| 0 <= i < |front| && front[i].stat == s && front[i].tick;
        assert ws[i].stat != ws[n].stat;
      }
      if ws[n].stat == s && ws[n].tick {
        assert Flagged(ws, s);
      }
    }
  }

  /** The stats of the keys of `order`, in that order. */
  function StatsAlong(stats: map<Key, StatRef>, order: seq<Key>): seq<StatRef>
    requires forall i :: 0 <= i < |order| ==> order[i] in stats
  {
    seq(|order|, i requires 0 <= i < |order| => stats[order[i]])
  }

  /** A `Reset()` call on each stat of `xs`, in order. */
  function Resets(xs: seq<StatRef>): seq<Call>
  {
    seq(|xs|, i requires 0 <= i < |xs| => ResetCalled(xs[i]))
  }

  /** Resetting the stats of `xs` calls `Reset()` on a stat as often as
      `xs` lists it. */
  lemma {:induction false} ResetsCount(xs: seq<StatRef>, s: StatRef)
    ensures multiset(Resets(xs))[ResetCalled(s)] == multiset(xs)[s]
  {
    if xs != [] {
      var n := |xs| - 1;
      ResetsCount(xs[..n], s);
      assert xs == xs[..n] + [xs[n]];
      assert Resets(xs) == Resets(xs[..n]) + [ResetCalled(xs[n])];
    }
  }

  /** A sequence without repeated elements holds each value at most once. */
  lemma {:induction false} AtMostOnce<T>(xs: seq<T>, x: T)
    requires forall i, j :: 0 <= i < j < |xs| ==> xs[i] != xs[j]
    ensures multiset(xs)[x] <= 1
  {
    if xs != [] {
      var n := |xs| - 1;
      AtMostOnce(xs[..n], x);
      assert xs == xs[..n] + [xs[n]];
      if xs[n] == x {
        forall i | 0 <= i < n
          ensures xs[..n][i] != x
        {
          assert xs[i] != xs[n];
        }
        assert x !in multiset(xs[..n]);
      }
    }
  }

  /** `ResetCalls` resets the stats along `order`. */
  lemma ResetCallsAlong(stats: map<Key, StatRef>, order: seq<Key>)
    requires forall i :: 0 <= i < |order| ==> order[i] in stats
    ensures ResetCalls(stats, order) == Resets(StatsAlong(stats, order))
  {
  }

  /** Distinct keys of an injective dictionary lead to distinct stats. */
  lemma DistinctAlong(stats: map<Key, StatRef>, order: seq<Key>)
    requires Enumerates(stats, order) && Injective(stats)
    ensures var xs := StatsAlong(stats, order);
            forall i, j :: 0 <= i < j < |xs| ==> xs[i] != xs[j]
  {
    var xs := StatsAlong(stats, order);
    forall i, j | 0 <= i < j < |xs|
      ensures xs[i] != xs[j]
    {
      assert order[i] != order[j];
    }
  }

  /** A registered stat is reset once. */
  lemma ResetRegistered(stats: map<Key, StatRef>, order: seq<Key>, s: StatRef)
    requires Enumerates(stats, order) && Injective(stats) && s in stats.Values
    ensures multiset(ResetCalls(stats, order))[ResetCalled(s)] == 1
  {
    var xs := StatsAlong(stats, order);
    ResetCallsAlong(stats, order);
    ResetsCount(xs, s);
    var k :| k in stats && stats[k] == s;
    var i :| 0 <= i < |order| && order[i] == k;
    assert xs[i] == s;
    DistinctAlong(stats, order);
    AtMostOnce(xs, s);
  }

  /** A stat that is not registered is never reset. */
  lemma ResetUnregistered(stats: map<Key, StatRef>, order: seq<Key>, s: StatRef)
    requires forall i :: 0 <= i < |order| ==> order[i] in stats
    requires s !in stats.Values
    ensures multiset(ResetCalls(stats, order))[ResetCalled(s)] == 0
  {
    var xs := StatsAlong(stats, order);
    ResetCallsAlong(stats, order);
    ResetsCount(xs, s);
    forall i | 0 <= i < |xs|
      ensures xs[i] != s
    {
      assert stats[order[i]] in stats.Values;
    }
  }

  /** `ResetStats` calls `Reset()` exactly once on every registered stat, and
      on no other stat, whatever order the dictionary enumerates its keys. */
  lemma ResetOnce(stats: map<Key, StatRef>, order: seq<Key>, s: StatRef)
    requires Enumerates(stats, order) && Injective(stats)
    ensures multiset(ResetCalls(stats, order))[ResetCalled(s)] ==
            if s in stats.Values then 1 else 0
  {
    if s in stats.Values {
      ResetRegistered(stats, order, s);
    } else {
      ResetUnregistered(stats, order, s);
    }
  }

  /** A list in step with the dictionary, with no stat listed twice, comes
      from an injective dictionary. */
  lemma InjectiveFromList(stats: map<Key, StatRef>, ws: seq<Wrapper<StatRef>>)
    requires InStep(stats, ws) && DistinctStats(ws)
    ensures Injective(stats)
  {
    forall k, k' | k in stats && k' in stats && k != k'
      ensures stats[k] != stats[k']
    {
      var i :| 0 <= i < |ws| && Names(ws)[i] == k;
      var j :| 0 <= j < |ws| && Names(ws)[j] == k';
      assert i != j;
      if i < j {
        assert ws[i].stat != ws[j].stat;
      } else {
        assert ws[j].stat != ws[i].stat;
      }
    }
  }

  class Registry {
    var stats: map<Key, StatRef>                 // _stats
    var statList: seq<Wrapper<StatRef>>          // _statList
    var calls: seq<Call>                         // the calls made on stats so far
    var nextRef: StatRef                         // the next `new Stat` reference

    ghost predicate Valid()
      reads this
    {
      && InStep(stats, statList)
      && DistinctStats(statList)
      && (forall i :: 0 <= i < |statList| ==> statList[i].stat < nextRef)
    }

    constructor ()
      ensures Valid() && stats == map[] && statList == [] && calls == []
    {
      stats, statList, calls, nextRef := map[], [], [], 0;
    }

    /** `Clear`: empties the dictionary and the list. */
    method Clear()
      requires Valid()
      modifies this`stats, this`statList
      ensures Valid() && stats == map[] && statList == []
    {
      stats, statList := map[], [];
    }

    /** `Tick`: in list order, `Tick()` on each stat whose flag is set. */
    method Tick()
      requires Valid()
      modifies this`calls
      ensures Valid()
      ensures calls == old(calls) + TickCalls(statList)
    {
      var i := 0;
      while i < |statList|
        invariant i <= |statList|
        invariant calls == old(calls) + TickCalls(statList[..i])
      {
        var wrapper := statList[i];
        if wrapper.tick {
          calls := calls + [Ticked(wrapper.stat)];
        }
        assert statList[..i + 1][..i] == statList[..i];
        i := i + 1;
      }
      assert statList[..i] == statList;
    }

    /** `ResetStats`: `Reset()` on every value of the dictionary, in the
        dictionary's enumeration order, given here as `order`. */
    method ResetStats(order: seq<Key>)
      requires Valid() && Enumerates(stats, order)
      modifies this`calls
      ensures Valid()
      ensures calls == old(calls) + ResetCalls(stats, order)
    {
      var i := 0;
      while i < |order|
        invariant i <= |order|
        invariant calls == old(calls) + ResetCalls(stats, order[..i])
      {
        calls := calls + [ResetCalled(stats[order[i]])];
        assert order[..i + 1][..i] == order[..i];
        i := i + 1;
      }
      assert order[..i] == order;
    }

    /** `Get`: the registered stat, or null (`None`). */
    method Get(e: Key) returns (s: Option<StatRef>)
      requires Valid()
      ensures s.Some? <==> e in stats
      ensures s.Some? ==> s.value == stats[e]
    {
      s := if e in stats then Some(stats[e]) else None;
    }

    /** `TryGet`: whether the key is registered; the stat, or null. */
    method TryGet(e: Key) returns (found: bool, s: Option<StatRef>)
      requires Valid()
      ensures found == (e in stats) && found == s.Some?
      ensures found ==> s.value == stats[e]
    {
      found := e in stats;
      s := if found then Some(stats[e]) else None;
    }

    /** `AddStat`: registers `stat` under `e`, appending one wrapper.
        `Dictionary.Add` throws on a key already present, before the list is
        touched (`ok` false). */
    method AddStat(e: Key, stat: StatRef, observe: bool) returns (ok: bool)
      requires Valid()
      requires stat < nextRef && forall i :: 0 <= i < |statList| ==> statList[i].stat != stat
      modifies this`stats, this`statList
      ensures Valid()
      ensures ok == (e !in old(stats))
      ensures ok ==> stats == old(stats)[e := stat] && statList == old(statList) + [Wrapper(e, stat, observe)]
      ensures !ok ==> stats == old(stats) && statList == old(statList)
    {
      if e in stats {
        return false;
      }
      InStepAdd(stats, statList, e, stat, observe);
      stats := stats[e := stat];
      statList := statList + [Wrapper(e, stat, observe)];
      ok := true;
    }

    /** `RegisterStat`: on a new key, a `new Stat(value)` registered under
        it; on a registered key, that stat, whose `BaseValue` and then
        `InitialValue` are set to `value`. */
    method RegisterStat(e: Key, value: real, tick: bool) returns (s: StatRef)
      requires Valid()
      modifies this
      ensures Valid()
      ensures e in stats && s == stats[e]
      ensures e !in old(stats) ==>
        && s == old(nextRef) && nextRef == s + 1
        && stats == old(stats)[e := s] && statList == old(statList) + [Wrapper(e, s, tick)]
        && calls == old(calls) + [Created(s, value)]
      ensures e in old(stats) ==>
        && s == old(stats[e]) && nextRef == old(nextRef)
        && stats == old(stats) && statList == old(statList)
        && calls == old(calls) + [SetBaseValue(s, value), SetInitialValue(s, value)]
    {
      var found, existing := TryGet(e);
      if !found {
        s := nextRef;
        nextRef := nextRef + 1;
        calls := calls + [Created(s, value)];
        var ok := AddStat(e, s, tick);
      } else {
        s := existing.value;
        calls := calls + [SetBaseValue(s, value)];
        calls := calls + [SetInitialValue(s, value)];
      }
    }

    /** `RegisterResourceStat`: `RegisterStat`, then, unless `e` is its own
        bound key or the bound key is not registered, `SetUpperBound` with
        the bound key's stat. */
    method RegisterResourceStat(e: Key, value: real, upperBound: Key, tick: bool) returns (s: StatRef)
      requires Valid()
      modifies this
      ensures Valid()
      ensures e in stats && s == stats[e]
      ensures stats == old(stats)[e := s] && nextRef >= old(nextRef)
      ensures e in old(stats) ==> s == old(stats[e]) && statList == old(statList)
      ensures e !in old(stats) ==> s == old(nextRef) && statList == old(statList) + [Wrapper(e, s, tick)]
      ensures var registered := if e in old(stats) then [SetBaseValue(s, value), SetInitialValue(s, value)]
                                else [Created(s, value)];
              calls == old(calls) + registered +
                (if e != upperBound && upperBound in old(stats)[e := s] then [SetUpperBound(s, stats[upperBound])] else [])
    {
      s := RegisterStat(e, value, tick);
      if e == upperBound {
        return;
      }
      var found, bound := TryGet(upperBound);
      if found {
        calls := calls + [SetUpperBound(s, bound.value)];
      }
    }
  }
}
