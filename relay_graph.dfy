/** The second generation of the stat graph (Plugins/NekoLAB/NekoStats/):
    `BindableFloatRelay`, a BindableFloat that follows one dependency;
    `StatModifier`/`StatModifierPercent`, relays that recompute from their
    dependency at once; and the tick-driven `Stat`, a relay over a list of
    modifiers that only marks itself dirty when something changes and
    recomputes on `Update()`.

    All nodes live in one arena, as in the first generation. A node has a
    value and an invocation list; a relay node also has a `Relay` record, and
    a stat a dirty flag. Dependencies can be rewired at any time, so no order
    of creation keeps them acyclic: a ghost `rank` does, and rewiring takes
    the new ranking as a ghost argument. */
module RelayGraph {
  import opened Lists
  import opened Rules

  type NodeId = nat

  /** The relay part of a node. `dep` is `_dependency` (null is `None`). */
  datatype Relay =
    | ModRelay(dep: Option<NodeId>, magnitude: real, rule: Rule)  // StatModifier, StatModifierPercent
    | StatRelay(dep: Option<NodeId>, mods: seq<NodeId>)            // Stat, with `_modifiers`

  /** What an invocation-list entry calls. */
  datatype Handler =
    | DependencyChanged(relay: NodeId)  // relay.HandleDependencyValueChange
    | ModifierChanged(stat: NodeId)     // stat.HandleModifierValueChange

  // ---------------------------------------------------------------------------
  // Specification functions

  /** `CalculateValue` of a modifier against the node values: `None` when it
      throws (a percent modifier without a dependency). */
  function ModValue(r: Relay, values: map<NodeId, real>): Option<real>
    requires r.ModRelay?
  {
    Calculate(r.rule, if r.dep.Some? && r.dep.value in values then Some(values[r.dep.value]) else None, r.magnitude)
  }

  /** The values of the nodes `ms`, added up in list order. */
  function Total(ms: seq<NodeId>, values: map<NodeId, real>): real
    requires forall m :: m in ms ==> m in values
  {
    if ms == [] then 0.0 else Total(ms[..|ms| - 1], values) + values[ms[|ms| - 1]]
  }

  /** `Stat.CalculateValue`: the dependency's value plus the modifier values;
      `None` when it throws (no dependency). */
  function StatValue(r: Relay, values: map<NodeId, real>): Option<real>
    requires r.StatRelay? && forall m :: m in r.mods ==> m in values
  {
    if r.dep.Some? && r.dep.value in values then Some(values[r.dep.value] + Total(r.mods, values)) else None
  }

  /** `n.OnValueChanged += h`. */
  function Subscribe(subscribers: map<NodeId, seq<Handler>>, n: NodeId, h: Handler): (r: map<NodeId, seq<Handler>>)
    requires n in subscribers
    ensures r.Keys == subscribers.Keys && r[n] == subscribers[n] + [h]
    ensures forall k :: k in subscribers && k != n ==> r[k] == subscribers[k]
  {
    subscribers[n := subscribers[n] + [h]]
  }

  /** `n.OnValueChanged -= h`: the last copy of `h` goes. */
  function Unsubscribe(subscribers: map<NodeId, seq<Handler>>, n: NodeId, h: Handler): (r: map<NodeId, seq<Handler>>)
    requires n in subscribers
    ensures r.Keys == subscribers.Keys && r[n] == RemoveLast(subscribers[n], h)
    ensures forall k :: k in subscribers && k != n ==> r[k] == subscribers[k]
  {
    subscribers[n := RemoveLast(subscribers[n], h)]
  }

  /** The invocation lists once the `Dependency` setter of `r` moved it from
      `from` to `to`: unsubscribed from the old dependency, then subscribed
      to the new one. */
  function Rewired(subscribers: map<NodeId, seq<Handler>>, r: NodeId, from: Option<NodeId>, to: Option<NodeId>): (s: map<NodeId, seq<Handler>>)
    requires from.Some? ==> from.value in subscribers
    requires to.Some? ==> to.value in subscribers
    ensures s.Keys == subscribers.Keys
  {
    var unsubscribed := if from.Some? then Unsubscribe(subscribers, from.value, DependencyChanged(r)) else subscribers;
    if to.Some? then Subscribe(unsubscribed, to.value, DependencyChanged(r)) else unsubscribed
  }

  // ---------------------------------------------------------------------------
  // The invariant

  /** A relay only refers to existing nodes. */
  ghost predicate RefersIn(r: Relay, nodes: set<NodeId>)
  {
    && (r.dep.Some? ==> r.dep.value in nodes)
    && (r.StatRelay? ==> forall m :: m in r.mods ==> m in nodes)
  }

  /** An entry of `n`'s invocation list belongs to a listener of `n`: a
      relay's dependency handler sits, exactly once, on the list of its
      current dependency only; a modifier handler belongs to a stat. */
  ghost predicate HandlerOkIn(subscribers: map<NodeId, seq<Handler>>, relays: map<NodeId, Relay>, n: NodeId, h: Handler)
    requires n in subscribers
  {
    match h
    case DependencyChanged(r) => r in relays && relays[r].dep == Some(n) && multiset(subscribers[n])[h] == 1
    case ModifierChanged(s) => s in relays && relays[s].StatRelay?
  }

  ghost predicate HandlersOkIn(subscribers: map<NodeId, seq<Handler>>, relays: map<NodeId, Relay>)
  {
    forall n, h :: n in subscribers && h in subscribers[n] ==> HandlerOkIn(subscribers, relays, n, h)
  }

  /** Refreshes only run downhill: a modifier that listens to `n` ranks below `n`. */
  ghost predicate RankedIn(subscribers: map<NodeId, seq<Handler>>, relays: map<NodeId, Relay>, rank: map<NodeId, nat>)
  {
    forall n, r {:trigger DependencyChanged(r) in subscribers[n]} ::
      n in subscribers && DependencyChanged(r) in subscribers[n] && r in relays && relays[r].ModRelay? ==>
        r in rank && n in rank && rank[r] < rank[n]
  }

  /** Subscribe/unsubscribe pairing: a stat's handler is on a modifier's
      list as many times as the modifier is on the stat's list. */
  ghost predicate PairedIn(subscribers: map<NodeId, seq<Handler>>, relays: map<NodeId, Relay>)
  {
    forall s, m {:trigger multiset(subscribers[m])[ModifierChanged(s)]} {:trigger multiset(relays[s].mods)[m]} ::
      s in relays && relays[s].StatRelay? && m in subscribers ==>
        multiset(subscribers[m])[ModifierChanged(s)] == multiset(relays[s].mods)[m]
  }

  /** What every operation keeps. `nodes` are the keys of the value map,
      `stats` those of the dirty-flag map. */
  ghost predicate WiredIn(nodes: set<NodeId>, stats: set<NodeId>, subscribers: map<NodeId, seq<Handler>>,
                          relays: map<NodeId, Relay>, rank: map<NodeId, nat>, nextNode: nat)
  {
    && subscribers.Keys == nodes && rank.Keys == nodes && relays.Keys <= nodes
    && (forall n :: n in nodes ==> n < nextNode)
    && (forall s :: s in relays ==> (s in stats <==> relays[s].StatRelay?))
    && stats <= relays.Keys
    && (forall r :: r in relays ==> RefersIn(relays[r], nodes))
    && HandlersOkIn(subscribers, relays)
    && RankedIn(subscribers, relays, rank)
    && PairedIn(subscribers, relays)
  }

  /** `n` is a modifier subscribed to its dependency, which ranks at most `k`:
      the only kind of node a change ranked `k` may recompute. */
  ghost predicate FedIn(subscribers: map<NodeId, seq<Handler>>, relays: map<NodeId, Relay>, rank: map<NodeId, nat>,
                        n: NodeId, k: nat)
  {
    && n in relays && relays[n].ModRelay? && relays[n].dep.Some?
    && relays[n].dep.value in subscribers && DependencyChanged(n) in subscribers[relays[n].dep.value]
    && relays[n].dep.value in rank && rank[relays[n].dep.value] <= k
  }

  /** The handler `h` on `x`'s list has done its work: a modifier holds its
      recomputed value, a stat is dirty. */
  ghost predicate HeardIn(values: map<NodeId, real>, relays: map<NodeId, Relay>, dirty: map<NodeId, bool>, h: Handler)
  {
    match h
    case DependencyChanged(r) =>
      r in relays && (if relays[r].ModRelay? then r in values && ModValue(relays[r], values) == Some(values[r])
                      else r in dirty && dirty[r])
    case ModifierChanged(s) => s in dirty && dirty[s]
  }

  /** Where a change of `x` to `v` stands once the first `i` entries of its
      invocation list `hs` ran, against `values0` and `dirty0` from before. */
  ghost predicate ProgressIn(subscribers: map<NodeId, seq<Handler>>, relays: map<NodeId, Relay>, rank: map<NodeId, nat>,
                             values: map<NodeId, real>, dirty: map<NodeId, bool>,
                             x: NodeId, v: real, hs: seq<Handler>, i: nat,
                             values0: map<NodeId, real>, dirty0: map<NodeId, bool>)
  {
    && i <= |hs| && x in rank
    && values.Keys == values0.Keys && dirty.Keys == dirty0.Keys
    && (forall s :: s in dirty && dirty0[s] ==> dirty[s])
    && x in values && values[x] == v
    && (forall n :: n in values && n != x && values[n] != values0[n] ==> FedIn(subscribers, relays, rank, n, rank[x]))
    && (forall j :: 0 <= j < i ==> HeardIn(values, relays, dirty, hs[j]))
  }

  // ---------------------------------------------------------------------------
  // Lemmas about the notification

  /** One more entry ran, and it refreshed the modifier `r` that listens to `x`. */
  lemma RefreshedChild(subscribers: map<NodeId, seq<Handler>>, relays: map<NodeId, Relay>, rank: map<NodeId, nat>,
                       x: NodeId, v: real, hs: seq<Handler>, i: nat, r: NodeId,
                       values0: map<NodeId, real>, dirty0: map<NodeId, bool>,
                       valuesPre: map<NodeId, real>, dirtyPre: map<NodeId, bool>,
                       values: map<NodeId, real>, dirty: map<NodeId, bool>)
    requires x in subscribers && hs == subscribers[x] && i < |hs| && hs[i] == DependencyChanged(r)
    requires HandlersOkIn(subscribers, relays) && RankedIn(subscribers, relays, rank)
    requires r in relays && relays[r].ModRelay?
    requires ProgressIn(subscribers, relays, rank, valuesPre, dirtyPre, x, v, hs, i, values0, dirty0)
    requires values.Keys == valuesPre.Keys && dirty.Keys == dirtyPre.Keys
    requires forall s :: s in dirty && dirtyPre[s] ==> dirty[s]
    requires r in values && Some(values[r]) == ModValue(relays[r], valuesPre)
    requires r in rank && forall n :: n in values && n != r && values[n] != valuesPre[n] ==> FedIn(subscribers, relays, rank, n, rank[r])
    ensures ProgressIn(subscribers, relays, rank, values, dirty, x, v, hs, i + 1, values0, dirty0)
  {
    assert hs[i] in subscribers[x];
    assert relays[r].dep == Some(x) && rank[r] < rank[x];
    assert values[x] == valuesPre[x];
    forall j | 0 <= j < i + 1
      ensures HeardIn(values, relays, dirty, hs[j])
    {
      if j < i && hs[j].DependencyChanged? {
        assert hs[j] in subscribers[x];
      }
    }
  }

  /** One more entry ran, and it marked the stat `s` dirty. */
  lemma ToldStat(subscribers: map<NodeId, seq<Handler>>, relays: map<NodeId, Relay>, rank: map<NodeId, nat>,
                 x: NodeId, v: real, hs: seq<Handler>, i: nat, s: NodeId,
                 values0: map<NodeId, real>, dirty0: map<NodeId, bool>,
                 values: map<NodeId, real>, dirtyPre: map<NodeId, bool>, dirty: map<NodeId, bool>)
    requires i < |hs| && hs[i] in [DependencyChanged(s), ModifierChanged(s)]
    requires hs[i].DependencyChanged? ==> s in relays && !relays[s].ModRelay?
    requires s in dirtyPre && dirty == dirtyPre[s := true]
    requires ProgressIn(subscribers, relays, rank, values, dirtyPre, x, v, hs, i, values0, dirty0)
    ensures ProgressIn(subscribers, relays, rank, values, dirty, x, v, hs, i + 1, values0, dirty0)
  {
  }

  // ---------------------------------------------------------------------------
  // Lemmas about the wiring

  /** A new node's invocation list is empty, and nothing refers to it. */
  lemma HandlersAddNode(nodes: set<NodeId>, subscribers: map<NodeId, seq<Handler>>, relays: map<NodeId, Relay>,
                        n: NodeId, subscribers': map<NodeId, seq<Handler>>, relays': map<NodeId, Relay>)
    requires subscribers.Keys == nodes && relays.Keys <= nodes && n !in nodes
    requires HandlersOkIn(subscribers, relays)
    requires subscribers' == subscribers[n := []]
    requires relays.Keys <= relays'.Keys && forall r :: r in relays ==> relays'[r] == relays[r]
    ensures HandlersOkIn(subscribers', relays')
  {
    forall m, h | m in subscribers' && h in subscribers'[m]
      ensures HandlerOkIn(subscribers', relays', m, h)
    {
      assert m != n;
      assert HandlerOkIn(subscribers, relays, m, h);
    }
  }

  lemma RankedAddNode(nodes: set<NodeId>, subscribers: map<NodeId, seq<Handler>>, relays: map<NodeId, Relay>,
                      rank: map<NodeId, nat>, n: NodeId,
                      subscribers': map<NodeId, seq<Handler>>, relays': map<NodeId, Relay>)
    requires subscribers.Keys == nodes && relays.Keys <= nodes && n !in nodes
    requires HandlersOkIn(subscribers, relays) && RankedIn(subscribers, relays, rank)
    requires subscribers' == subscribers[n := []]
    requires relays.Keys <= relays'.Keys && forall r :: r in relays ==> relays'[r] == relays[r]
    ensures RankedIn(subscribers', relays', rank[n := 0])
  {
    forall m, r | m in subscribers' && DependencyChanged(r) in subscribers'[m] && r in relays' && relays'[r].ModRelay?
      ensures r in rank && m in rank && rank[n := 0][r] < rank[n := 0][m]
    {
      assert m != n;
      assert HandlerOkIn(subscribers, relays, m, DependencyChanged(r));
    }
  }

  lemma PairedAddNode(nodes: set<NodeId>, subscribers: map<NodeId, seq<Handler>>, relays: map<NodeId, Relay>,
                      n: NodeId, relay: Option<Relay>,
                      subscribers': map<NodeId, seq<Handler>>, relays': map<NodeId, Relay>)
    requires subscribers.Keys == nodes && relays.Keys <= nodes && n !in nodes
    requires forall r :: r in relays ==> RefersIn(relays[r], nodes)
    requires HandlersOkIn(subscribers, relays) && PairedIn(subscribers, relays)
    requires subscribers' == subscribers[n := []]
    requires relay.Some? && relay.value.StatRelay? ==> relay.value.mods == []
    requires relays' == if relay.Some? then relays[n := relay.value] else relays
    ensures PairedIn(subscribers', relays')
  {
    forall s, m | s in relays' && relays'[s].StatRelay? && m in subscribers'
      ensures multiset(subscribers'[m])[ModifierChanged(s)] == multiset(relays'[s].mods)[m]
    {
      if m == n {
        assert subscribers'[m] == [];
        if s != n {
          assert RefersIn(relays[s], nodes);
          assert m !in relays[s].mods;
        }
      } else if s == n {
        assert relays'[s].mods == [];
        assert ModifierChanged(s) !in subscribers[m];
      } else {
        assert subscribers'[m] == subscribers[m] && relays'[s] == relays[s];
      }
    }
  }

  /** A new node, plain or a relay that refers only to older nodes, with an
      empty invocation list, disturbs no wiring. */
  lemma WiredAddNode(nodes: set<NodeId>, stats: set<NodeId>, subscribers: map<NodeId, seq<Handler>>,
                     relays: map<NodeId, Relay>, rank: map<NodeId, nat>, nextNode: nat, relay: Option<Relay>,
                     nodes': set<NodeId>, stats': set<NodeId>, subscribers': map<NodeId, seq<Handler>>,
                     relays': map<NodeId, Relay>, rank': map<NodeId, nat>)
    requires WiredIn(nodes, stats, subscribers, relays, rank, nextNode)
    requires nodes' == nodes + {nextNode} && rank' == rank[nextNode := 0]
    requires relay.Some? ==> RefersIn(relay.value, nodes)
    requires relay.Some? && relay.value.StatRelay? ==> relay.value.mods == []
    requires subscribers' == subscribers[nextNode := []]
    requires relays' == if relay.Some? then relays[nextNode := relay.value] else relays
    requires stats' == if relay.Some? && relay.value.StatRelay? then stats + {nextNode} else stats
    ensures nextNode !in nodes
    ensures WiredIn(nodes', stats', subscribers', relays', rank', nextNode + 1)
  {
    var n := nextNode;
    HandlersAddNode(nodes, subscribers, relays, n, subscribers', relays');
    RankedAddNode(nodes, subscribers, relays, rank, n, subscribers', relays');
    PairedAddNode(nodes, subscribers, relays, n, relay, subscribers', relays');
    forall r | r in relays'
      ensures RefersIn(relays'[r], nodes + {n})
    {
      assert r != n ==> RefersIn(relays[r], nodes);
    }
  }

  /** Relays that keep their kind, dependency and modifier list, as a change
      of magnitude does. */
  ghost predicate SameShape(relays: map<NodeId, Relay>, relays': map<NodeId, Relay>)
  {
    && relays'.Keys == relays.Keys
    && forall r :: r in relays ==>
         && relays'[r].dep == relays[r].dep && relays'[r].ModRelay? == relays[r].ModRelay?
         && (relays[r].StatRelay? ==> relays'[r].mods == relays[r].mods)
  }

  lemma WiredSameShape(nodes: set<NodeId>, stats: set<NodeId>, subscribers: map<NodeId, seq<Handler>>,
                       relays: map<NodeId, Relay>, rank: map<NodeId, nat>, nextNode: nat, relays': map<NodeId, Relay>)
    requires WiredIn(nodes, stats, subscribers, relays, rank, nextNode) && SameShape(relays, relays')
    ensures WiredIn(nodes, stats, subscribers, relays', rank, nextNode)
  {
    forall n, h | n in subscribers && h in subscribers[n]
      ensures HandlerOkIn(subscribers, relays', n, h)
    {
      assert HandlerOkIn(subscribers, relays, n, h);
    }
    forall r | r in relays'
      ensures RefersIn(relays'[r], nodes)
    {
      assert RefersIn(relays[r], nodes);
    }
  }

  /** Every dependency handler on the lists `subscribers'` was already on the
      same list in `subscribers`. */
  ghost predicate NoNewDependents(subscribers: map<NodeId, seq<Handler>>, subscribers': map<NodeId, seq<Handler>>)
  {
    && subscribers'.Keys == subscribers.Keys
    && forall n, r :: n in subscribers' && DependencyChanged(r) in subscribers'[n] ==> DependencyChanged(r) in subscribers[n]
  }

  /** Every relay keeps its kind. */
  ghost predicate SameKinds(relays: map<NodeId, Relay>, relays': map<NodeId, Relay>)
  {
    relays'.Keys == relays.Keys && forall r :: r in relays ==> relays'[r].ModRelay? == relays[r].ModRelay?
  }

  lemma RankedFewer(subscribers: map<NodeId, seq<Handler>>, relays: map<NodeId, Relay>, rank: map<NodeId, nat>,
                    subscribers': map<NodeId, seq<Handler>>, relays': map<NodeId, Relay>)
    requires RankedIn(subscribers, relays, rank)
    requires NoNewDependents(subscribers, subscribers') && SameKinds(relays, relays')
    ensures RankedIn(subscribers', relays', rank)
  {
    forall n, r | n in subscribers' && DependencyChanged(r) in subscribers'[n] && r in relays' && relays'[r].ModRelay?
      ensures r in rank && n in rank && rank[r] < rank[n]
    {
      assert DependencyChanged(r) in subscribers[n];
    }
  }

  /** A change that moves the stat `s`'s handler on `m`'s invocation list and
      `m` on `s`'s modifier list in step, as `AddModifier` and
      `RemoveModifier` do, and touches nothing else. */
  ghost predicate ModifierStepIn(subscribers: map<NodeId, seq<Handler>>, relays: map<NodeId, Relay>, s: NodeId, m: NodeId,
                                 subscribers': map<NodeId, seq<Handler>>, relays': map<NodeId, Relay>)
  {
    && s in relays && relays[s].StatRelay? && m in subscribers
    && subscribers'.Keys == subscribers.Keys && relays'.Keys == relays.Keys
    && (forall n :: n in subscribers && n != m ==> subscribers'[n] == subscribers[n])
    && (forall t :: t in relays && t != s ==> relays'[t] == relays[t])
    && relays'[s].StatRelay? && relays'[s].dep == relays[s].dep
    && (forall h :: h != ModifierChanged(s) ==> multiset(subscribers'[m])[h] == multiset(subscribers[m])[h])
    && (forall n :: n != m ==> multiset(relays'[s].mods)[n] == multiset(relays[s].mods)[n])
    && multiset(subscribers'[m])[ModifierChanged(s)] + multiset(relays[s].mods)[m]
       == multiset(relays'[s].mods)[m] + multiset(subscribers[m])[ModifierChanged(s)]
  }

  lemma HandlersModifierStep(subscribers: map<NodeId, seq<Handler>>, relays: map<NodeId, Relay>, s: NodeId, m: NodeId,
                             subscribers': map<NodeId, seq<Handler>>, relays': map<NodeId, Relay>)
    requires HandlersOkIn(subscribers, relays)
    requires ModifierStepIn(subscribers, relays, s, m, subscribers', relays')
    ensures HandlersOkIn(subscribers', relays')
  {
    forall n, h | n in subscribers' && h in subscribers'[n]
      ensures HandlerOkIn(subscribers', relays', n, h)
    {
      if h != ModifierChanged(s) {
        assert multiset(subscribers'[n])[h] == multiset(subscribers[n])[h];
        assert HandlerOkIn(subscribers, relays, n, h);
      }
    }
  }

  lemma PairedModifierStep(subscribers: map<NodeId, seq<Handler>>, relays: map<NodeId, Relay>, s: NodeId, m: NodeId,
                           subscribers': map<NodeId, seq<Handler>>, relays': map<NodeId, Relay>)
    requires PairedIn(subscribers, relays)
    requires ModifierStepIn(subscribers, relays, s, m, subscribers', relays')
    ensures PairedIn(subscribers', relays')
  {
    forall t, n | t in relays' && relays'[t].StatRelay? && n in subscribers'
      ensures multiset(subscribers'[n])[ModifierChanged(t)] == multiset(relays'[t].mods)[n]
    {
      assert multiset(subscribers[n])[ModifierChanged(t)] == multiset(relays[t].mods)[n];
    }
  }

  lemma RankedModifierStep(subscribers: map<NodeId, seq<Handler>>, relays: map<NodeId, Relay>, rank: map<NodeId, nat>,
                           s: NodeId, m: NodeId, subscribers': map<NodeId, seq<Handler>>, relays': map<NodeId, Relay>)
    requires RankedIn(subscribers, relays, rank)
    requires ModifierStepIn(subscribers, relays, s, m, subscribers', relays')
    ensures RankedIn(subscribers', relays', rank)
  {
    forall n, r | n in subscribers' && DependencyChanged(r) in subscribers'[n]
      ensures DependencyChanged(r) in subscribers[n]
    {
      assert multiset(subscribers'[n])[DependencyChanged(r)] == multiset(subscribers[n])[DependencyChanged(r)];
    }
    RankedFewer(subscribers, relays, rank, subscribers', relays');
  }

  lemma RefersModifierStep(nodes: set<NodeId>, relays: map<NodeId, Relay>, s: NodeId, m: NodeId, relays': map<NodeId, Relay>)
    requires forall r :: r in relays ==> RefersIn(relays[r], nodes)
    requires s in relays && relays[s].StatRelay? && m in nodes
    requires relays'.Keys == relays.Keys && forall t :: t in relays && t != s ==> relays'[t] == relays[t]
    requires relays'[s].StatRelay? && relays'[s].dep == relays[s].dep
    requires forall n :: n != m ==> multiset(relays'[s].mods)[n] == multiset(relays[s].mods)[n]
    ensures forall r :: r in relays' ==> RefersIn(relays'[r], nodes)
  {
    assert RefersIn(relays[s], nodes);
    forall x | x in relays'[s].mods
      ensures x in nodes
    {
      if x != m {
        assert multiset(relays[s].mods)[x] > 0;
      }
    }
  }

  lemma WiredModifierStep(nodes: set<NodeId>, stats: set<NodeId>, subscribers: map<NodeId, seq<Handler>>,
                          relays: map<NodeId, Relay>, rank: map<NodeId, nat>, nextNode: nat, s: NodeId, m: NodeId,
                          subscribers': map<NodeId, seq<Handler>>, relays': map<NodeId, Relay>)
    requires WiredIn(nodes, stats, subscribers, relays, rank, nextNode)
    requires ModifierStepIn(subscribers, relays, s, m, subscribers', relays')
    ensures WiredIn(nodes, stats, subscribers', relays', rank, nextNode)
  {
    HandlersModifierStep(subscribers, relays, s, m, subscribers', relays');
    PairedModifierStep(subscribers, relays, s, m, subscribers', relays');
    RankedModifierStep(subscribers, relays, rank, s, m, subscribers', relays');
    RefersModifierStep(nodes, relays, s, m, relays');
  }

  /** `AddModifier` appends `m` to the stat's list and the stat's handler to
      `m`'s invocation list. */
  lemma AddModifierStep(subscribers: map<NodeId, seq<Handler>>, relays: map<NodeId, Relay>, s: NodeId, m: NodeId)
    requires s in relays && relays[s].StatRelay? && m in subscribers
    ensures ModifierStepIn(subscribers, relays, s, m, Subscribe(subscribers, m, ModifierChanged(s)),
                           relays[s := StatRelay(relays[s].dep, relays[s].mods + [m])])
  {
    var mods := relays[s].mods;
    assert multiset(subscribers[m] + [ModifierChanged(s)]) == multiset(subscribers[m]) + multiset{ModifierChanged(s)};
    assert multiset(mods + [m]) == multiset(mods) + multiset{m};
  }

  /** `b` is `a` with one copy of `x` taken away, if it had one. */
  lemma OneCopyLess<T>(a: multiset<T>, b: multiset<T>, x: T)
    requires b == a - multiset{x}
    ensures forall y :: y != x ==> b[y] == a[y]
    ensures b[x] == if a[x] == 0 then 0 else a[x] - 1
  {
  }

  /** Appending `x` adds one copy of it and of nothing else. */
  lemma OneCopyMore<T>(s: seq<T>, x: T)
    ensures multiset(s + [x])[x] == multiset(s)[x] + 1
    ensures forall y :: y != x ==> multiset(s + [x])[y] == multiset(s)[y]
  {
    assert multiset(s + [x]) == multiset(s) + multiset{x};
  }

  /** Taking one copy of the stat's handler off `m`'s list and one copy of
      `m` off the stat's list, when their counts agree, is a step in step. */
  lemma RemoveOneEach(subscribers: map<NodeId, seq<Handler>>, relays: map<NodeId, Relay>, s: NodeId, m: NodeId,
                      handlers: seq<Handler>, mods: seq<NodeId>)
    requires s in relays && relays[s].StatRelay? && m in subscribers
    requires multiset(subscribers[m])[ModifierChanged(s)] == multiset(relays[s].mods)[m]
    requires multiset(handlers) == multiset(subscribers[m]) - multiset{ModifierChanged(s)}
    requires multiset(mods) == multiset(relays[s].mods) - multiset{m}
    ensures ModifierStepIn(subscribers, relays, s, m, subscribers[m := handlers], relays[s := StatRelay(relays[s].dep, mods)])
  {
    OneCopyLess(multiset(subscribers[m]), multiset(handlers), ModifierChanged(s));
    OneCopyLess(multiset(relays[s].mods), multiset(mods), m);
  }

  /** `RemoveModifier` drops the first copy of `m` from the stat's list and
      the last copy of the stat's handler from `m`'s invocation list; the
      pairing makes both counts drop together, or neither. */
  lemma RemoveModifierStep(subscribers: map<NodeId, seq<Handler>>, relays: map<NodeId, Relay>, s: NodeId, m: NodeId)
    requires s in relays && relays[s].StatRelay? && m in subscribers
    requires multiset(subscribers[m])[ModifierChanged(s)] == multiset(relays[s].mods)[m]
    ensures ModifierStepIn(subscribers, relays, s, m, Unsubscribe(subscribers, m, ModifierChanged(s)),
                           relays[s := StatRelay(relays[s].dep, RemoveFirst(relays[s].mods, m))])
  {
    RemoveLastMultiset(subscribers[m], ModifierChanged(s));
    RemoveFirstMultiset(relays[s].mods, m);
    RemoveOneEach(subscribers, relays, s, m, RemoveLast(subscribers[m], ModifierChanged(s)), RemoveFirst(relays[s].mods, m));
  }

  lemma WiredAddModifier(nodes: set<NodeId>, stats: set<NodeId>, subscribers: map<NodeId, seq<Handler>>,
                         relays: map<NodeId, Relay>, rank: map<NodeId, nat>, nextNode: nat, s: NodeId, m: NodeId)
    requires WiredIn(nodes, stats, subscribers, relays, rank, nextNode)
    requires s in relays && relays[s].StatRelay? && m in nodes
    ensures WiredIn(nodes, stats, Subscribe(subscribers, m, ModifierChanged(s)),
                    relays[s := StatRelay(relays[s].dep, relays[s].mods + [m])], rank, nextNode)
  {
    AddModifierStep(subscribers, relays, s, m);
    WiredModifierStep(nodes, stats, subscribers, relays, rank, nextNode, s, m, Subscribe(subscribers, m, ModifierChanged(s)),
                      relays[s := StatRelay(relays[s].dep, relays[s].mods + [m])]);
  }

  lemma WiredRemoveModifier(nodes: set<NodeId>, stats: set<NodeId>, subscribers: map<NodeId, seq<Handler>>,
                            relays: map<NodeId, Relay>, rank: map<NodeId, nat>, nextNode: nat, s: NodeId, m: NodeId)
    requires WiredIn(nodes, stats, subscribers, relays, rank, nextNode)
    requires s in relays && relays[s].StatRelay? && m in nodes
    ensures WiredIn(nodes, stats, Unsubscribe(subscribers, m, ModifierChanged(s)),
                    relays[s := StatRelay(relays[s].dep, RemoveFirst(relays[s].mods, m))], rank, nextNode)
  {
    RemoveModifierStep(subscribers, relays, s, m);
    WiredModifierStep(nodes, stats, subscribers, relays, rank, nextNode, s, m, Unsubscribe(subscribers, m, ModifierChanged(s)),
                      relays[s := StatRelay(relays[s].dep, RemoveFirst(relays[s].mods, m))]);
  }

  /** How many copies of a handler a rewiring leaves on each list: the
      relay's own handler leaves the old dependency's list and joins the new
      one's; every other handler stays where it was. */
  lemma RewiredCount(subscribers: map<NodeId, seq<Handler>>, r: NodeId, from: Option<NodeId>, to: Option<NodeId>,
                     n: NodeId, h: Handler)
    requires from.Some? ==> from.value in subscribers
    requires to.Some? ==> to.value in subscribers
    requires n in subscribers
    ensures h != DependencyChanged(r) ==> multiset(Rewired(subscribers, r, from, to)[n])[h] == multiset(subscribers[n])[h]
    ensures h == DependencyChanged(r) ==>
      multiset(Rewired(subscribers, r, from, to)[n])[h] ==
        (if from == Some(n) && multiset(subscribers[n])[h] > 0 then multiset(subscribers[n])[h] - 1 else multiset(subscribers[n])[h])
        + (if to == Some(n) then 1 else 0)
  {
    var dc := DependencyChanged(r);
    var unsubscribed := if from.Some? then Unsubscribe(subscribers, from.value, dc) else subscribers;
    var before, between, after := subscribers[n], unsubscribed[n], Rewired(subscribers, r, from, to)[n];
    if from == Some(n) {
      RemoveLastMultiset(before, dc);
    }
    assert after == if to == Some(n) then between + [dc] else between;
    CountsAfterRewire(before, between, after, dc, h, from == Some(n), to == Some(n));
  }

  /** The counting behind `RewiredCount`, on the one list involved: `x` may
      lose a copy, then gain one. */
  lemma CountsAfterRewire<T>(before: seq<T>, between: seq<T>, after: seq<T>, x: T, y: T, dropped: bool, added: bool)
    requires dropped ==> multiset(between) == multiset(before) - multiset{x}
    requires !dropped ==> between == before
    requires after == if added then between + [x] else between
    ensures y != x ==> multiset(after)[y] == multiset(before)[y]
    ensures y == x ==>
      multiset(after)[y] ==
        (if dropped && multiset(before)[y] > 0 then multiset(before)[y] - 1 else multiset(before)[y]) + (if added then 1 else 0)
  {
    if dropped {
      OneCopyLess(multiset(before), multiset(between), x);
    }
    if added {
      OneCopyMore(between, x);
    }
  }

  lemma HandlersRewire(subscribers: map<NodeId, seq<Handler>>, relays: map<NodeId, Relay>, r: NodeId, d: Option<NodeId>,
                       subscribers': map<NodeId, seq<Handler>>, relays': map<NodeId, Relay>)
    requires HandlersOkIn(subscribers, relays)
    requires r in relays && d != relays[r].dep
    requires relays[r].dep.Some? ==> relays[r].dep.value in subscribers
    requires d.Some? ==> d.value in subscribers
    requires subscribers' == Rewired(subscribers, r, relays[r].dep, d)
    requires relays' == relays[r := relays[r].(dep := d)]
    ensures HandlersOkIn(subscribers', relays')
  {
    forall n, h | n in subscribers' && h in subscribers'[n]
      ensures HandlerOkIn(subscribers', relays', n, h)
    {
      RewiredCount(subscribers, r, relays[r].dep, d, n, h);
      if h in subscribers[n] {
        assert HandlerOkIn(subscribers, relays, n, h);
      }
    }
  }

  lemma PairedRewire(subscribers: map<NodeId, seq<Handler>>, relays: map<NodeId, Relay>, r: NodeId, d: Option<NodeId>,
                     subscribers': map<NodeId, seq<Handler>>, relays': map<NodeId, Relay>)
    requires PairedIn(subscribers, relays)
    requires r in relays
    requires relays[r].dep.Some? ==> relays[r].dep.value in subscribers
    requires d.Some? ==> d.value in subscribers
    requires subscribers' == Rewired(subscribers, r, relays[r].dep, d)
    requires relays' == relays[r := relays[r].(dep := d)]
    ensures PairedIn(subscribers', relays')
  {
    forall t, n | t in relays' && relays'[t].StatRelay? && n in subscribers'
      ensures multiset(subscribers'[n])[ModifierChanged(t)] == multiset(relays'[t].mods)[n]
    {
      RewiredCount(subscribers, r, relays[r].dep, d, n, ModifierChanged(t));
    }
  }

  /** The `Dependency` setter keeps the wiring, given a ranking under which
      the new dependency edge runs downhill. */
  lemma WiredRewire(nodes: set<NodeId>, stats: set<NodeId>, subscribers: map<NodeId, seq<Handler>>,
                    relays: map<NodeId, Relay>, rank: map<NodeId, nat>, nextNode: nat, r: NodeId, d: Option<NodeId>,
                    subscribers': map<NodeId, seq<Handler>>, relays': map<NodeId, Relay>, rank': map<NodeId, nat>)
    requires WiredIn(nodes, stats, subscribers, relays, rank, nextNode)
    requires r in relays && d != relays[r].dep && (d.Some? ==> d.value in nodes)
    requires subscribers' == Rewired(subscribers, r, relays[r].dep, d)
    requires relays' == relays[r := relays[r].(dep := d)]
    requires rank'.Keys == nodes && RankedIn(subscribers', relays', rank')
    ensures WiredIn(nodes, stats, subscribers', relays', rank', nextNode)
  {
    assert RefersIn(relays[r], nodes);
    HandlersRewire(subscribers, relays, r, d, subscribers', relays');
    PairedRewire(subscribers, relays, r, d, subscribers', relays');
    forall q | q in relays'
      ensures RefersIn(relays'[q], nodes)
    {
      assert RefersIn(relays[q], nodes);
    }
  }

  /** `newRank` ranks every node, and under it the relay `r` may move from
      its dependency to `d`: a modifier's new dependency ranks above it. */
  ghost predicate RewireRanked(subscribers: map<NodeId, seq<Handler>>, relays: map<NodeId, Relay>, r: NodeId,
                               d: Option<NodeId>, newRank: map<NodeId, nat>)
  {
    && r in relays && (relays[r].dep.Some? ==> relays[r].dep.value in subscribers) && (d.Some? ==> d.value in subscribers)
    && newRank.Keys == subscribers.Keys
    && RankedIn(Rewired(subscribers, r, relays[r].dep, d), relays[r := relays[r].(dep := d)], newRank)
  }

  /** Dropping a dependency needs no new ranking: it only removes an edge. */
  lemma RankedUnwire(subscribers: map<NodeId, seq<Handler>>, relays: map<NodeId, Relay>, rank: map<NodeId, nat>, r: NodeId)
    requires RankedIn(subscribers, relays, rank)
    requires r in relays && (relays[r].dep.Some? ==> relays[r].dep.value in subscribers)
    ensures RankedIn(Rewired(subscribers, r, relays[r].dep, None), relays[r := relays[r].(dep := None)], rank)
    ensures rank.Keys == subscribers.Keys ==> RewireRanked(subscribers, relays, r, None, rank)
  {
    var subscribers' := Rewired(subscribers, r, relays[r].dep, None);
    forall n, q | n in subscribers' && DependencyChanged(q) in subscribers'[n]
      ensures DependencyChanged(q) in subscribers[n]
    {
    }
  }

  // ---------------------------------------------------------------------------
  // Lemmas about the values

  /** Adding up a list in two parts. */
  lemma {:induction false} TotalConcat(a: seq<NodeId>, b: seq<NodeId>, values: map<NodeId, real>)
    requires forall m :: m in a ==> m in values
    requires forall m :: m in b ==> m in values
    ensures Total(a + b, values) == Total(a, values) + Total(b, values)
  {
    if b != [] {
      var n := |b| - 1;
      assert (a + b)[..|a + b| - 1] == a + b[..n];
      TotalConcat(a, b[..n], values);
    } else {
      assert a + b == a;
    }
  }

  /** `List.Remove(m)` takes `m`'s value out of the total once, if `m` was
      listed; otherwise the total stays. */
  lemma TotalRemoveFirst(ms: seq<NodeId>, m: NodeId, values: map<NodeId, real>)
    requires forall x :: x in ms ==> x in values
    requires m in values
    ensures Total(RemoveFirst(ms, m), values) == if m in ms then Total(ms, values) - values[m] else Total(ms, values)
  {
    if m in ms {
      var k := FirstIndex(ms, m);
      RemoveFirstAt(ms, m);
      assert ms == ms[..k] + ([m] + ms[k + 1..]);
      TotalConcat(ms[..k], [m] + ms[k + 1..], values);
      TotalConcat([m], ms[k + 1..], values);
      TotalConcat(ms[..k], ms[k + 1..], values);
      assert Total([m], values) == values[m] by {
        assert [m][..0] == [];
      }
    }
  }

  /** After `Stat.AddModifier(m)` and an `Update`, the stat reads `m`'s value
      more than before; without a dependency it throws either way. */
  lemma StatValueAddModifier(r: Relay, m: NodeId, values: map<NodeId, real>)
    requires r.StatRelay? && (forall x :: x in r.mods ==> x in values) && m in values
    ensures StatValue(StatRelay(r.dep, r.mods + [m]), values) ==
            if StatValue(r, values).Some? then Some(StatValue(r, values).value + values[m]) else None
  {
    TotalConcat(r.mods, [m], values);
    assert Total([m], values) == values[m] by {
      assert [m][..0] == [];
    }
  }

  /** After `Stat.RemoveModifier(m)` and an `Update`, the stat reads `m`'s
      value less than before if `m` was listed, the same otherwise. */
  lemma StatValueRemoveModifier(r: Relay, m: NodeId, values: map<NodeId, real>)
    requires r.StatRelay? && (forall x :: x in r.mods ==> x in values) && m in values
    ensures StatValue(StatRelay(r.dep, RemoveFirst(r.mods, m)), values) ==
            if StatValue(r, values).None? then None
            else if m in r.mods then Some(StatValue(r, values).value - values[m])
            else StatValue(r, values)
  {
    TotalRemoveFirst(r.mods, m, values);
    StatValueShift(r, RemoveFirst(r.mods, m), values, if m in r.mods then values[m] else 0.0);
  }

  /** A stat over a list whose total is `delta` less reads `delta` less. */
  lemma StatValueShift(r: Relay, kept: seq<NodeId>, values: map<NodeId, real>, delta: real)
    requires r.StatRelay? && (forall x :: x in r.mods ==> x in values) && (forall x :: x in kept ==> x in values)
    requires Total(kept, values) == Total(r.mods, values) - delta
    ensures StatValue(StatRelay(r.dep, kept), values) ==
            if StatValue(r, values).None? then None else Some(StatValue(r, values).value - delta)
  {
  }

  /** Removing a modifier right after adding it to a stat that did not list
      it restores both the stat's list and the modifier's invocation list. */
  lemma AddThenRemoveModifier(subscribers: map<NodeId, seq<Handler>>, r: Relay, s: NodeId, m: NodeId)
    requires r.StatRelay? && m in subscribers && m !in r.mods
    ensures RemoveFirst(r.mods + [m], m) == r.mods
    ensures Unsubscribe(Subscribe(subscribers, m, ModifierChanged(s)), m, ModifierChanged(s)) == subscribers
  {
    var ms := r.mods + [m];
    RemoveFirstAt(ms, m);
    assert FirstIndex(ms, m) == |r.mods|;
    assert ms[..|r.mods|] == r.mods;
    SubscribeThenUnsubscribe(subscribers[m], ModifierChanged(s));
  }

  // ---------------------------------------------------------------------------
  // The arena

  class Graph {
    var values: map<NodeId, real>               // BindableFloat._value
    var subscribers: map<NodeId, seq<Handler>>  // BindableFloat.OnValueChanged
    var relays: map<NodeId, Relay>
    var dirty: map<NodeId, bool>                // Stat._isDirty
    ghost var rank: map<NodeId, nat>
    var nextNode: nat

    ghost predicate Valid()
      reads this
    {
      WiredIn(values.Keys, dirty.Keys, subscribers, relays, rank, nextNode)
    }

    /** The `Value` setter of any node: equality-gated store, then every
        entry of the invocation list runs, in order. A modifier recomputes
        (and notifies in turn), a stat only marks itself dirty. Nothing
        throws here: a modifier on a list has that node as its dependency. */
    method SetValue(x: NodeId, v: real)
      requires Valid() && x in values
      modifies this`values, this`dirty
      decreases rank[x], 1
      ensures Valid()
      ensures values.Keys == old(values.Keys) && dirty.Keys == old(dirty.Keys)
      ensures forall s :: s in dirty && old(dirty[s]) ==> dirty[s]
      ensures values[x] == v
      // a change recomputes only modifiers below `x`; no stat's value moves
      ensures forall n :: n in values && n != x && values[n] != old(values[n]) ==> FedIn(subscribers, relays, rank, n, rank[x])
      ensures forall s :: s in relays && relays[s].StatRelay? && s != x ==> values[s] == old(values[s])
      // every listener of `x` has heard
      ensures v != old(values[x]) ==> forall h :: h in subscribers[x] ==> HeardIn(values, relays, dirty, h)
      ensures v == old(values[x]) ==> values == old(values) && dirty == old(dirty)
    {
      if v == values[x] {
        return;
      }
      values := values[x := v];
      var hs := subscribers[x];
      var i := 0;
      while i < |hs|
        invariant ProgressIn(subscribers, relays, rank, values, dirty, x, v, hs, i, old(values), old(dirty))
      {
        Dispatch(x, v, hs, i, old(values), old(dirty));
        i := i + 1;
      }
    }

    /** Runs the entry `hs[i]` of `x`'s invocation list. */
    method Dispatch(x: NodeId, ghost v: real, hs: seq<Handler>, i: nat,
                    ghost values0: map<NodeId, real>, ghost dirty0: map<NodeId, bool>)
      requires Valid() && x in subscribers && hs == subscribers[x] && i < |hs|
      requires ProgressIn(subscribers, relays, rank, values, dirty, x, v, hs, i, values0, dirty0)
      modifies this`values, this`dirty
      decreases rank[x], 0
      ensures ProgressIn(subscribers, relays, rank, values, dirty, x, v, hs, i + 1, values0, dirty0)
    {
      assert hs[i] in subscribers[x];
      match hs[i]
      case DependencyChanged(r) =>
        if relays[r].ModRelay? {
          // StatModifier.HandleDependencyValueChange: RefreshValue, i.e. Value = CalculateValue()
          assert relays[r].dep == Some(x) && rank[r] < rank[x];
          var c := ModValue(relays[r], values).value;
          ghost var valuesPre, dirtyPre := values, dirty;
          SetValue(r, c);
          RefreshedChild(subscribers, relays, rank, x, v, hs, i, r, values0, dirty0, valuesPre, dirtyPre, values, dirty);
        } else {
          // Stat.HandleDependencyValueChange: SetDirty
          ghost var dirtyPre := dirty;
          dirty := dirty[r := true];
          ToldStat(subscribers, relays, rank, x, v, hs, i, r, values0, dirty0, values, dirtyPre, dirty);
        }
      case ModifierChanged(s) =>
        // Stat.HandleModifierValueChange: SetDirty
        ghost var dirtyPre := dirty;
        dirty := dirty[s := true];
        ToldStat(subscribers, relays, rank, x, v, hs, i, s, values0, dirty0, values, dirtyPre, dirty);
    }

    // -------------------------------------------------------------------------
    // Construction

    /** An empty arena. */
    constructor ()
      ensures Valid()
      ensures values == map[] && subscribers == map[] && relays == map[] && dirty == map[] && nextNode == 0
    {
      values, subscribers, relays, dirty := map[], map[], map[], map[];
      rank := map[];
      nextNode := 0;
    }

    /** `new BindableFloat(value)`: the setter runs on an empty invocation
        list, so the node just stores the value. */
    method NewBindable(v: real) returns (n: NodeId)
      requires Valid()
      modifies this`values, this`subscribers, this`rank, this`nextNode
      ensures Valid()
      ensures n == old(nextNode) && n !in old(values) && nextNode == n + 1
      ensures values == old(values)[n := v] && subscribers == old(subscribers)[n := []]
    {
      n := nextNode;
      values, subscribers, rank := values[n := v], subscribers[n := []], rank[n := 0];
      nextNode := nextNode + 1;
      WiredAddNode(old(values).Keys, dirty.Keys, old(subscribers), relays, old(rank), n, None,
                   values.Keys, dirty.Keys, subscribers, relays, rank);
    }

    /** Adds a relay node that starts at `v` with nobody subscribed to it. */
    method NewRelay(v: real, relay: Relay) returns (n: NodeId)
      requires Valid() && RefersIn(relay, values.Keys) && (relay.StatRelay? ==> relay.mods == [])
      modifies this`values, this`subscribers, this`relays, this`dirty, this`rank, this`nextNode
      ensures Valid()
      ensures n == old(nextNode) && n !in old(values) && nextNode == n + 1
      ensures values == old(values)[n := v] && subscribers == old(subscribers)[n := []]
      ensures relays == old(relays)[n := relay]
      ensures dirty == if relay.StatRelay? then old(dirty)[n := false] else old(dirty)
    {
      n := nextNode;
      values, subscribers, relays, rank := values[n := v], subscribers[n := []], relays[n := relay], rank[n := 0];
      if relay.StatRelay? {
        dirty := dirty[n := false];
      }
      nextNode := nextNode + 1;
      WiredAddNode(old(values).Keys, old(dirty).Keys, old(subscribers), old(relays), old(rank), n, Some(relay),
                   values.Keys, dirty.Keys, subscribers, relays, rank);
    }

    /** `new StatModifier(value)`: starts at `value`, with magnitude `value`
        and no dependency. */
    method NewStatModifier(v: real) returns (m: NodeId)
      requires Valid()
      modifies this`values, this`subscribers, this`relays, this`dirty, this`rank, this`nextNode
      ensures Valid()
      ensures m !in old(values) && values == old(values)[m := v] && relays == old(relays)[m := ModRelay(None, v, Additive)]
      ensures subscribers == old(subscribers)[m := []] && dirty == old(dirty)
    {
      m := NewRelay(v, ModRelay(None, v, Additive));
    }

    /** `new StatModifierPercent(value, dependency)`: the dependency is stored
        without subscribing and without a refresh, so the node starts at
        `value` rather than at `dependency.Value * value`. */
    method NewStatModifierPercent(v: real, dep: Option<NodeId>) returns (m: NodeId)
      requires Valid() && (dep.Some? ==> dep.value in values)
      modifies this`values, this`subscribers, this`relays, this`dirty, this`rank, this`nextNode
      ensures Valid()
      ensures m !in old(values) && values == old(values)[m := v] && relays == old(relays)[m := ModRelay(dep, v, Percent)]
      ensures subscribers == old(subscribers)[m := []] && dirty == old(dirty)
    {
      m := NewRelay(v, ModRelay(dep, v, Percent));
    }

    /** `new Stat(value)`: a clean stat at `value` over a new BindableFloat
        holding `value`, which it does not subscribe to. */
    method NewStat(v: real) returns (s: NodeId, b: NodeId)
      requires Valid()
      modifies this`values, this`subscribers, this`relays, this`dirty, this`rank, this`nextNode
      ensures Valid()
      ensures b !in old(values) && s !in old(values) && b != s
      ensures values == old(values)[b := v][s := v] && relays == old(relays)[s := StatRelay(Some(b), [])]
      ensures subscribers == old(subscribers)[b := []][s := []] && dirty == old(dirty)[s := false]
    {
      b := NewBindable(v);
      s := NewRelay(v, StatRelay(Some(b), []));
    }

    /** `new Stat(dependency)`: starts at 0, then takes the dependency's value
        through the setter, whose invocation list is still empty, so it only
        stores it; clean, and not subscribed to the dependency. */
    method NewStatOf(dep: NodeId) returns (s: NodeId)
      requires Valid() && dep in values
      modifies this`values, this`subscribers, this`relays, this`dirty, this`rank, this`nextNode
      ensures Valid()
      ensures s !in old(values) && values == old(values)[s := old(values)[dep]]
      ensures relays == old(relays)[s := StatRelay(Some(dep), [])]
      ensures subscribers == old(subscribers)[s := []] && dirty == old(dirty)[s := false]
    {
      s := NewRelay(values[dep], StatRelay(Some(dep), []));
    }

    // -------------------------------------------------------------------------
    // Modifiers

    /** `RefreshValue` of a modifier: `Value = CalculateValue()`. Throws,
        changing nothing, for a percent modifier without a dependency. */
    method RefreshModifier(m: NodeId) returns (ok: bool)
      requires Valid() && m in relays && relays[m].ModRelay?
      modifies this`values, this`dirty
      decreases rank[m], 2
      ensures Valid()
      ensures values.Keys == old(values.Keys) && dirty.Keys == old(dirty.Keys)
      ensures forall s :: s in dirty && old(dirty[s]) ==> dirty[s]
      ensures ok == ModValue(relays[m], old(values)).Some?
      ensures ok ==> values[m] == ModValue(relays[m], old(values)).value
      ensures ok && values[m] != old(values[m]) ==> forall h :: h in subscribers[m] ==> HeardIn(values, relays, dirty, h)
      // only modifiers below `m` are recomputed; no stat's value moves
      ensures forall n :: n in values && n != m && values[n] != old(values[n]) ==> FedIn(subscribers, relays, rank, n, rank[m])
      ensures forall s :: s in relays && relays[s].StatRelay? ==> values[s] == old(values[s])
      ensures !ok ==> values == old(values) && dirty == old(dirty)
    {
      var c := ModValue(relays[m], values);
      if c.None? {
        return false;
      }
      SetValue(m, c.value);
      ok := true;
    }

    /** `StatModifier.SetModValue`: stores the magnitude, then refreshes. */
    method SetModValue(m: NodeId, v: real) returns (ok: bool)
      requires Valid() && m in relays && relays[m].ModRelay?
      modifies this`relays, this`values, this`dirty
      ensures Valid()
      ensures relays == old(relays)[m := old(relays[m]).(magnitude := v)]
      ensures values.Keys == old(values.Keys) && dirty.Keys == old(dirty.Keys)
      ensures forall s :: s in dirty && old(dirty[s]) ==> dirty[s]
      ensures ok == ModValue(relays[m], old(values)).Some?
      ensures ok ==> values[m] == ModValue(relays[m], old(values)).value
      ensures ok && values[m] != old(values[m]) ==> forall h :: h in subscribers[m] ==> HeardIn(values, relays, dirty, h)
      // only modifiers below `m` are recomputed; no stat's value moves
      ensures forall n :: n in values && n != m && values[n] != old(values[n]) ==> FedIn(subscribers, relays, rank, n, rank[m])
      ensures forall s :: s in relays && relays[s].StatRelay? ==> values[s] == old(values[s])
      ensures !ok ==> values == old(values) && dirty == old(dirty)
    {
      relays := relays[m := relays[m].(magnitude := v)];
      WiredSameShape(values.Keys, dirty.Keys, subscribers, old(relays), rank, nextNode, relays);
      ok := RefreshModifier(m);
    }

    // -------------------------------------------------------------------------
    // Stats

    /** `Stat.CalculateValue`: the dependency's value, then each modifier's
        value added in list order. Throws, that is `None`, without a
        dependency. */
    method CalculateValue(s: NodeId) returns (value: Option<real>)
      requires Valid() && s in relays && relays[s].StatRelay?
      ensures value == StatValue(relays[s], values)
    {
      var r := relays[s];
      assert RefersIn(r, values.Keys);
      if r.dep.None? {
        return None;
      }
      var total := values[r.dep.value];
      if |r.mods| == 0 {
        return Some(total);
      }
      var i := 0;
      while i < |r.mods|
        invariant i <= |r.mods|
        invariant total == values[r.dep.value] + Total(r.mods[..i], values)
      {
        assert r.mods[..i + 1][..i] == r.mods[..i];
        total := total + values[r.mods[i]];
        i := i + 1;
      }
      assert r.mods[..i] == r.mods;
      return Some(total);
    }

    /** `Stat.SetDirty`. */
    method SetDirty(s: NodeId)
      requires Valid() && s in relays && relays[s].StatRelay?
      modifies this`dirty
      ensures Valid()
      ensures dirty == old(dirty)[s := true]
    {
      dirty := dirty[s := true];
    }

    /** `Stat.RefreshValue`: a dirty stat recomputes and stores its value
        (notifying its listeners); a clean one only marks itself dirty. */
    method RefreshStat(s: NodeId) returns (ok: bool)
      requires Valid() && s in relays && relays[s].StatRelay?
      modifies this`values, this`dirty
      ensures Valid()
      ensures values.Keys == old(values.Keys) && dirty.Keys == old(dirty.Keys)
      ensures forall t :: t in dirty && old(dirty[t]) ==> dirty[t]
      ensures !old(dirty[s]) ==> ok && values == old(values) && dirty == old(dirty)[s := true]
      ensures old(dirty[s]) ==> ok == StatValue(relays[s], old(values)).Some?
      ensures old(dirty[s]) && ok ==> values[s] == StatValue(relays[s], old(values)).value
      ensures forall t :: t in relays && relays[t].StatRelay? && t != s ==> values[t] == old(values[t])
      ensures !ok ==> values == old(values) && dirty == old(dirty)
    {
      if dirty[s] {
        var c := CalculateValue(s);
        if c.None? {
          return false;
        }
        SetValue(s, c.value);
      } else {
        dirty := dirty[s := true];
      }
      ok := true;
    }

    /** `Stat.Update`: a dirty stat refreshes, then is clean; a clean one is
        left alone. The flag is cleared after the refresh has notified the
        listeners, so a mark raised during that notification is lost. */
    method Update(s: NodeId) returns (ok: bool)
      requires Valid() && s in relays && relays[s].StatRelay?
      modifies this`values, this`dirty
      ensures Valid()
      ensures values.Keys == old(values.Keys) && dirty.Keys == old(dirty.Keys)
      ensures forall t :: t in dirty && t != s && old(dirty[t]) ==> dirty[t]
      ensures !old(dirty[s]) ==> ok && values == old(values) && dirty == old(dirty)
      ensures old(dirty[s]) ==> ok == StatValue(relays[s], old(values)).Some?
      ensures ok ==> !dirty[s]
      ensures old(dirty[s]) && ok ==> values[s] == StatValue(relays[s], old(values)).value
      ensures forall t :: t in relays && relays[t].StatRelay? && t != s ==> values[t] == old(values[t])
      ensures !ok ==> values == old(values) && dirty == old(dirty)
    {
      if dirty[s] {
        ok := RefreshStat(s);
        if !ok {
          return;
        }
        dirty := dirty[s := false];
      } else {
        ok := true;
      }
    }

    /** `Stat.AddModifier`: appends the modifier, subscribes to it, marks
        the stat dirty. */
    method AddModifier(s: NodeId, m: NodeId)
      requires Valid() && s in relays && relays[s].StatRelay? && m in relays && relays[m].ModRelay?
      modifies this`relays, this`subscribers, this`dirty
      ensures Valid()
      ensures relays == old(relays)[s := StatRelay(old(relays[s]).dep, old(relays[s]).mods + [m])]
      ensures subscribers == Subscribe(old(subscribers), m, ModifierChanged(s))
      ensures dirty == old(dirty)[s := true]
    {
      relays := relays[s := StatRelay(relays[s].dep, relays[s].mods + [m])];
      subscribers := Subscribe(subscribers, m, ModifierChanged(s));
      dirty := dirty[s := true];
      assert dirty.Keys == old(dirty).Keys;
      WiredAddModifier(values.Keys, old(dirty).Keys, old(subscribers), old(relays), rank, nextNode, s, m);
    }

    /** `Stat.RemoveModifier`: removes the first copy of the modifier from
        the list and the last copy of the stat's handler from the modifier's
        invocation list, and marks the stat dirty, whether or not the
        modifier was there. */
    method RemoveModifier(s: NodeId, m: NodeId)
      requires Valid() && s in relays && relays[s].StatRelay? && m in relays && relays[m].ModRelay?
      modifies this`relays, this`subscribers, this`dirty
      ensures Valid()
      ensures relays == old(relays)[s := StatRelay(old(relays[s]).dep, RemoveFirst(old(relays[s]).mods, m))]
      ensures subscribers == Unsubscribe(old(subscribers), m, ModifierChanged(s))
      ensures dirty == old(dirty)[s := true]
    {
      relays, subscribers, dirty := relays[s := StatRelay(relays[s].dep, RemoveFirst(relays[s].mods, m))],
        Unsubscribe(subscribers, m, ModifierChanged(s)), dirty[s := true];
      WiredRemoveModifier(values.Keys, old(dirty).Keys, old(subscribers), old(relays), rank, nextNode, s, m);
    }

    // -------------------------------------------------------------------------
    // Dependencies

    /** The rewiring half of the `Dependency` setter: the relay's handler
        leaves the old dependency's invocation list (its last copy) and joins
        the new one's. */
    method Rewire(r: NodeId, d: Option<NodeId>, ghost newRank: map<NodeId, nat>)
      requires Valid() && RewireRanked(subscribers, relays, r, d, newRank) && d != relays[r].dep
      modifies this`relays, this`subscribers, this`rank
      ensures Valid()
      ensures relays == old(relays)[r := old(relays[r]).(dep := d)]
      ensures subscribers == Rewired(old(subscribers), r, old(relays[r].dep), d)
    {
      subscribers, relays, rank := Rewired(subscribers, r, relays[r].dep, d), relays[r := relays[r].(dep := d)], newRank;
      WiredRewire(values.Keys, dirty.Keys, old(subscribers), old(relays), old(rank), nextNode, r, d, subscribers, relays, rank);
    }

    /** `SetDependency`, through the `Dependency` setter: nothing happens when
        `d` is already the dependency. Otherwise the relay is rewired and its
        handler runs on the new dependency's value: a modifier refreshes, a
        stat marks itself dirty. With `d` null the rewiring stands but
        reading the value throws (`ok` false). `SetDependency` does not guard
        against cycles; `newRank` is a ranking under which the new edge runs
        downhill, which is what keeps the refresh from recursing forever. */
    method SetDependency(r: NodeId, d: Option<NodeId>, ghost newRank: map<NodeId, nat>) returns (ok: bool)
      requires Valid() && r in relays && (d.Some? ==> d.value in values)
      requires d != relays[r].dep ==> RewireRanked(subscribers, relays, r, d, newRank)
      modifies this`relays, this`subscribers, this`rank, this`values, this`dirty
      ensures Valid() && r in relays && r in values
      ensures d == old(relays[r].dep) ==>
        ok && relays == old(relays) && subscribers == old(subscribers) && values == old(values) && dirty == old(dirty)
      ensures d != old(relays[r].dep) ==>
        && ok == d.Some?
        && relays == old(relays)[r := old(relays[r]).(dep := d)]
        && subscribers == Rewired(old(subscribers), r, old(relays[r].dep), d)
      ensures values.Keys == old(values.Keys) && dirty.Keys == old(dirty.Keys)
      ensures forall s :: s in dirty && old(dirty[s]) ==> dirty[s]
      ensures d != old(relays[r].dep) && (d.None? || relays[r].StatRelay?) ==> values == old(values)
      ensures d != old(relays[r].dep) && d.None? ==> dirty == old(dirty)
      ensures d != old(relays[r].dep) && d.Some? && relays[r].StatRelay? ==> dirty == old(dirty)[r := true]
      ensures d != old(relays[r].dep) && d.Some? && relays[r].ModRelay? ==>
        values[r] == Calculate(relays[r].rule, Some(old(values)[d.value]), relays[r].magnitude).value
        && forall s :: s in relays && relays[s].StatRelay? ==> values[s] == old(values[s])
    {
      if d == relays[r].dep {
        return true;
      }
      Rewire(r, d, newRank);
      if d.None? {
        return false;
      }
      HandleDependencyChange(r);
      ok := true;
    }

    /** `HandleDependencyValueChange` of a relay that has a dependency: a
        modifier refreshes, a stat marks itself dirty. */
    method HandleDependencyChange(r: NodeId)
      requires Valid() && r in relays && relays[r].dep.Some?
      modifies this`values, this`dirty
      ensures Valid()
      ensures values.Keys == old(values.Keys) && dirty.Keys == old(dirty.Keys)
      ensures forall s :: s in dirty && old(dirty[s]) ==> dirty[s]
      ensures relays[r].StatRelay? ==> values == old(values) && dirty == old(dirty)[r := true]
      ensures relays[r].ModRelay? ==>
        values[r] == ModValue(relays[r], old(values)).value
        && forall s :: s in relays && relays[s].StatRelay? ==> values[s] == old(values[s])
    {
      if relays[r].ModRelay? {
        var ok := RefreshModifier(r);
      } else {
        dirty := dirty[r := true];
      }
    }

    /** `RemoveDependency`: the `Dependency` setter with null. Unsubscribes
        from the old dependency, if any, and then throws on reading the null
        dependency's value; dropping an edge needs no new ranking. */
    method RemoveDependency(r: NodeId) returns (ok: bool)
      requires Valid() && r in relays
      modifies this`relays, this`subscribers, this`rank, this`values, this`dirty
      ensures Valid()
      ensures ok == old(relays[r].dep).None?
      ensures relays == old(relays)[r := old(relays[r]).(dep := None)]
      ensures subscribers == Rewired(old(subscribers), r, old(relays[r].dep), None)
      ensures values == old(values) && dirty == old(dirty)
    {
      assert RefersIn(relays[r], values.Keys);
      RankedUnwire(subscribers, relays, rank, r);
      ok := SetDependency(r, None, rank);
    }
  }
}
